/**
 * The two-factor routes (backend/routes/2fa.js): an in-memory store of one
 * TOTP secret per user id, filled by `/generate` and read by `/verify`.
 * Secret generation, the QR image and the TOTP check itself belong to
 * libraries; they enter as parameters.
 */
module TwoFactor {
  import opened Seqs

  /**
   * JavaScript truthiness of a request-body member that is a string when
   * present: missing and empty are falsy.
   */
  predicate Truthy(v: Option<string>)
  {
    v.Some? && v.value != ""
  }

  /** The `window` passed to the TOTP check: two time steps either side. */
  const TotpWindow: nat := 2

  /** The reply of `POST /api/2fa/generate`. */
  datatype GenerateResponse =
    | Generated(secret: string, qrCode: string)   // 200
    | GenerateFailed                              // 500: the QR image could not be made

  /** The reply of `POST /api/2fa/verify`. */
  datatype VerifyResponse =
    | MissingFields   // 400
    | NotSetUp        // 404
    | Verified        // 200, verified: true
    | Rejected        // 401, verified: false

  function Status(r: VerifyResponse): int
  {
    match r
    case MissingFields => 400
    case NotSetUp => 404
    case Verified => 200
    case Rejected => 401
  }

  /**
   * What `/verify` answers for a store: the request is checked first, the
   * store second, the code last. `totp(secret, token, window)` is the
   * library's check.
   */
  function VerifyOutcome(store: map<Option<string>, string>, userId: Option<string>, token: Option<string>,
                         totp: (string, string, nat) -> bool): (r: VerifyResponse)
    ensures r == MissingFields <==> !Truthy(userId) || !Truthy(token)
    ensures r == NotSetUp <==> Truthy(userId) && Truthy(token) && (userId !in store || store[userId] == "")
    ensures r == Verified <==>
      Truthy(userId) && Truthy(token) && userId in store && store[userId] != "" && totp(store[userId], token.value, TotpWindow)
    ensures Status(r) == 200 <==> r == Verified
  {
    if !Truthy(userId) || !Truthy(token) then MissingFields
    else if userId !in store || store[userId] == "" then NotSetUp
    else if totp(store[userId], token.value, TotpWindow) then Verified
    else Rejected
  }

  /** A malformed request is refused whatever the store holds. */
  lemma MissingFieldsIgnoresStore(s1: map<Option<string>, string>, s2: map<Option<string>, string>,
                                  userId: Option<string>, token: Option<string>, totp: (string, string, nat) -> bool)
    requires !Truthy(userId) || !Truthy(token)
    ensures VerifyOutcome(s1, userId, token, totp) == VerifyOutcome(s2, userId, token, totp) == MissingFields
  {
  }

  /**
   * After `/generate` stored a non-empty secret for a user, `/verify` for that
   * user accepts exactly the codes the TOTP check accepts for that secret.
   */
  lemma VerifyAfterGenerate(store: map<Option<string>, string>, userId: Option<string>, secret: string,
                            token: Option<string>, totp: (string, string, nat) -> bool)
    requires Truthy(userId) && Truthy(token) && secret != ""
    ensures VerifyOutcome(store[userId := secret], userId, token, totp) ==
      if totp(secret, token.value, TotpWindow) then Verified else Rejected
  {
  }

  /** Storing a secret for one user changes no other user's answer. */
  lemma GenerateLeavesOthers(store: map<Option<string>, string>, userId: Option<string>, secret: string,
                             other: Option<string>, token: Option<string>, totp: (string, string, nat) -> bool)
    requires other != userId
    ensures VerifyOutcome(store[userId := secret], other, token, totp) == VerifyOutcome(store, other, token, totp)
  {
  }

  /** The module-level `user2FASecrets` map and the two routes over it. */
  class SecretStore {
    var user2FASecrets: map<Option<string>, string>

    constructor ()
      ensures user2FASecrets == map[]
    {
      user2FASecrets := map[];
    }

    /**
     * `POST /generate`: `secret` is the base32 secret the library generated and
     * `qrCode` the data URL it drew, or `None` when drawing failed. The secret
     * is stored before the image is drawn, so a failure leaves it stored.
     */
    method Generate(userId: Option<string>, secret: string, qrCode: Option<string>) returns (resp: GenerateResponse)
      modifies this
      ensures user2FASecrets == old(user2FASecrets)[userId := secret]
      ensures resp.Generated? <==> qrCode.Some?
      ensures resp.Generated? ==> resp.secret == user2FASecrets[userId] && resp.qrCode == qrCode.value
    {
      user2FASecrets := user2FASecrets[userId := secret];
      match qrCode
      case None =>
        resp := GenerateFailed;
      case Some(url) =>
        resp := Generated(secret, url);
    }

    /** `POST /verify`: reads the store and leaves it as it is. */
    method Verify(userId: Option<string>, token: Option<string>, totp: (string, string, nat) -> bool)
      returns (resp: VerifyResponse)
      ensures resp == VerifyOutcome(user2FASecrets, userId, token, totp)
    {
      if !Truthy(userId) || !Truthy(token) {
        return MissingFields;
      }
      if userId !in user2FASecrets || user2FASecrets[userId] == "" {
        return NotSetUp;
      }
      var secret := user2FASecrets[userId];
      var verified := totp(secret, token.value, TotpWindow);
      if verified {
        resp := Verified;
      } else {
        resp := Rejected;
      }
    }
  }
}
