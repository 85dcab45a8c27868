/**
 * The OAuth callbacks and token issuing of backend/auth/google.js: how a
 * Google or GitHub profile becomes the session user, and which claims the
 * signed token carries. The OAuth exchange and the signing are done by
 * libraries and are not part of this model.
 */
module GoogleAuth {
  import opened Seqs

  /** The profile fields the callbacks read; `None` is an absent field. */
  datatype Profile = Profile(
    id: string,
    emails: Option<seq<string>>,   // the `value` of each entry of `emails`
    displayName: Option<string>,
    photos: Option<seq<string>>,   // the `value` of each entry of `photos`
    username: Option<string>,
    avatarUrl: Option<string>)

  /** The user record handed to `done`. */
  datatype User = User(id: string, email: string, name: Option<string>, picture: Option<string>, provider: string)

  /** What a callback passes on: the user, or the error its body threw. */
  datatype AuthResult = Authenticated(user: User) | AuthError

  /** `String(v)` as `+` applies it: an absent value reads "undefined". */
  function JsString(v: Option<string>): string
  {
    if v.None? then "undefined" else v.value
  }

  /** `a || b` on optional strings: the first unless it is absent or empty. */
  function OrElse(a: Option<string>, b: Option<string>): (r: Option<string>)
    ensures a.Some? && a.value != "" ==> r == a
    ensures a.None? || a.value == "" ==> r == b
  {
    if a.Some? && a.value != "" then a else b
  }

  /** `list && list[0]`: the list is present and has a first entry. */
  predicate HasFirst(list: Option<seq<string>>)
  {
    list.Some? && |list.value| > 0
  }

  /**
   * The Google callback: the first e-mail and photo are read unguarded, so a
   * profile without them makes the callback fail.
   */
  function GoogleUser(p: Profile): (r: AuthResult)
    ensures r.Authenticated? <==> HasFirst(p.emails) && HasFirst(p.photos)
    ensures r.Authenticated? ==> r.user == User(p.id, p.emails.value[0], p.displayName, Some(p.photos.value[0]), "google")
  {
    if HasFirst(p.emails) && HasFirst(p.photos) then
      Authenticated(User(p.id, p.emails.value[0], p.displayName, Some(p.photos.value[0]), "google"))
    else AuthError
  }

  /** The GitHub callback: every field has a fallback, so it never fails. */
  function GitHubUser(p: Profile): (u: User)
    ensures u.id == p.id && u.provider == "github"
    ensures HasFirst(p.emails) ==> u.email == p.emails.value[0]
    ensures !HasFirst(p.emails) ==> u.email == JsString(p.username) + "@github.com"
    ensures u.name == OrElse(p.displayName, p.username)
    ensures HasFirst(p.photos) ==> u.picture == Some(p.photos.value[0])
    ensures !HasFirst(p.photos) ==> u.picture == p.avatarUrl
  {
    User(
      p.id,
      if HasFirst(p.emails) then p.emails.value[0] else JsString(p.username) + "@github.com",
      OrElse(p.displayName, p.username),
      if HasFirst(p.photos) then Some(p.photos.value[0]) else p.avatarUrl,
      "github")
  }

  /**
   * On a profile with an e-mail, a photo and a display name, the two
   * callbacks build the same user up to the provider.
   */
  lemma CallbacksAgreeOnCompleteProfiles(p: Profile)
    requires HasFirst(p.emails) && HasFirst(p.photos) && p.displayName.Some? && p.displayName.value != ""
    ensures GoogleUser(p).Authenticated?
    ensures GoogleUser(p).user.(provider := "github") == GitHubUser(p)
  {
  }

  /** A GitHub user without a listed e-mail gets an address under github.com. */
  lemma GitHubFallbackEmail(p: Profile)
    requires !HasFirst(p.emails) && p.username == Some("octocat")
    ensures GitHubUser(p).email == "octocat@github.com"
  {
  }

  /** The claims `generateToken` signs: `picture` is not among them. */
  datatype TokenPayload = TokenPayload(id: string, email: string, name: Option<string>, provider: string)

  /** Everything handed to the signing call: the claims, the key and the validity window in seconds. */
  datatype SignRequest = SignRequest(payload: TokenPayload, key: string, issuedAt: int, expiresAt: int)

  /** `expiresIn: '24h'`, in seconds. */
  const TokenLifetime: int := 24 * 60 * 60

  /** `process.env.JWT_SECRET || 'default-secret-key'`. */
  function SigningKey(jwtSecret: Option<string>): (k: string)
    ensures k != ""
    ensures jwtSecret.Some? && jwtSecret.value != "" ==> k == jwtSecret.value
    ensures jwtSecret.None? || jwtSecret.value == "" ==> k == "default-secret-key"
  {
    if jwtSecret.Some? && jwtSecret.value != "" then jwtSecret.value else "default-secret-key"
  }

  /** `generateToken(user)` at time `now` (seconds since the epoch). */
  function GenerateToken(user: User, jwtSecret: Option<string>, now: int): (req: SignRequest)
    ensures req.payload.id == user.id && req.payload.email == user.email
    ensures req.payload.name == user.name && req.payload.provider == user.provider
    ensures req.issuedAt == now && req.expiresAt == now + 86400
    ensures req.key == SigningKey(jwtSecret)
  {
    SignRequest(TokenPayload(user.id, user.email, user.name, user.provider), SigningKey(jwtSecret), now, now + TokenLifetime)
  }

  /**
   * Two users that differ only in their picture get the same token: the
   * payload drops it.
   */
  lemma TokenIgnoresPicture(user: User, picture: Option<string>, jwtSecret: Option<string>, now: int)
    ensures GenerateToken(user.(picture := picture), jwtSecret, now) == GenerateToken(user, jwtSecret, now)
  {
  }
}
