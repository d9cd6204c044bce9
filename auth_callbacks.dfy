/** The NextAuth configuration of lib/auth.ts: the credentials provider's
    `authorize`, and the `signIn`, `jwt`, `session` and `redirect`
    callbacks.  Password comparison (bcrypt) and hashing are parameters. */
module AuthCallbacks {
  import opened Common
  import opened UserModel
  import opened Store

  /** What `authorize` returns on success. */
  datatype AuthUser = AuthUser(id: Id, name: string, email: string)

  /** `authorize` either yields the user or throws one of its messages. */
  datatype Authorized = Authorized(user: AuthUser) | Thrown(message: string)

  /** `authorize`: both fields are required; the user must exist and have
      a password, and the password must match. */
  method Authorize(users: map<Id, UserRecord>, email: Option<string>, password: Option<string>,
                   compare: (string, string) -> bool)
    returns (r: Authorized)
    requires UniqueEmails(users)
    ensures !Present(email) || !Present(password) ==> r == Thrown("Email and password are required")
    ensures Present(email) && Present(password) && !HasEmail(users, email.value) ==> r == Thrown("Invalid credentials")
    ensures Present(email) && Present(password) && HasEmail(users, email.value) ==>
              var id := FindByEmail(users, email.value);
              var u := users[id];
              if !Present(u.password) then r == Thrown("Invalid credentials")
              else if !PasswordMatches(u, password.value, compare) then r == Thrown("Invalid password")
              else r == Authorized(AuthUser(id, u.name, u.email))
    ensures r.Authorized? <==>
              Present(email) && Present(password) && HasEmail(users, email.value) &&
              PasswordMatches(users[FindByEmail(users, email.value)], password.value, compare)
    ensures r.Authorized? ==> r.user.id in users && r.user.email == email.value
  {
    if !Present(email) || !Present(password) {
      return Thrown("Email and password are required");
    }
    if !HasEmail(users, email.value) {
      return Thrown("Invalid credentials");
    }
    var id :| id in users && users[id].email == email.value;
    assert id == FindByEmail(users, email.value);
    var u := users[id];
    if u.password.None? || u.password.value == "" {
      return Thrown("Invalid credentials");
    }
    var ok := compare(password.value, u.password.value);
    if !ok {
      return Thrown("Invalid password");
    }
    return Authorized(AuthUser(id, u.name, u.email));
  }

  /** The profile an OAuth provider hands to `signIn`. */
  datatype ProviderUser = ProviderUser(name: Option<string>, email: string, image: Option<string>)

  /** What an OAuth sign-in does to an existing user, and whether it
      saves: a missing or different picture is replaced by the provider's
      (when it has one), and a user not yet verified becomes verified. */
  function OAuthRefresh(u: UserRecord, image: Option<string>): (r: (bool, UserRecord))
    ensures r.1.isVerified == Some(true)
    ensures r.1 == u.(profileImage := r.1.profileImage, isVerified := Some(true))
    ensures Present(image) ==> r.1.profileImage == image
    ensures !Present(image) ==> r.1.profileImage == u.profileImage
    ensures !r.0 ==> r.1 == u
  {
    var pictureStale := !Present(u.profileImage) || u.profileImage != image;
    var picture := if pictureStale then (if Present(image) then image else u.profileImage) else u.profileImage;
    var unverified := u.isVerified != Some(true);
    (pictureStale || unverified, u.(profileImage := picture, isVerified := if unverified then Some(true) else u.isVerified))
  }

  /** A second sign-in with the same picture saves nothing. */
  lemma OAuthRefreshSettles(u: UserRecord, image: Option<string>)
    requires Present(image)
    ensures !OAuthRefresh(OAuthRefresh(u, image).1, image).0
  {
  }

  /** The user an OAuth sign-in creates: named by the provider or
      "Unknown", verified, with no password. */
  function OAuthUser(p: ProviderUser, now: int): (u: UserRecord)
    ensures u.name != "" && u.email == p.email && u.isVerified == Some(true) && u.password.None?
    ensures Present(p.name) ==> u.name == p.name.value
    ensures !Present(p.name) ==> u.name == "Unknown"
    ensures u.profileImage == (if Present(p.image) then p.image else None)
  {
    NewUser(if Present(p.name) then p.name.value else "Unknown", p.email, None, true,
            if Present(p.image) then p.image else None, now)
  }

  /** The `signIn` callback.  The credentials provider is let through
      untouched.  For OAuth the user with the profile's e-mail is refreshed
      (and saved when something may have changed), or created; a failed
      save answers false. */
  method SignIn(db: Database, provider: Option<string>, p: ProviderUser, now: int, newId: Id, hash: string -> string)
    returns (ok: bool)
    requires db.Valid() && newId !in db.users
    modifies db
    ensures db.Valid()
    ensures db.conversations == old(db.conversations) && db.messages == old(db.messages)
    ensures db.requests == old(db.requests) && db.projects == old(db.projects)
    ensures provider == Some("credentials") ==> ok && db.users == old(db.users)
    ensures provider != Some("credentials") && HasEmail(old(db.users), p.email) ==>
              var id := FindByEmail(old(db.users), p.email);
              var (save, after) := OAuthRefresh(old(db.users)[id], p.image);
              if !save then ok && db.users == old(db.users)
              else if UserValid(after) then ok && db.users == old(db.users)[id := after]
              else !ok && db.users == old(db.users)
    ensures provider != Some("credentials") && !HasEmail(old(db.users), p.email) ==>
              if UserValid(OAuthUser(p, now)) then ok && db.users == old(db.users)[newId := OAuthUser(p, now)]
              else !ok && db.users == old(db.users)
    ensures ok && provider != Some("credentials") ==>
              exists id :: id in db.users && db.users[id].email == p.email && db.users[id].isVerified == Some(true)
  {
    if provider == Some("credentials") {
      return true;
    }
    if HasEmail(db.users, p.email) {
      var id :| id in db.users && db.users[id].email == p.email;
      assert id == FindByEmail(db.users, p.email);
      var (save, after) := OAuthRefresh(db.users[id], p.image);
      if !save {
        return true;
      }
      var stored := Stored(after, false, hash);
      if !UserValid(stored) {
        return false;
      }
      SameEmailKeepsUnique(db.users, id, stored);
      db.users := db.users[id := stored];
      assert db.users[id].email == p.email;
      return true;
    }
    var u := OAuthUser(p, now);
    var stored := Stored(u, u.password.Some?, hash);
    if !UserValid(stored) {
      return false;
    }
    FreshEmailKeepsUnique(db.users, newId, stored);
    db.users := db.users[newId := stored];
    assert db.users[newId].email == p.email;
    return true;
  }

  /** The JWT and the session's user; absent claims are `None`. */
  datatype Token = Token(id: Option<string>, name: Option<string>, email: Option<string>)
  datatype SessionUser = SessionUser(id: Option<string>, name: Option<string>, email: Option<string>)
  datatype Session = Session(user: SessionUser, expires: string)

  /** The `jwt` callback: on sign-in the user's id goes into the token;
      otherwise the token is returned as it came. */
  function Jwt(token: Token, user: Option<AuthUser>): (r: Token)
    ensures user.None? ==> r == token
    ensures user.Some? ==> r.id == Some(user.value.id)
    ensures r.name == token.name && r.email == token.email
  {
    if user.Some? then token.(id := Some(user.value.id)) else token
  }

  /** The `session` callback: a non-empty token id becomes the session
      user's id; nothing else changes. */
  function SessionOf(session: Session, token: Token): (r: Session)
    ensures Present(token.id) ==> r.user.id == token.id
    ensures !Present(token.id) ==> r == session
    ensures r == session.(user := session.user.(id := r.user.id))
  {
    if Present(token.id) then session.(user := session.user.(id := token.id)) else session
  }

  /** Signing in puts the user's id into every session built from the
      token, also on later requests that carry no user. */
  lemma {:induction false} SessionCarriesUserId(token: Token, u: AuthUser, session: Session)
    requires u.id != ""
    ensures SessionOf(session, Jwt(Jwt(token, Some(u)), None)).user.id == Some(u.id)
  {
    assert Jwt(Jwt(token, Some(u)), None).id == Some(u.id);
  }

  /** The `redirect` callback as written, with its reset-password case
      first. */
  function Redirect(url: string, baseUrl: string): (r: string)
    ensures StartsWith(r, baseUrl)
    ensures r == (if StartsWith(url, baseUrl) then url else baseUrl)
  {
    if StartsWith(url, baseUrl + "/auth/reset-password") then
      PrefixOfPrefix(url, baseUrl, "/auth/reset-password");
      url
    else if StartsWith(url, baseUrl) then url
    else
      assert baseUrl[..|baseUrl|] == baseUrl;
      baseUrl
  }

  lemma {:induction false} PrefixOfPrefix(s: string, a: string, b: string)
    requires StartsWith(s, a + b)
    ensures StartsWith(s, a)
  {
    assert s[..|a|] == (a + b)[..|a|] == a;
  }

  /** Redirecting is idempotent: the answer is itself let through. */
  lemma RedirectIdempotent(url: string, baseUrl: string)
    ensures Redirect(Redirect(url, baseUrl), baseUrl) == Redirect(url, baseUrl)
  {
  }
}
