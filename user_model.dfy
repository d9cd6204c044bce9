/** User accounts (models/User.ts): the stored record, the schema's
    validators, and the document methods for passwords, the e-mail
    verification code and the password-reset token.  Hashing (bcrypt,
    SHA-256) and `Math.random` are parameters. */
module UserModel {
  import opened Common

  datatype UserRecord = UserRecord(
    name: string,
    email: string,
    password: Option<string>,
    profileImage: Option<string>,
    profileImagePublicId: Option<string>,
    username: Option<string>,
    bio: Option<string>,
    skills: seq<string>,
    location: Option<string>,
    isVerified: Option<bool>,
    verificationOTP: Option<string>,
    verificationExpiry: Option<int>,
    resetToken: Option<string>,
    resetTokenExpiry: Option<int>,
    projects: seq<Id>,
    friends: seq<Id>,
    createdAt: int)

  /** The paths the user schema declares, with its timestamps and `_id`.
      Under the default strict mode an update of any other path is cast
      away, and reading one from a loaded document yields `undefined`. */
  const UserPaths: set<string> := {
    "_id", "name", "email", "password", "profileImage", "isVerified", "verificationOTP", "verificationExpiry",
    "username", "bio", "skills", "location", "socials", "projects", "connections", "communities",
    "profileCompleted", "lastActive", "resetToken", "resetTokenExpiry", "createdAt", "updatedAt"}

  /** Three paths the code writes or reads are not declared: the code's
      expiry, the friend list and the picture's public id. */
  lemma UndeclaredPaths()
    ensures "verificationOTPExpiry" !in UserPaths
    ensures "friends" !in UserPaths && "profileImagePublicId" !in UserPaths
    ensures "profileImage" in UserPaths && "bio" in UserPaths && "location" in UserPaths && "skills" in UserPaths
  {
  }

  /** Ten minutes, the lifetime `generateVerificationOTP` gives a code. */
  const OtpLifetimeMs := 600_000
  /** One hour, the lifetime of a reset token. */
  const ResetLifetimeMs := 3_600_000

  /** `/\S+@\S+\.\S+/` (unanchored): a non-space character, `@`, one or
      more non-space characters, `.`, and a non-space character. */
  predicate EmailFormat(s: string) {
    exists i, j | 0 <= i < |s| && 0 <= j < |s| :: EmailMatchAt(s, i, j)
  }

  /** The pattern matches with its `@` at `i` and its `.` at `j`. */
  predicate EmailMatchAt(s: string, i: int, j: int) {
    && 1 <= i && i + 2 <= j && j + 1 < |s|
    && s[i] == '@' && s[j] == '.' && !IsJsSpace(s[i - 1]) && !IsJsSpace(s[j + 1])
    && NoSpaceBetween(s, i, j)
  }

  predicate NoSpaceBetween(s: string, i: int, j: int)
    requires 0 <= i <= j <= |s|
  {
    forall k :: i < k < j ==> !IsJsSpace(s[k])
  }

  lemma {:induction false} EmailFormatNeedsAtAndDot(s: string)
    requires EmailFormat(s)
    ensures '@' in s && '.' in s && |s| >= 5
  {
    var i, j :| 0 <= i < |s| && 0 <= j < |s| && EmailMatchAt(s, i, j);
  }

  lemma {:induction false} EmailFormatExample()
    ensures EmailFormat("a@b.c") && !EmailFormat("a@.c")
  {
    assert EmailMatchAt("a@b.c", 1, 3);
    var t := "a@.c";
    assert |t| == 4;
  }

  /** The schema's validators: a non-empty name, an e-mail matching the
      pattern, and a username (when present) of 3..30 characters. */
  predicate UserValid(u: UserRecord) {
    && u.name != ""
    && EmailFormat(u.email)
    && (u.username.Some? ==> 3 <= |u.username.value| <= 30)
  }

  /** The unique index on `email`. */
  predicate UniqueEmails(users: map<Id, UserRecord>) {
    forall a, b :: a in users && b in users && a != b ==> users[a].email != users[b].email
  }

  predicate HasEmail(users: map<Id, UserRecord>, email: string) {
    exists id :: id in users && users[id].email == email
  }

  /** The user `findOne({ email })` finds; under the unique index there is
      only one. */
  ghost function FindByEmail(users: map<Id, UserRecord>, email: string): (id: Id)
    requires HasEmail(users, email)
    ensures id in users && users[id].email == email
    ensures UniqueEmails(users) ==> forall other :: other in users && users[other].email == email ==> other == id
  {
    var id :| id in users && users[id].email == email; id
  }

  /** Adding a user whose e-mail no stored user has keeps e-mails unique. */
  lemma {:induction false} FreshEmailKeepsUnique(users: map<Id, UserRecord>, id: Id, u: UserRecord)
    requires UniqueEmails(users) && id !in users && !HasEmail(users, u.email)
    ensures UniqueEmails(users[id := u])
  {
    var after := users[id := u];
    forall a, b | a in after && b in after && a != b
      ensures after[a].email != after[b].email
    {
      if a == id {
        assert b in users;
      } else if b == id {
        assert a in users;
      }
    }
  }

  /** Rewriting a user's record without changing the e-mail keeps e-mails
      unique. */
  lemma {:induction false} SameEmailKeepsUnique(users: map<Id, UserRecord>, id: Id, u: UserRecord)
    requires UniqueEmails(users) && id in users && u.email == users[id].email
    ensures UniqueEmails(users[id := u])
  {
    var after := users[id := u];
    forall a, b | a in after && b in after && a != b
      ensures after[a].email != after[b].email
    {
      assert after[a].email == users[a].email && after[b].email == users[b].email;
    }
  }

  /** `new User({ name, email, password, isVerified, profileImage })`:
      `skills`, `projects` and `friends` start empty and every token field
      absent. */
  function NewUser(name: string, email: string, password: Option<string>, isVerified: bool,
                   profileImage: Option<string>, now: int): (u: UserRecord)
    ensures u.name == name && u.email == email && u.password == password
    ensures u.isVerified == Some(isVerified) && u.profileImage == profileImage
    ensures u.verificationOTP.None? && u.verificationExpiry.None?
    ensures u.resetToken.None? && u.resetTokenExpiry.None?
    ensures u.skills == [] && u.projects == [] && u.friends == [] && u.createdAt == now
  {
    UserRecord(name, email, password, profileImage, None, None, None, [], None, Some(isVerified),
               None, None, None, None, [], [], now)
  }

  /** `comparePassword`: false when no password is stored, otherwise the
      hash comparison. */
  predicate PasswordMatches(u: UserRecord, candidate: string, compare: (string, string) -> bool) {
    Present(u.password) && compare(candidate, u.password.value)
  }

  lemma NoPasswordNeverMatches(u: UserRecord, candidate: string, compare: (string, string) -> bool)
    requires !Present(u.password)
    ensures !PasswordMatches(u, candidate, compare)
  {
  }

  /** `Math.floor(100000 + r * 900000)` for a draw `r` in [0, 1). */
  function OtpCode(draw: real): (n: int)
    requires 0.0 <= draw < 1.0
    ensures 100000 <= n <= 999999
  {
    (100000.0 + draw * 900000.0).Floor
  }

  function DigitChar(d: int): (c: char)
    requires 0 <= d < 10
    ensures '0' <= c <= '9'
  {
    ('0' as int + d) as char
  }

  /** `n.toString()` for a natural number. */
  function DecimalString(n: nat): (s: string)
    ensures |s| >= 1 && forall i :: 0 <= i < |s| ==> '0' <= s[i] <= '9'
    decreases n
  {
    if n < 10 then [DigitChar(n)] else DecimalString(n / 10) + [DigitChar(n % 10)]
  }

  /** Reading a digit string back as a number. */
  function DecimalValue(s: string): int
    decreases |s|
  {
    if s == [] then 0 else 10 * DecimalValue(s[..|s| - 1]) + (s[|s| - 1] as int - '0' as int)
  }

  lemma {:induction false} DecimalRoundTrip(n: nat)
    ensures DecimalValue(DecimalString(n)) == n
    decreases n
  {
    if n >= 10 {
      var s := DecimalString(n);
      assert s[..|s| - 1] == DecimalString(n / 10);
      DecimalRoundTrip(n / 10);
    }
  }

  function Pow10(k: nat): nat
    decreases k
  {
    if k == 0 then 1 else 10 * Pow10(k - 1)
  }

  lemma {:induction false} DecimalLength(n: nat, k: nat)
    requires k >= 1 && Pow10(k - 1) <= n < Pow10(k)
    ensures |DecimalString(n)| == k
    decreases k
  {
    if k > 1 {
      assert Pow10(k - 2) <= n / 10 < Pow10(k - 1);
      DecimalLength(n / 10, k - 1);
    }
  }

  /** The code handed out is always six decimal digits. */
  lemma OtpIsSixDigits(draw: real)
    requires 0.0 <= draw < 1.0
    ensures |DecimalString(OtpCode(draw))| == 6
  {
    assert Pow10(5) == 100000 && Pow10(6) == 1000000;
    DecimalLength(OtpCode(draw), 6);
  }

  /** `verifyOTP(otp)` at time `now`: success exactly when the code equals
      the stored one and `verificationExpiry` lies after `now`; success
      marks the user verified and clears code and expiry, failure changes
      nothing. */
  function VerifyOtpResult(u: UserRecord, otp: Option<string>, now: int): (r: (bool, UserRecord))
    ensures r.0 <==> u.verificationOTP == otp && u.verificationExpiry.Some? && u.verificationExpiry.value > now
    ensures r.0 ==> r.1 == u.(isVerified := Some(true), verificationOTP := None, verificationExpiry := None)
    ensures !r.0 ==> r.1 == u
  {
    if u.verificationOTP == otp && u.verificationExpiry.Some? && u.verificationExpiry.value > now then
      (true, u.(isVerified := Some(true), verificationOTP := None, verificationExpiry := None))
    else (false, u)
  }

  /** A code verifies at most once: after a success nothing verifies. */
  lemma VerifyOtpSingleUse(u: UserRecord, otp: Option<string>, now: int, again: Option<string>, later: int)
    requires VerifyOtpResult(u, otp, now).0
    ensures !VerifyOtpResult(VerifyOtpResult(u, otp, now).1, again, later).0
  {
  }

  /** The record after `generateVerificationOTP` as written: only the code
      is stored; the expiry goes to `verificationOTPExpiry`, which is not a
      field `verifyOTP` reads. */
  function AfterOtpIssued(u: UserRecord, draw: real): (r: UserRecord)
    requires 0.0 <= draw < 1.0
    ensures r == u.(verificationOTP := Some(DecimalString(OtpCode(draw))))
    ensures r.verificationExpiry == u.verificationExpiry
  {
    u.(verificationOTP := Some(DecimalString(OtpCode(draw))))
  }

  /** The code issued to a user who has no `verificationExpiry` (every user
      created by the sign-up route) never verifies, whatever the time. */
  lemma {:induction false} IssuedOtpNeverVerifies(u: UserRecord, draw: real, later: int)
    requires 0.0 <= draw < 1.0 && u.verificationExpiry.None?
    ensures !VerifyOtpResult(AfterOtpIssued(u, draw), Some(DecimalString(OtpCode(draw))), later).0
  {
  }

  /** The evidently intended `generateVerificationOTP`: the code and its
      ten-minute expiry in the field `verifyOTP` checks. */
  function AfterOtpIssuedCorrected(u: UserRecord, draw: real, now: int): (r: UserRecord)
    requires 0.0 <= draw < 1.0
    ensures r == u.(verificationOTP := Some(DecimalString(OtpCode(draw))), verificationExpiry := Some(now + OtpLifetimeMs))
  {
    u.(verificationOTP := Some(DecimalString(OtpCode(draw))), verificationExpiry := Some(now + OtpLifetimeMs))
  }

  /** With the correction the issued code verifies exactly until the ten
      minutes are over, and no other code does. */
  lemma {:induction false} CorrectedOtpVerifies(u: UserRecord, draw: real, now: int, later: int, otp: Option<string>)
    requires 0.0 <= draw < 1.0
    ensures VerifyOtpResult(AfterOtpIssuedCorrected(u, draw, now), otp, later).0 <==>
              otp == Some(DecimalString(OtpCode(draw))) && later < now + OtpLifetimeMs
  {
  }

  /** `generateResetToken`: only the hash of the raw token is stored, with
      an expiry one hour ahead. */
  function WithResetToken(u: UserRecord, raw: string, now: int, sha256: string -> string): (r: UserRecord)
    ensures r == u.(resetToken := Some(sha256(raw)), resetTokenExpiry := Some(now + ResetLifetimeMs))
  {
    u.(resetToken := Some(sha256(raw)), resetTokenExpiry := Some(now + ResetLifetimeMs))
  }

  /** `validateResetToken`: the hashes match and the expiry lies after
      `now`. */
  predicate ResetTokenValid(u: UserRecord, token: string, now: int, sha256: string -> string) {
    u.resetToken == Some(sha256(token)) && u.resetTokenExpiry.Some? && u.resetTokenExpiry.value > now
  }

  /** A freshly issued token validates exactly while the hour lasts, and a
      token with a different hash never does. */
  lemma ResetTokenRoundTrip(u: UserRecord, raw: string, now: int, token: string, later: int, sha256: string -> string)
    ensures ResetTokenValid(WithResetToken(u, raw, now, sha256), raw, later, sha256) <==> later < now + ResetLifetimeMs
    ensures sha256(token) != sha256(raw) ==> !ResetTokenValid(WithResetToken(u, raw, now, sha256), token, later, sha256)
  {
  }

  /** `clearResetToken`: no token validates afterwards. */
  function WithoutResetToken(u: UserRecord): (r: UserRecord)
    ensures r.resetToken.None? && r.resetTokenExpiry.None?
    ensures forall token, now, sha256 :: !ResetTokenValid(r, token, now, sha256)
    ensures r.(resetToken := u.resetToken, resetTokenExpiry := u.resetTokenExpiry) == u
  {
    u.(resetToken := None, resetTokenExpiry := None)
  }

  /** What the pre-save hook writes: a modified, non-empty password is
      replaced by its hash. */
  function Stored(u: UserRecord, passwordModified: bool, hash: string -> string): (r: UserRecord)
    ensures passwordModified && Present(u.password) ==> r == u.(password := Some(hash(u.password.value)))
    ensures !(passwordModified && Present(u.password)) ==> r == u
  {
    if passwordModified && Present(u.password) then u.(password := Some(hash(u.password.value))) else u
  }

  /** A loaded or newly built user document. */
  class UserDoc {
    var name: string
    var email: string
    var password: Option<string>
    var profileImage: Option<string>
    var profileImagePublicId: Option<string>
    var username: Option<string>
    var bio: Option<string>
    var skills: seq<string>
    var location: Option<string>
    var isVerified: Option<bool>
    var verificationOTP: Option<string>
    var verificationExpiry: Option<int>
    var resetToken: Option<string>
    var resetTokenExpiry: Option<int>
    var projects: seq<Id>
    var friends: seq<Id>
    var createdAt: int
    /** Written by `generateVerificationOTP`; not a schema path, so it is
        never part of the stored record. */
    var verificationOTPExpiry: Option<int>
    /** `isModified("password")`. */
    var passwordModified: bool

    /** The fields the store keeps. */
    function Record(): UserRecord
      reads this
    {
      UserRecord(name, email, password, profileImage, profileImagePublicId, username, bio, skills,
                 location, isVerified, verificationOTP, verificationExpiry, resetToken, resetTokenExpiry,
                 projects, friends, createdAt)
    }

    /** A document as a query returns it. */
    constructor Load(r: UserRecord)
      ensures Record() == r && verificationOTPExpiry.None? && !passwordModified
    {
      name, email, password := r.name, r.email, r.password;
      profileImage, profileImagePublicId, username := r.profileImage, r.profileImagePublicId, r.username;
      bio, skills, location, isVerified := r.bio, r.skills, r.location, r.isVerified;
      verificationOTP, verificationExpiry := r.verificationOTP, r.verificationExpiry;
      resetToken, resetTokenExpiry := r.resetToken, r.resetTokenExpiry;
      projects, friends, createdAt := r.projects, r.friends, r.createdAt;
      verificationOTPExpiry := None;
      passwordModified := false;
    }

    /** `new User({...})`: every given path counts as modified. */
    constructor Create(r: UserRecord)
      ensures Record() == r && verificationOTPExpiry.None? && passwordModified == r.password.Some?
    {
      name, email, password := r.name, r.email, r.password;
      profileImage, profileImagePublicId, username := r.profileImage, r.profileImagePublicId, r.username;
      bio, skills, location, isVerified := r.bio, r.skills, r.location, r.isVerified;
      verificationOTP, verificationExpiry := r.verificationOTP, r.verificationExpiry;
      resetToken, resetTokenExpiry := r.resetToken, r.resetTokenExpiry;
      projects, friends, createdAt := r.projects, r.friends, r.createdAt;
      verificationOTPExpiry := None;
      passwordModified := r.password.Some?;
    }

    method ComparePassword(candidate: string, compare: (string, string) -> bool) returns (ok: bool)
      ensures ok == PasswordMatches(Record(), candidate, compare)
    {
      if password.None? || password.value == "" {
        return false;
      }
      ok := compare(candidate, password.value);
    }

    /** `generateVerificationOTP` as written. */
    method GenerateVerificationOtp(draw: real, now: int) returns (otp: string)
      requires 0.0 <= draw < 1.0
      modifies this
      ensures otp == DecimalString(OtpCode(draw)) && |otp| == 6
      ensures Record() == AfterOtpIssued(old(Record()), draw)
      ensures verificationOTPExpiry == Some(now + OtpLifetimeMs)
      ensures passwordModified == old(passwordModified)
    {
      OtpIsSixDigits(draw);
      otp := DecimalString((100000.0 + draw * 900000.0).Floor);
      verificationOTP := Some(otp);
      verificationOTPExpiry := Some(now + 10 * 60 * 1000);
    }

    /** `generateVerificationOTP` with the expiry written to the field
        `verifyOTP` reads. */
    method GenerateVerificationOtpCorrected(draw: real, now: int) returns (otp: string)
      requires 0.0 <= draw < 1.0
      modifies this
      ensures otp == DecimalString(OtpCode(draw)) && |otp| == 6
      ensures Record() == AfterOtpIssuedCorrected(old(Record()), draw, now)
      ensures verificationOTPExpiry == old(verificationOTPExpiry) && passwordModified == old(passwordModified)
    {
      OtpIsSixDigits(draw);
      otp := DecimalString((100000.0 + draw * 900000.0).Floor);
      verificationOTP := Some(otp);
      verificationExpiry := Some(now + 10 * 60 * 1000);
    }

    method VerifyOtp(otp: Option<string>, now: int) returns (ok: bool)
      modifies this
      ensures (ok, Record()) == VerifyOtpResult(old(Record()), otp, now)
      ensures verificationOTPExpiry == old(verificationOTPExpiry) && passwordModified == old(passwordModified)
    {
      if verificationOTP == otp && verificationExpiry.Some? && verificationExpiry.value > now {
        isVerified := Some(true);
        verificationOTP := None;
        verificationExpiry := None;
        return true;
      }
      return false;
    }

    /** `generateResetToken`; the random raw token is a parameter. */
    method GenerateResetToken(raw: string, now: int, sha256: string -> string) returns (token: string)
      modifies this
      ensures token == raw
      ensures Record() == WithResetToken(old(Record()), raw, now, sha256)
      ensures verificationOTPExpiry == old(verificationOTPExpiry) && passwordModified == old(passwordModified)
    {
      resetToken := Some(sha256(raw));
      resetTokenExpiry := Some(now + 60 * 60 * 1000);
      token := raw;
    }

    method ValidateResetToken(token: string, now: int, sha256: string -> string) returns (ok: bool)
      ensures ok == ResetTokenValid(Record(), token, now, sha256)
    {
      var hashed := sha256(token);
      ok := resetToken == Some(hashed) && resetTokenExpiry.Some? && resetTokenExpiry.value > now;
    }

    method ClearResetToken()
      modifies this
      ensures Record() == WithoutResetToken(old(Record()))
      ensures verificationOTPExpiry == old(verificationOTPExpiry) && passwordModified == old(passwordModified)
    {
      resetToken := None;
      resetTokenExpiry := None;
    }

    /** `user.password = password`. */
    method SetPassword(p: string)
      modifies this
      ensures Record() == old(Record()).(password := Some(p)) && passwordModified
      ensures verificationOTPExpiry == old(verificationOTPExpiry)
    {
      password := Some(p);
      passwordModified := true;
    }

    /** The pre-save hook; returns the record the store then holds. */
    method Save(hash: string -> string) returns (stored: UserRecord)
      modifies this
      ensures stored == Stored(old(Record()), old(passwordModified), hash)
      ensures Record() == stored && !passwordModified
      ensures verificationOTPExpiry == old(verificationOTPExpiry)
    {
      if passwordModified && password.Some? && password.value != "" {
        password := Some(hash(password.value));
      }
      passwordModified := false;
      stored := Record();
    }
  }
}
