/** The profile routes: updating the caller's details and picture from a
    multipart form (app/api/profile/update-user-details/route.ts) and
    removing the picture (app/api/profile/delete-profile-image/route.ts).
    Uploads and remote deletions are outcomes given as parameters; the
    deletions asked of the media host are reported. */
module Profile {
  import opened Common
  import opened UserModel
  import opened Store
  import opened FormData

  // ---------------------------------------------------------------------
  // Splitting and trimming the comma-separated skills

  /** `s.split(",")`: the pieces between commas, at least one. */
  function Split(s: string): (r: seq<string>)
    ensures |r| >= 1
    ensures forall i :: 0 <= i < |r| ==> ',' !in r[i]
    decreases |s|
  {
    if s == [] then [""]
    else
      var rest := Split(s[1..]);
      if s[0] == ',' then [""] + rest
      else [[s[0]] + rest[0]] + rest[1..]
  }

  /** `pieces.join(",")`. */
  function Join(pieces: seq<string>): string
    requires |pieces| >= 1
    decreases |pieces|
  {
    if |pieces| == 1 then pieces[0] else pieces[0] + "," + Join(pieces[1..])
  }

  /** Splitting loses nothing: joining the pieces gives the text back. */
  lemma {:induction false} JoinSplit(s: string)
    ensures Join(Split(s)) == s
    decreases |s|
  {
    if s != [] {
      var rest := Split(s[1..]);
      JoinSplit(s[1..]);
      if s[0] == ',' {
        assert Split(s)[1..] == rest;
        assert s == [s[0]] + s[1..];
      } else {
        var r := Split(s);
        assert r[0] == [s[0]] + rest[0];
        if |rest| == 1 {
          assert r == [[s[0]] + rest[0]];
        } else {
          assert r[1..] == rest[1..];
          assert Join(rest) == rest[0] + "," + Join(rest[1..]);
        }
      }
    }
  }

  /** `s.trim()`: white space removed from both ends. */
  function TrimStart(s: string): (r: string)
    ensures r == [] || !IsJsSpace(r[0])
    ensures |r| <= |s| && r == s[|s| - |r|..]
    decreases |s|
  {
    if s != [] && IsJsSpace(s[0]) then TrimStart(s[1..]) else s
  }

  function TrimEnd(s: string): (r: string)
    ensures r == [] || !IsJsSpace(r[|r| - 1])
    ensures |r| <= |s| && r == s[..|r|]
    decreases |s|
  {
    if s != [] && IsJsSpace(s[|s| - 1]) then TrimEnd(s[..|s| - 1]) else s
  }

  function Trim(s: string): (r: string)
    ensures r == [] || (!IsJsSpace(r[0]) && !IsJsSpace(r[|r| - 1]))
    ensures |r| <= |s|
  {
    var t := TrimStart(s);
    var r := TrimEnd(t);
    assert r != [] ==> r[0] == t[0];
    r
  }

  lemma {:induction false} TrimIdempotent(s: string)
    ensures Trim(Trim(s)) == Trim(s)
  {
    var r := Trim(s);
    assert TrimStart(r) == r;
    assert TrimEnd(r) == r;
  }

  // ---------------------------------------------------------------------
  // The profile schema

  /** The text fields of the form; `None` is a field not sent. */
  datatype ProfileForm = ProfileForm(bio: Option<string>, skills: Option<string>, location: Option<string>, socials: Option<string>)

  /** A value of the update. */
  datatype Value = Text(text: string) | List(items: seq<string>)

  function Trimmed(pieces: seq<string>): (r: seq<string>)
    ensures |r| == |pieces| && forall i :: 0 <= i < |r| ==> r[i] == Trim(pieces[i])
  {
    seq(|pieces|, i requires 0 <= i < |pieces| => Trim(pieces[i]))
  }

  predicate NoEmptyItem(xs: seq<string>) {
    forall i :: 0 <= i < |xs| ==> xs[i] != ""
  }

  /** `skills` after parsing and the schema (`None` fails it): a non-empty
      text is read as JSON, or failing that split on commas with each piece
      trimmed; the result must be an array of non-empty strings.  An empty
      text is not parsed and is not an array. */
  function SkillsField(raw: Option<string>, parse: string -> JsonList): (r: Option<Option<seq<string>>>)
    ensures raw.None? ==> r == Some(None)
    ensures raw == Some("") ==> r.None?
    ensures Present(raw) && parse(raw.value).StringArray? ==>
              r == (if NoEmptyItem(parse(raw.value).items) then Some(Some(parse(raw.value).items)) else None)
    ensures Present(raw) && parse(raw.value) == SyntaxError ==>
              r == (if NoEmptyItem(Trimmed(Split(raw.value))) then Some(Some(Trimmed(Split(raw.value)))) else None)
    ensures Present(raw) && parse(raw.value) == OtherValue ==> r.None?
  {
    if raw.None? then Some(None)
    else if raw.value == "" then None
    else
      var items := match parse(raw.value)
        case StringArray(xs) => Some(xs)
        case SyntaxError => Some(Trimmed(Split(raw.value)))
        case OtherValue => None;
      if items.Some? && NoEmptyItem(items.value) then Some(items) else None
  }

  /** `profileSchema.safeParse(body)`: the keys it lets through and their
      values.  A form value is text, so a sent `socials` is never the
      object the schema wants. */
  function ProfileValidation(f: ProfileForm, parse: string -> JsonList): (r: Option<map<string, Value>>)
    ensures r.Some? <==>
              && (f.bio.Some? ==> 10 <= |f.bio.value| <= 300)
              && (f.location.Some? ==> |f.location.value| <= 50)
              && SkillsField(f.skills, parse).Some?
              && f.socials.None?
    ensures r.Some? ==> r.value.Keys <= {"bio", "skills", "location"}
    ensures r.Some? ==> ("bio" in r.value <==> f.bio.Some?) && (f.bio.Some? ==> r.value["bio"] == Text(f.bio.value))
    ensures r.Some? ==> ("location" in r.value <==> f.location.Some?) &&
                        (f.location.Some? ==> r.value["location"] == Text(f.location.value))
    ensures r.Some? ==> ("skills" in r.value <==> SkillsField(f.skills, parse).value.Some?) &&
                        (SkillsField(f.skills, parse).value.Some? ==> r.value["skills"] == List(SkillsField(f.skills, parse).value.value))
  {
    var skills := SkillsField(f.skills, parse);
    if && (f.bio.Some? ==> 10 <= |f.bio.value| <= 300)
       && (f.location.Some? ==> |f.location.value| <= 50)
       && skills.Some? && f.socials.None?
    then
      var m1: map<string, Value> := if f.bio.Some? then map["bio" := Text(f.bio.value)] else map[];
      var m2 := if skills.value.Some? then m1["skills" := List(skills.value.value)] else m1;
      var m3 := if f.location.Some? then m2["location" := Text(f.location.value)] else m2;
      Some(m3)
    else None
  }

  // ---------------------------------------------------------------------
  // Stripping empty values and applying the update

  predicate IsEmpty(v: Value) {
    v == Text("") || v == List([])
  }

  /** The update with every empty string and empty array removed. */
  function NonEmpty(data: map<string, Value>): (r: map<string, Value>)
    ensures forall k :: k in r ==> k in data && r[k] == data[k] && !IsEmpty(r[k])
    ensures forall k :: k in data && !IsEmpty(data[k]) ==> k in r
  {
    map k | k in data && !IsEmpty(data[k]) :: data[k]
  }

  /** The clean-up loop over the update's keys. */
  method StripEmpty(data: map<string, Value>) returns (r: map<string, Value>)
    ensures r == NonEmpty(data)
  {
    r := data;
    var keys := data.Keys;
    while keys != {}
      invariant keys <= data.Keys
      invariant forall k :: k in r <==> k in data && (k in keys || !IsEmpty(data[k]))
      invariant forall k :: k in r ==> r[k] == data[k]
      decreases keys
    {
      var k :| k in keys;
      if IsEmpty(r[k]) {
        r := r - {k};
      }
      keys := keys - {k};
    }
    assert r.Keys == NonEmpty(data).Keys;
  }

  function TextOr(data: map<string, Value>, key: string, current: Option<string>): Option<string> {
    if key in data && data[key].Text? then Some(data[key].text) else current
  }

  /** `$set`: each field named in the update takes its value; every other
      field keeps its own. */
  function Apply(u: UserRecord, data: map<string, Value>): (r: UserRecord)
    ensures r.name == u.name && r.email == u.email && r.password == u.password
    ensures r.projects == u.projects && r.friends == u.friends && r.isVerified == u.isVerified
    ensures "bio" !in data ==> r.bio == u.bio
    ensures "location" !in data ==> r.location == u.location
    ensures "skills" !in data ==> r.skills == u.skills
    ensures "profileImage" !in data ==> r.profileImage == u.profileImage
    ensures "profileImagePublicId" !in data ==> r.profileImagePublicId == u.profileImagePublicId
    ensures data == map[] ==> r == u
  {
    u.(bio := TextOr(data, "bio", u.bio),
       location := TextOr(data, "location", u.location),
       skills := if "skills" in data && data["skills"].List? then data["skills"].items else u.skills,
       profileImage := TextOr(data, "profileImage", u.profileImage),
       profileImagePublicId := TextOr(data, "profileImagePublicId", u.profileImagePublicId))
  }

  /** An empty value in the form never overwrites what is stored. */
  lemma EmptyValuesKeepFields(u: UserRecord, data: map<string, Value>)
    ensures "location" in data && data["location"] == Text("") ==> Apply(u, NonEmpty(data)).location == u.location
    ensures "skills" in data && data["skills"] == List([]) ==> Apply(u, NonEmpty(data)).skills == u.skills
    ensures "bio" in data && data["bio"] == Text("") ==> Apply(u, NonEmpty(data)).bio == u.bio
  {
  }

  // ---------------------------------------------------------------------
  // The routes

  // The picture step's refusals.
  const TooManyPictures := "Only one profile image allowed"
  const BadPictureType := "Invalid image type. Allowed types: JPEG, PNG, WebP"

  /** The outcome of the `profileImage` entries: refused with a status
      and message, or accepted with the uploaded picture, if a file was
      sent. */
  datatype PictureStep = Refused(status: int, message: string) | Accepted(picture: Option<Upload>)

  function PictureStepOf(images: seq<Entry>): (r: PictureStep)
    ensures |images| > 1 ==> r == Refused(400, TooManyPictures)
    ensures |images| == 0 || (|images| == 1 && images[0].TextEntry?) ==> r == Accepted(None)
    ensures |images| == 1 && images[0].FileEntry? ==>
              var file := images[0];
              && (file.mime !in ImageTypes ==> r == Refused(400, BadPictureType))
              && (file.mime in ImageTypes && file.size > MaxImageSize ==> r == Refused(400, "Image size exceeds 5MB"))
              && (file.mime in ImageTypes && file.size <= MaxImageSize ==>
                    r == (if file.outcome.UploadThrew? then Refused(500, "Failed to update profile") else Accepted(Some(file.outcome.upload))))
  {
    if |images| > 1 then Refused(400, TooManyPictures)
    else if |images| == 0 || images[0].TextEntry? then Accepted(None)
    else if images[0].mime !in ImageTypes then Refused(400, BadPictureType)
    else if images[0].size > MaxImageSize then Refused(400, "Image size exceeds 5MB")
    else if images[0].outcome.UploadThrew? then Refused(500, "Failed to update profile")
    else Accepted(Some(images[0].outcome.upload))
  }

  /** The update with the uploaded picture's URL and public id added. */
  function WithPicture(data: map<string, Value>, picture: Option<Upload>): (r: map<string, Value>)
    ensures picture.None? ==> r == data
    ensures picture.Some? ==> r == data["profileImage" := Text(picture.value.url)]["profileImagePublicId" := Text(picture.value.publicId)]
  {
    if picture.Some? then data["profileImage" := Text(picture.value.url)]["profileImagePublicId" := Text(picture.value.publicId)]
    else data
  }

  /** A new picture replaces the old one in the store, and the old one is
      the one whose deletion is asked for. */
  lemma NewPictureReplacesOld(u: UserRecord, data: map<string, Value>, picture: Upload)
    requires picture.url != "" && picture.publicId != ""
    ensures Apply(u, NonEmpty(WithPicture(data, Some(picture)))).profileImage == Some(picture.url)
    ensures Apply(u, NonEmpty(WithPicture(data, Some(picture)))).profileImagePublicId == Some(picture.publicId)
    ensures "profileImage" in NonEmpty(WithPicture(data, Some(picture)))
  {
  }

  /** The update as the strict user schema casts it: only declared paths
      are kept, with their values. */
  function Strict(data: map<string, Value>): (r: map<string, Value>)
    ensures forall k :: k in r <==> k in data && k in UserPaths
    ensures forall k :: k in r ==> r[k] == data[k]
  {
    map k | k in data && k in UserPaths :: data[k]
  }

  /** `user.profileImagePublicId` on a loaded document: the path is not
      declared, so it reads as `undefined` whatever is stored. */
  function PublicIdRead(u: UserRecord): (r: Option<string>)
    ensures r.None?
  {
    if "profileImagePublicId" in UserPaths then u.profileImagePublicId else None
  }

  /** As written, a new picture's URL is stored but its public id is cast
      away, so the stored id never changes. */
  lemma PublicIdNeverStored(u: UserRecord, data: map<string, Value>, picture: Upload)
    requires picture.url != "" && picture.publicId != ""
    ensures Apply(u, Strict(NonEmpty(WithPicture(data, Some(picture))))).profileImage == Some(picture.url)
    ensures Apply(u, Strict(NonEmpty(WithPicture(data, Some(picture))))).profileImagePublicId == u.profileImagePublicId
  {
  }

  /** PUT /api/profile/update-user-details as written.  `images` are the
      form's `profileImage` entries.  The update goes through the strict
      schema, which drops the picture's public id; and since the old id
      reads as `undefined`, no old picture is ever deleted (`deletedOld`
      is the deletion asked of the media host). */
  method UpdateProfile(db: Database, email: Option<string>, f: ProfileForm, images: seq<Entry>, parse: string -> JsonList)
    returns (r: Response<UserRecord>, deletedOld: Option<string>)
    requires db.Valid()
    modifies db
    ensures db.Valid()
    ensures db.conversations == old(db.conversations) && db.messages == old(db.messages)
    ensures db.requests == old(db.requests) && db.projects == old(db.projects)
    ensures deletedOld.None?
    ensures !Present(email) ==> r == Err(401, "Unauthorized")
    ensures Present(email) && !HasEmail(old(db.users), email.value) ==> r == Err(404, "User not found")
    ensures Present(email) && HasEmail(old(db.users), email.value) && ProfileValidation(f, parse).None? ==>
              r == Err(400, "Invalid input")
    ensures Present(email) && HasEmail(old(db.users), email.value) && ProfileValidation(f, parse).Some? &&
            PictureStepOf(images).Refused? ==>
              r == Err(PictureStepOf(images).status, PictureStepOf(images).message)
    ensures r.Err? ==> db.users == old(db.users)
    ensures r.Ok? <==> Present(email) && HasEmail(old(db.users), email.value) &&
                       ProfileValidation(f, parse).Some? && PictureStepOf(images).Accepted?
    ensures r.Ok? ==>
              var id := FindByEmail(old(db.users), email.value);
              var u := old(db.users)[id];
              var picture := PictureStepOf(images).picture;
              var update := Strict(NonEmpty(WithPicture(ProfileValidation(f, parse).value, picture)));
              && r == Ok(200, Apply(u, update))
              && r.body.profileImagePublicId == u.profileImagePublicId
              && db.users == old(db.users)[id := r.body]
  {
    if !Present(email) {
      return Err(401, "Unauthorized"), None;
    }
    if !HasEmail(db.users, email.value) {
      return Err(404, "User not found"), None;
    }
    var id :| id in db.users && db.users[id].email == email.value;
    assert id == FindByEmail(db.users, email.value);
    var u := db.users[id];
    var validation := ProfileValidation(f, parse);
    if validation.None? {
      return Err(400, "Invalid input"), None;
    }
    var step := PictureStepOf(images);
    if step.Refused? {
      return Err(step.status, step.message), None;
    }
    var oldImagePublicId := PublicIdRead(u);
    var stripped := StripEmpty(WithPicture(validation.value, step.picture));
    UndeclaredPaths();
    var update := Strict(stripped);
    assert "profileImagePublicId" !in update;
    var updated := Apply(u, update);
    SameEmailKeepsUnique(db.users, id, updated);
    db.users := db.users[id := updated];
    deletedOld := oldImagePublicId;
    return Ok(200, updated), deletedOld;
  }

  /** The same route with `profileImagePublicId` declared.  `deletedOld`
      is the old picture whose removal is asked of the media host: only
      after the update, only when a new picture was stored, and its
      failure is ignored. */
  method UpdateProfileCorrected(db: Database, email: Option<string>, f: ProfileForm, images: seq<Entry>, parse: string -> JsonList)
    returns (r: Response<UserRecord>, deletedOld: Option<string>)
    requires db.Valid()
    modifies db
    ensures db.Valid()
    ensures db.conversations == old(db.conversations) && db.messages == old(db.messages)
    ensures db.requests == old(db.requests) && db.projects == old(db.projects)
    ensures !Present(email) ==> r == Err(401, "Unauthorized")
    ensures Present(email) && !HasEmail(old(db.users), email.value) ==> r == Err(404, "User not found")
    ensures Present(email) && HasEmail(old(db.users), email.value) && ProfileValidation(f, parse).None? ==>
              r == Err(400, "Invalid input")
    ensures Present(email) && HasEmail(old(db.users), email.value) && ProfileValidation(f, parse).Some? &&
            PictureStepOf(images).Refused? ==>
              r == Err(PictureStepOf(images).status, PictureStepOf(images).message)
    ensures r.Err? ==> db.users == old(db.users) && deletedOld.None?
    ensures r.Ok? <==> Present(email) && HasEmail(old(db.users), email.value) &&
                       ProfileValidation(f, parse).Some? && PictureStepOf(images).Accepted?
    ensures r.Ok? && Present(email) && HasEmail(old(db.users), email.value) &&
            ProfileValidation(f, parse).Some? && PictureStepOf(images).Accepted? ==>
              var id := FindByEmail(old(db.users), email.value);
              var u := old(db.users)[id];
              var picture := PictureStepOf(images).picture;
              var update := NonEmpty(WithPicture(ProfileValidation(f, parse).value, picture));
              && r == Ok(200, Apply(u, update))
              && db.users == old(db.users)[id := r.body]
              && deletedOld == (if picture.Some? && Present(u.profileImagePublicId) && "profileImage" in update
                                then u.profileImagePublicId else None)
  {
    if !Present(email) {
      return Err(401, "Unauthorized"), None;
    }
    if !HasEmail(db.users, email.value) {
      return Err(404, "User not found"), None;
    }
    var id :| id in db.users && db.users[id].email == email.value;
    assert id == FindByEmail(db.users, email.value);
    var u := db.users[id];
    var validation := ProfileValidation(f, parse);
    if validation.None? {
      return Err(400, "Invalid input"), None;
    }
    var step := PictureStepOf(images);
    if step.Refused? {
      return Err(step.status, step.message), None;
    }
    var oldImagePublicId: Option<string> := None;
    if step.picture.Some? && Present(u.profileImagePublicId) {
      oldImagePublicId := u.profileImagePublicId;
    }
    var stripped := StripEmpty(WithPicture(validation.value, step.picture));
    var updated := Apply(u, stripped);
    SameEmailKeepsUnique(db.users, id, updated);
    db.users := db.users[id := updated];
    deletedOld := None;
    if oldImagePublicId.Some? && "profileImage" in stripped {
      deletedOld := oldImagePublicId;
    }
    return Ok(200, updated), deletedOld;
  }

  /** The document steps of the picture deletion: load the user, null both
      picture fields and save.  The password is untouched, so the pre-save
      hook changes nothing else. */
  method ClearPicture(r: UserRecord, hash: string -> string) returns (stored: UserRecord)
    ensures stored == r.(profileImage := None, profileImagePublicId := None)
  {
    var user := new UserDoc.Load(r);
    user.profileImage := None;
    user.profileImagePublicId := None;
    stored := user.Save(hash);
  }

  const NoPictureToDelete := "No profile image to delete"

  /** DELETE /api/profile/delete-profile-image as written.  `email` is the
      session's (absent without a session).  The guard reads the picture's
      public id, which is not a declared path and so reads as `undefined`:
      every user who is found is refused, and nothing is deleted. */
  method DeleteProfileImage(db: Database, email: Option<string>)
    returns (r: Response<()>, deleted: Option<string>)
    requires db.Valid()
    modifies db
    ensures unchanged(db) && deleted.None?
    ensures email.None? ==> r == Err(401, "Unauthorized")
    ensures email.Some? && !HasEmail(old(db.users), email.value) ==> r == Err(404, "User not found")
    ensures email.Some? && HasEmail(old(db.users), email.value) ==> r == Err(404, NoPictureToDelete)
  {
    if email.None? {
      return Err(401, "Unauthorized"), None;
    }
    if !HasEmail(db.users, email.value) {
      return Err(404, "User not found"), None;
    }
    var id :| id in db.users && db.users[id].email == email.value;
    var u := db.users[id];
    var publicId := PublicIdRead(u);
    if !Present(u.profileImage) || !Present(publicId) {
      return Err(404, NoPictureToDelete), None;
    }
    assert false;
  }

  /** The same route with `profileImagePublicId` declared.  `remoteOk` is
      whether the media host's deletion succeeds.  The remote picture goes
      first, and the stored fields are cleared only after it is gone. */
  method DeleteProfileImageCorrected(db: Database, email: Option<string>, remoteOk: bool, hash: string -> string)
    returns (r: Response<()>, deleted: Option<string>)
    requires db.Valid()
    modifies db
    ensures db.Valid()
    ensures db.conversations == old(db.conversations) && db.messages == old(db.messages)
    ensures db.requests == old(db.requests) && db.projects == old(db.projects)
    ensures email.None? ==> r == Err(401, "Unauthorized") && deleted.None? && db.users == old(db.users)
    ensures email.Some? && !HasEmail(old(db.users), email.value) ==>
              r == Err(404, "User not found") && deleted.None? && db.users == old(db.users)
    ensures email.Some? && HasEmail(old(db.users), email.value) ==>
              var id := FindByEmail(old(db.users), email.value);
              var u := old(db.users)[id];
              var cleared := u.(profileImage := None, profileImagePublicId := None);
              if !Present(u.profileImage) || !Present(u.profileImagePublicId) then
                r == Err(404, NoPictureToDelete) && deleted.None? && db.users == old(db.users)
              else
                && deleted == u.profileImagePublicId
                && (remoteOk && UserValid(cleared) ==> r == Ok(200, ()) && db.users == old(db.users)[id := cleared])
                && (!(remoteOk && UserValid(cleared)) ==> r == Err(400, "Error to delete pfp") && db.users == old(db.users))
  {
    if email.None? {
      return Err(401, "Unauthorized"), None;
    }
    if !HasEmail(db.users, email.value) {
      return Err(404, "User not found"), None;
    }
    var id :| id in db.users && db.users[id].email == email.value;
    assert id == FindByEmail(db.users, email.value);
    var u := db.users[id];
    if !Present(u.profileImage) || !Present(u.profileImagePublicId) {
      return Err(404, NoPictureToDelete), None;
    }
    deleted := u.profileImagePublicId;
    if !remoteOk {
      return Err(400, "Error to delete pfp"), deleted;
    }
    var stored := ClearPicture(u, hash);
    if !UserValid(stored) {
      return Err(400, "Error to delete pfp"), deleted;
    }
    SameEmailKeepsUnique(db.users, id, stored);
    db.users := db.users[id := stored];
    return Ok(200, ()), deleted;
  }
}
