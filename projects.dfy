/** The project routes: creating a project from a multipart form
    (app/api/projects/create-project/route.ts), with its field parsing,
    schema checks and media limits, and listing the caller's projects
    (app/api/projects/get-all-projects/route.ts).  Uploads, `JSON.parse`
    and the URL format are parameters. */
module Projects {
  import opened Common
  import opened UserModel
  import opened ProjectModel
  import opened Store
  import opened FormData

  // ---------------------------------------------------------------------
  // Form fields and the base schema

  /** The text fields of the form; `None` is a field not sent. */
  datatype Form = Form(
    title: Option<string>,
    description: Option<string>,
    tags: Option<string>,
    techStack: Option<string>,
    githubUrl: Option<string>,
    liveUrl: Option<string>,
    isCollabrating: Option<string>,
    status: Option<string>)

  /** `tags` / `techStack` after the parsing loop and the schema's
      `z.array(z.string()).optional()`: `None` fails the schema,
      `Some(None)` is an absent field.  A non-empty text is parsed, and
      unparsable text becomes `[]`; an empty text is not parsed and is not
      an array. */
  function ListField(raw: Option<string>, parse: string -> JsonList): (r: Option<Option<seq<string>>>)
    ensures raw.None? ==> r == Some(None)
    ensures raw == Some("") ==> r.None?
    ensures Present(raw) && parse(raw.value) == SyntaxError ==> r == Some(Some([]))
    ensures Present(raw) && parse(raw.value).StringArray? ==> r == Some(Some(parse(raw.value).items))
    ensures Present(raw) && parse(raw.value) == OtherValue ==> r.None?
  {
    if raw.None? then Some(None)
    else if raw.value == "" then None
    else match parse(raw.value)
      case StringArray(items) => Some(Some(items))
      case SyntaxError => Some(Some([]))
      case OtherValue => None
  }

  /** The fields the base schema lets through (unknown keys are dropped). */
  datatype ProjectInput = ProjectInput(
    title: string,
    description: string,
    tags: Option<seq<string>>,
    techStack: Option<seq<string>>,
    githubUrl: Option<string>,
    liveUrl: Option<string>,
    status: Option<ProjectStatus>)

  predicate OptionalUrl(s: Option<string>, isUrl: string -> bool) {
    s.None? || isUrl(s.value)
  }

  /** `status`: one of the two enum texts, when sent. */
  function StatusField(raw: Option<string>): (r: Option<Option<ProjectStatus>>)
    ensures r.Some? <==> raw.None? || raw == Some("draft") || raw == Some("published")
  {
    if raw.None? then Some(None)
    else if raw.value == "draft" then Some(Some(Draft))
    else if raw.value == "published" then Some(Some(Published))
    else None
  }

  /** `projectSchema.omit({ media: true }).safeParse(body)`.  A form value
      is always text, so a sent `isCollabrating` is never the boolean the
      schema wants. */
  function BaseValidation(f: Form, parse: string -> JsonList, isUrl: string -> bool): (r: Option<ProjectInput>)
    ensures r.Some? <==>
              && f.title.Some? && TitleMin <= |f.title.value| <= TitleMax
              && f.description.Some? && DescriptionMin <= |f.description.value| <= DescriptionMax
              && ListField(f.tags, parse).Some? && ListField(f.techStack, parse).Some?
              && OptionalUrl(f.githubUrl, isUrl) && OptionalUrl(f.liveUrl, isUrl)
              && f.isCollabrating.None?
              && StatusField(f.status).Some?
    ensures r.Some? ==>
              && r.value.title == f.title.value && r.value.description == f.description.value
              && r.value.githubUrl == f.githubUrl && r.value.liveUrl == f.liveUrl
              && r.value.tags == ListField(f.tags, parse).value
              && r.value.techStack == ListField(f.techStack, parse).value
              && r.value.status == StatusField(f.status).value
  {
    var tags := ListField(f.tags, parse);
    var techStack := ListField(f.techStack, parse);
    var status := StatusField(f.status);
    if && f.title.Some? && TitleMin <= |f.title.value| <= TitleMax
       && f.description.Some? && DescriptionMin <= |f.description.value| <= DescriptionMax
       && tags.Some? && techStack.Some?
       && OptionalUrl(f.githubUrl, isUrl) && OptionalUrl(f.liveUrl, isUrl)
       && f.isCollabrating.None? && status.Some?
    then Some(ProjectInput(f.title.value, f.description.value, tags.value, techStack.value, f.githubUrl, f.liveUrl, status.value))
    else None
  }

  // ---------------------------------------------------------------------
  // Media

  const MaxImages := 10
  const MaxVideoSize := 50 * 1024 * 1024
  const VideoTypes: seq<string> := ["video/mp4", "video/webm", "video/quicktime"]

  /** The checks made on an image before anything is uploaded. */
  function ImageProblem(e: Entry): (r: Option<string>)
    ensures e.TextEntry? ==> r.None?
    ensures e.FileEntry? && e.mime !in ImageTypes ==> r == Some("Invalid image type: " + e.mime)
    ensures e.FileEntry? && e.mime in ImageTypes && e.size > MaxImageSize ==> r == Some("Image size exceeds 5MB")
    ensures e.FileEntry? && e.mime in ImageTypes && e.size <= MaxImageSize ==> r.None?
  {
    if e.TextEntry? then None
    else if e.mime !in ImageTypes then Some("Invalid image type: " + e.mime)
    else if e.size > MaxImageSize then Some("Image size exceeds 5MB")
    else None
  }

  /** The first entry, in form order, that fails the checks.  These fail
      before any upload has had time to finish, so theirs is the message
      `Promise.all` reports. */
  function FirstProblem(es: seq<Entry>): (r: Option<string>)
    ensures r.None? <==> forall i :: 0 <= i < |es| ==> ImageProblem(es[i]).None?
    ensures r.Some? ==> exists i :: 0 <= i < |es| && ImageProblem(es[i]) == r
  {
    if es == [] then None
    else if ImageProblem(es[0]).Some? then ImageProblem(es[0])
    else
      var r := FirstProblem(es[1..]);
      assert forall i :: 1 <= i < |es| ==> es[i] == es[1..][i - 1];
      r
  }

  /** The files among the entries, in order; text entries are dropped. */
  function Files(es: seq<Entry>): (r: seq<Entry>)
    ensures |r| <= |es|
    ensures forall i :: 0 <= i < |r| ==> r[i].FileEntry? && r[i] in es
    ensures forall e :: e in es && e.FileEntry? ==> e in r
  {
    if es == [] then []
    else (if es[0].FileEntry? then [es[0]] else []) + Files(es[1..])
  }

  /** All uploads of `files`, or the message of the first that throws. */
  function UploadAll(files: seq<Entry>): (r: Result<seq<Upload>>)
    requires forall i :: 0 <= i < |files| ==> files[i].FileEntry?
    ensures r.Success? <==> forall i :: 0 <= i < |files| ==> files[i].outcome.Uploaded?
    ensures r.Success? ==> |r.value| == |files| && forall i :: 0 <= i < |files| ==> r.value[i] == files[i].outcome.upload
  {
    if files == [] then Success([])
    else match files[0].outcome
      case UploadThrew(m) => Failure(if m.Some? then m.value else "Image upload failed")
      case Uploaded(u) =>
        match UploadAll(files[1..])
        case Failure(m) => Failure(m)
        case Success(us) => Success([u] + us)
  }

  datatype Result<T> = Success(value: T) | Failure(message: string)

  /** The `images` entries: too many is refused before anything else; a
      failed check, then a failed upload, refuses the lot; otherwise every
      file is uploaded, in form order. */
  function ImageUploads(es: seq<Entry>): (r: Result<seq<Upload>>)
    ensures |es| > MaxImages ==> r == Failure("Maximum 10 images allowed")
    ensures |es| <= MaxImages && FirstProblem(es).Some? ==> r == Failure(FirstProblem(es).value)
    ensures r.Success? ==>
              && |es| <= MaxImages
              && (forall i :: 0 <= i < |es| && es[i].FileEntry? ==> es[i].mime in ImageTypes && es[i].size <= MaxImageSize)
              && r == UploadAll(Files(es))
              && |r.value| <= MaxImages
  {
    if |es| > MaxImages then Failure("Maximum 10 images allowed")
    else if FirstProblem(es).Some? then Failure(FirstProblem(es).value)
    else
      assert forall i :: 0 <= i < |es| ==> ImageProblem(es[i]).None?;
      UploadAll(Files(es))
  }

  /** The `video` entry: a file's type is checked before its size, then it
      is uploaded; anything that is not a file is ignored. */
  function VideoUpload(v: Option<Entry>): (r: Result<Option<Upload>>)
    ensures v.None? || v.value.TextEntry? ==> r == Success(None)
    ensures v.Some? && v.value.FileEntry? && v.value.mime !in VideoTypes ==> r == Failure("Invalid video type: " + v.value.mime)
    ensures v.Some? && v.value.FileEntry? && v.value.mime in VideoTypes && v.value.size > MaxVideoSize ==>
              r == Failure("Video size exceeds 50MB")
    ensures r.Success? && r.value.Some? ==>
              && v.Some? && v.value.FileEntry? && v.value.mime in VideoTypes && v.value.size <= MaxVideoSize
              && v.value.outcome == Uploaded(r.value.value)
  {
    if v.None? || v.value.TextEntry? then Success(None)
    else if v.value.mime !in VideoTypes then Failure("Invalid video type: " + v.value.mime)
    else if v.value.size > MaxVideoSize then Failure("Video size exceeds 50MB")
    else match v.value.outcome
      case UploadThrew(_) => Failure("Video upload failed")
      case Uploaded(u) => Success(Some(u))
  }

  /** The final schema check of the media: every uploaded URL must be a
      URL. */
  predicate MediaUrlsValid(images: seq<Upload>, video: Option<Upload>, isUrl: string -> bool) {
    (forall i :: 0 <= i < |images| ==> isUrl(images[i].url)) && (video.Some? ==> isUrl(video.value.url))
  }

  /** As written, the route hands the store `media.images` as
      `{ url, publicId }` objects and `media.video` as an object, while the
      schema has `media.images: [String]` and `media.videoUrl`.  The image
      objects cannot be cast, so the insert throws; the unknown `video`
      path is silently dropped. */
  datatype Cast = CastFailed | Cast(media: Option<Media>)

  function MediaAsWritten(images: seq<Upload>, video: Option<Upload>): (r: Cast)
    ensures |images| > 0 ==> r == CastFailed
    ensures |images| == 0 && video.Some? ==> r == Cast(Some(Media(None, [])))
    ensures |images| == 0 && video.None? ==> r == Cast(None)
  {
    if |images| > 0 then CastFailed
    else if video.Some? then Cast(Some(Media(None, [])))
    else Cast(None)
  }

  /** Of everything uploaded, the code as written stores nothing: a
      project with images is never created, and a video's URL is lost. */
  lemma MediaAsWrittenLosesUploads(images: seq<Upload>, video: Option<Upload>)
    requires |images| > 0 || video.Some?
    ensures MediaAsWritten(images, video) == CastFailed ||
            (MediaAsWritten(images, video).media.Some? && MediaAsWritten(images, video).media.value.videoUrl.None? &&
             MediaAsWritten(images, video).media.value.images == [])
  {
  }

  /** The evidently intended media: the image URLs in upload order and the
      video's URL, in the schema's own shape; no media when nothing was
      uploaded. */
  function StoredMedia(images: seq<Upload>, video: Option<Upload>): (r: Option<Media>)
    ensures r.None? <==> |images| == 0 && video.None?
    ensures r.Some? ==> |r.value.images| == |images| && forall i :: 0 <= i < |images| ==> r.value.images[i] == images[i].url
    ensures r.Some? ==> r.value.videoUrl == (if video.Some? then Some(video.value.url) else None)
  {
    if |images| == 0 && video.None? then None
    else Some(Media(if video.Some? then Some(video.value.url) else None, seq(|images|, i requires 0 <= i < |images| => images[i].url)))
  }

  /** With the correction every uploaded URL is kept. */
  lemma StoredMediaKeepsUploads(images: seq<Upload>, video: Option<Upload>)
    requires |images| > 0 || video.Some?
    ensures StoredMedia(images, video).Some?
    ensures forall u :: u in images ==> u.url in StoredMedia(images, video).value.images
    ensures video.Some? ==> StoredMedia(images, video).value.videoUrl == Some(video.value.url)
  {
    var m := StoredMedia(images, video).value;
    forall u | u in images ensures u.url in m.images {
      var i :| 0 <= i < |images| && images[i] == u;
      assert m.images[i] == u.url;
    }
  }

  // ---------------------------------------------------------------------
  // The routes

  /** The message of a failed store-side validation (the failing paths
      that follow it are left out). */
  function ValidationFailed(model: string): string {
    model + " validation failed"
  }

  /** The route's checks between finding the owner and writing to the
      store: a 400 refusal with its message, or the validated fields with
      the uploads they go out with. */
  datatype Prepared = Refusal(message: string) | Accepted(input: ProjectInput, images: seq<Upload>, video: Option<Upload>)

  function Prepare(f: Form, images: seq<Entry>, video: Option<Entry>, parse: string -> JsonList,
                   isUrl: string -> bool): (d: Prepared)
    ensures BaseValidation(f, parse, isUrl).None? ==> d == Refusal("Invalid input")
    ensures BaseValidation(f, parse, isUrl).Some? && ImageUploads(images).Failure? ==>
              d == Refusal(ImageUploads(images).message)
    ensures BaseValidation(f, parse, isUrl).Some? && ImageUploads(images).Success? && VideoUpload(video).Failure? ==>
              d == Refusal(VideoUpload(video).message)
    ensures BaseValidation(f, parse, isUrl).Some? && ImageUploads(images).Success? && VideoUpload(video).Success? &&
            !MediaUrlsValid(ImageUploads(images).value, VideoUpload(video).value, isUrl) ==>
              d == Refusal("Invalid media input")
    ensures d.Accepted? ==>
              && BaseValidation(f, parse, isUrl) == Some(d.input)
              && ImageUploads(images) == Success(d.images)
              && VideoUpload(video) == Success(d.video)
              && MediaUrlsValid(d.images, d.video, isUrl)
  {
    var base := BaseValidation(f, parse, isUrl);
    if base.None? then Refusal("Invalid input")
    else
      var imageResult := ImageUploads(images);
      if imageResult.Failure? then Refusal(imageResult.message)
      else
        var videoResult := VideoUpload(video);
        if videoResult.Failure? then Refusal(videoResult.message)
        else if !MediaUrlsValid(imageResult.value, videoResult.value, isUrl) then Refusal("Invalid media input")
        else Accepted(base.value, imageResult.value, videoResult.value)
  }

  /** The document `Project.create` builds from the validated fields, the
      owner and the media as the store holds it. */
  function Built(input: ProjectInput, owner: Id, media: Option<Media>, now: int): Project {
    NewProject(input.title, input.description, owner,
               if input.tags.Some? then input.tags.value else [],
               if input.techStack.Some? then input.techStack.value else [],
               input.githubUrl, input.liveUrl, media, input.status, now)
  }

  /** `Project.create(p)`, then the owner's `projects.push` and `save`:
      a document that fails validation throws, and a project stays stored
      when only the owner's save fails. */
  method Insert(db: Database, owner: Id, p: Project, newId: Id) returns (r: Response<Id>)
    requires db.Valid() && newId !in db.projects && owner in db.users
    modifies db
    ensures db.Valid()
    ensures db.conversations == old(db.conversations) && db.messages == old(db.messages) && db.requests == old(db.requests)
    ensures !ProjectValid(p) ==>
              r == Err(500, ValidationFailed("Project")) && db.projects == old(db.projects) && db.users == old(db.users)
    ensures ProjectValid(p) ==>
              var u := old(db.users)[owner].(projects := old(db.users)[owner].projects + [newId]);
              && db.projects == old(db.projects)[newId := p]
              && (UserValid(u) ==> r == Ok(201, newId) && db.users == old(db.users)[owner := u])
              && (!UserValid(u) ==> r == Err(500, ValidationFailed("User")) && db.users == old(db.users))
  {
    if !ProjectValid(p) {
      return Err(500, ValidationFailed("Project"));
    }
    db.projects := db.projects[newId := p];
    var u := db.users[owner].(projects := db.users[owner].projects + [newId]);
    if !UserValid(u) {
      return Err(500, ValidationFailed("User"));
    }
    SameEmailKeepsUnique(db.users, owner, u);
    db.users := db.users[owner := u];
    return Ok(201, newId);
  }

  /** POST /api/projects/create-project as written.  The session's e-mail
      identifies the caller.  The media goes to the store in the route's
      own shape (`MediaAsWritten`): with any image the insert throws and the
      answer is 500 with nothing stored; a lone video is stored without
      its URL. */
  method CreateProject(db: Database, email: Option<string>, f: Form, images: seq<Entry>, video: Option<Entry>,
                       parse: string -> JsonList, isUrl: string -> bool, now: int, newId: Id)
    returns (r: Response<Id>)
    requires db.Valid() && newId !in db.projects
    modifies db
    ensures db.Valid()
    ensures db.conversations == old(db.conversations) && db.messages == old(db.messages) && db.requests == old(db.requests)
    ensures !Present(email) ==> r == Err(401, "Unauthorized") && db.projects == old(db.projects) && db.users == old(db.users)
    ensures Present(email) && !HasEmail(old(db.users), email.value) ==>
              r == Err(404, "User not found") && db.projects == old(db.projects) && db.users == old(db.users)
    ensures Present(email) && HasEmail(old(db.users), email.value) ==>
              var owner := FindByEmail(old(db.users), email.value);
              var d := Prepare(f, images, video, parse, isUrl);
              && (d.Refusal? ==> r == Err(400, d.message) && db.projects == old(db.projects) && db.users == old(db.users))
              && (d.Accepted? && |d.images| > 0 ==>
                    r == Err(500, ValidationFailed("Project")) && db.projects == old(db.projects) && db.users == old(db.users))
              && (d.Accepted? && |d.images| == 0 &&
                  ProjectValid(Built(d.input, owner, MediaAsWritten(d.images, d.video).media, now)) &&
                  UserValid(old(db.users)[owner].(projects := old(db.users)[owner].projects + [newId])) ==>
                    r == Ok(201, newId))
              && (r.Ok? ==>
                    && d.Accepted? && |d.images| == 0 && r == Ok(201, newId)
                    && db.projects == old(db.projects)[newId := Built(d.input, owner, MediaAsWritten(d.images, d.video).media, now)]
                    && db.projects[newId].media == (if d.video.Some? then Some(Media(None, [])) else None)
                    && db.users == old(db.users)[owner := old(db.users)[owner].(projects := old(db.users)[owner].projects + [newId])])
    ensures r.Err? ==> db.users == old(db.users)
    ensures r.Err? && db.projects != old(db.projects) ==> r == Err(500, ValidationFailed("User"))
  {
    if !Present(email) {
      return Err(401, "Unauthorized");
    }
    if !HasEmail(db.users, email.value) {
      return Err(404, "User not found");
    }
    var owner :| owner in db.users && db.users[owner].email == email.value;
    assert owner == FindByEmail(db.users, email.value);
    var d := Prepare(f, images, video, parse, isUrl);
    if d.Refusal? {
      return Err(400, d.message);
    }
    var cast := MediaAsWritten(d.images, d.video);
    if cast.CastFailed? {
      return Err(500, ValidationFailed("Project"));
    }
    var p := Built(d.input, owner, cast.media, now);
    r := Insert(db, owner, p, newId);
  }

  /** The same route with the media in the schema's shape (`StoredMedia`):
      every upload reaches the stored project. */
  method CreateProjectCorrected(db: Database, email: Option<string>, f: Form, images: seq<Entry>, video: Option<Entry>,
                                parse: string -> JsonList, isUrl: string -> bool, now: int, newId: Id)
    returns (r: Response<Id>)
    requires db.Valid() && newId !in db.projects
    modifies db
    ensures db.Valid()
    ensures db.conversations == old(db.conversations) && db.messages == old(db.messages) && db.requests == old(db.requests)
    ensures !Present(email) ==> r == Err(401, "Unauthorized") && db.projects == old(db.projects) && db.users == old(db.users)
    ensures Present(email) && !HasEmail(old(db.users), email.value) ==>
              r == Err(404, "User not found") && db.projects == old(db.projects) && db.users == old(db.users)
    ensures Present(email) && HasEmail(old(db.users), email.value) ==>
              var owner := FindByEmail(old(db.users), email.value);
              var d := Prepare(f, images, video, parse, isUrl);
              && (d.Refusal? ==> r == Err(400, d.message) && db.projects == old(db.projects) && db.users == old(db.users))
              && (d.Accepted? && ProjectValid(Built(d.input, owner, StoredMedia(d.images, d.video), now)) &&
                  UserValid(old(db.users)[owner].(projects := old(db.users)[owner].projects + [newId])) ==>
                    r == Ok(201, newId))
              && (r.Ok? ==>
                    && d.Accepted? && r == Ok(201, newId)
                    && db.projects == old(db.projects)[newId := Built(d.input, owner, StoredMedia(d.images, d.video), now)]
                    && db.users == old(db.users)[owner := old(db.users)[owner].(projects := old(db.users)[owner].projects + [newId])])
    ensures r.Err? ==> db.users == old(db.users)
    ensures r.Err? && db.projects != old(db.projects) ==> r == Err(500, ValidationFailed("User"))
  {
    if !Present(email) {
      return Err(401, "Unauthorized");
    }
    if !HasEmail(db.users, email.value) {
      return Err(404, "User not found");
    }
    var owner :| owner in db.users && db.users[owner].email == email.value;
    assert owner == FindByEmail(db.users, email.value);
    var d := Prepare(f, images, video, parse, isUrl);
    if d.Refusal? {
      return Err(400, d.message);
    }
    var p := Built(d.input, owner, StoredMedia(d.images, d.video), now);
    r := Insert(db, owner, p, newId);
  }

  /** The owner as the listing shows it. */
  datatype OwnerView = OwnerView(id: Id, name: string, avatar: Option<string>, bio: Option<string>, skills: seq<string>)

  datatype ProjectView = ProjectView(id: Id, project: Project, owner: OwnerView)

  function OwnerOf(id: Id, u: UserRecord): (o: OwnerView)
    ensures o.id == id && o.name == u.name && o.avatar == u.profileImage && o.bio == u.bio && o.skills == u.skills
  {
    OwnerView(id, u.name, u.profileImage, u.bio, u.skills)
  }

  /** The creation times of the projects `owner` owns. */
  function OwnedCreatedAt(projects: map<Id, Project>, owner: Id): (key: map<Id, int>)
    ensures forall id :: id in key <==> id in projects && projects[id].owner == owner
    ensures forall id :: id in key ==> key[id] == projects[id].createdAt
  {
    map id | id in projects && projects[id].owner == owner :: projects[id].createdAt
  }

  /** GET /api/projects/get-all-projects: the caller's own projects, newest
      first, each with its owner projected. */
  method GetAllProjects(users: map<Id, UserRecord>, projects: map<Id, Project>, email: Option<string>)
    returns (r: Response<seq<ProjectView>>)
    requires UniqueEmails(users)
    ensures !Present(email) ==> r == Err(401, "Unauthorized")
    ensures Present(email) && !HasEmail(users, email.value) ==> r == Err(404, "User not found")
    ensures Present(email) && HasEmail(users, email.value) ==>
              var owner := FindByEmail(users, email.value);
              var key := OwnedCreatedAt(projects, owner);
              && r.Ok? && r.status == 200
              && ListsExactly(seq(|r.body|, i requires 0 <= i < |r.body| => r.body[i].id), key.Keys)
              && InOrder(seq(|r.body|, i requires 0 <= i < |r.body| => r.body[i].id), key, true)
              && forall i :: 0 <= i < |r.body| ==>
                   r.body[i].id in projects && r.body[i].project == projects[r.body[i].id] &&
                   r.body[i].owner == OwnerOf(owner, users[owner])
  {
    if !Present(email) {
      return Err(401, "Unauthorized");
    }
    if !HasEmail(users, email.value) {
      return Err(404, "User not found");
    }
    var owner :| owner in users && users[owner].email == email.value;
    assert owner == FindByEmail(users, email.value);
    var key := OwnedCreatedAt(projects, owner);
    var ids := SortedKeys(key, true);
    var view := OwnerOf(owner, users[owner]);
    var body := seq(|ids|, i requires 0 <= i < |ids| && ids[i] in projects => ProjectView(ids[i], projects[ids[i]], view));
    assert seq(|body|, i requires 0 <= i < |body| => body[i].id) == ids;
    return Ok(200, body);
  }
}
