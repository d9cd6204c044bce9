/** Stored projects (models/Project.ts). */
module ProjectModel {
  import opened Common

  datatype ProjectStatus = Draft | Published

  /** The schema's `media` sub-document: a video URL and image URLs. */
  datatype Media = Media(videoUrl: Option<string>, images: seq<string>)

  datatype Project = Project(
    title: string,
    description: string,
    owner: Id,
    tags: seq<string>,
    techStack: seq<string>,
    githubUrl: Option<string>,
    liveUrl: Option<string>,
    media: Option<Media>,
    status: ProjectStatus,
    likes: int,
    createdAt: int,
    updatedAt: int)

  const TitleMin := 3
  const TitleMax := 100
  const DescriptionMin := 10
  const DescriptionMax := 2000

  /** The schema's own validators: title 3..100 and description 10..2000
      characters, and a castable owner reference. */
  predicate ProjectValid(p: Project) {
    && TitleMin <= |p.title| <= TitleMax
    && DescriptionMin <= |p.description| <= DescriptionMax
    && IsObjectId(p.owner)
  }

  /** A project as `Project.create` stores it: an absent status becomes
      published and `likes` starts at 0. */
  function NewProject(title: string, description: string, owner: Id, tags: seq<string>, techStack: seq<string>,
                      githubUrl: Option<string>, liveUrl: Option<string>, media: Option<Media>,
                      status: Option<ProjectStatus>, now: int): (p: Project)
    ensures status.None? ==> p.status == Published
    ensures status.Some? ==> p.status == status.value
    ensures p.likes == 0 && p.createdAt == now && p.updatedAt == now
    ensures p.title == title && p.description == description && p.owner == owner
    ensures p.tags == tags && p.techStack == techStack && p.media == media
    ensures p.githubUrl == githubUrl && p.liveUrl == liveUrl
  {
    Project(title, description, owner, tags, techStack, githubUrl, liveUrl, media,
            if status.Some? then status.value else Published, 0, now, now)
  }
}
