/** The records of src/types/app.ts that the modelled code reads and builds.
    Timestamps are kept as the strings the database returns. */
module Types {
  import opened Wrappers
  import opened Constants
  import Json

  datatype Shot = Shot(
    id: string,
    project_id: string,
    scene_id: string,
    title: string,
    status: string,
    composition_memo: Option<string>,
    sort_order: int,
    created_at: string,
    updated_at: string)

  /** `shots` is optional in the record; `None` is a scene loaded without them. */
  datatype Scene = Scene(
    id: string,
    project_id: string,
    title: string,
    sort_order: int,
    created_at: string,
    updated_at: string,
    shots: Option<seq<Shot>>)

  datatype ProjectHeader = ProjectHeader(
    id: string,
    title: string,
    status: string,
    shoot_date: Option<string>,
    location: Option<string>,
    drive_folder_url: Option<string>)

  datatype ProjectDetail = ProjectDetail(project: ProjectHeader, scenes: seq<Scene>)

  /** The profile columns joined onto a comment. */
  datatype ProfileSummary = ProfileSummary(
    id: string,
    display_name: Option<string>,
    avatar_url: Option<string>)

  /** The optional `user` property of a comment: absent as loaded, `null`
      when no profile was found, or the profile. */
  datatype CommentUser = Undecorated | NoProfile | WithProfile(profile: ProfileSummary)

  datatype Comment = Comment(
    id: string,
    project_id: Option<string>,
    shot_id: Option<string>,
    user_id: string,
    body: string,
    created_at: string,
    user: CommentUser)

  datatype MemberProfile = MemberProfile(
    id: string,
    email: string,
    display_name: Option<string>,
    avatar_url: Option<string>)

  datatype ProjectMember = ProjectMember(
    project_id: string,
    user_id: string,
    role: MemberRole,
    created_at: string,
    profile: Option<MemberProfile>)

  datatype Deliverable = Deliverable(
    id: string,
    project_id: string,
    shot_id: Option<string>,
    kind: DeliverableKind,
    drive_file_id: string,
    drive_file_name: string,
    drive_web_view_link: Option<string>,
    mime_type: string,
    created_by: Option<string>,
    created_at: string)

  datatype ShotAsset = ShotAsset(
    id: string,
    shot_id: string,
    kind: string,
    drive_file_id: string,
    drive_file_name: string,
    drive_web_view_link: Option<string>,
    mime_type: string,
    width: Option<int>,
    height: Option<int>,
    size_bytes: Option<int>,
    created_at: string)

  datatype LightingDiagramRow = LightingDiagramRow(
    id: string,
    shot_id: string,
    diagram_json: map<string, Json.Json>,
    preview_asset_id: Option<string>,
    updated_at: string)

  /** One entry of a reorder request: the shot, its new position and,
      optionally, the scene it moves to. */
  datatype ReorderItem = ReorderItem(id: string, sortOrder: int, sceneId: Option<string>)

  /** `ProjectTabKey`. */
  datatype ProjectTab = Storyboard | Lighting | Comments | Delivery
}
