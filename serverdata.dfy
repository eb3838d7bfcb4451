/** The in-memory work of src/lib/server-data.ts after each database query:
    attaching profiles to comments, collecting the commenters' ids,
    grouping shots into scenes, normalising a member's joined profile, and
    the order in which query errors and missing rows end a load. Each query
    is a parameter holding what the database answered. */
module ServerData {
  import opened Wrappers
  import opened Constants
  import opened Types
  import opened Seqs

  /** A query error as the client library reports it. */
  datatype DbError = DbError(code: string, message: string)

  /** What a query answered: an error, or rows that may be `null`. */
  type Rows<T> = Result<Option<seq<T>>, DbError>

  /** `if (error) throw new Error(error.message); return data ?? []`. */
  function RowsOrThrow<T>(q: Rows<T>): (r: Result<seq<T>, string>)
    ensures q.Err? <==> r.Err?
    ensures q.Err? ==> r.error == q.error.message
    ensures q.Ok? && q.value.Some? ==> r == Ok(q.value.value)
    ensures q.Ok? && q.value.None? ==> r == Ok([])
  {
    match q
    case Err(e) => Err(e.message)
    case Ok(data) => Ok(data.GetOr([]))
  }

  // ---------------------------------------------------------------------------
  // Comments and their profiles
  // ---------------------------------------------------------------------------

  /** `new Map(profiles.map((profile) => [profile.id, profile]))`: entries
      are set in order, so a later profile with the same id wins. */
  function ProfileMap(profiles: seq<ProfileSummary>): map<string, ProfileSummary> {
    if profiles == [] then map[]
    else ProfileMap(profiles[..|profiles| - 1])[profiles[|profiles| - 1].id := profiles[|profiles| - 1]]
  }

  /** The last profile carrying `id`, if any. */
  predicate IsLastWithId(profiles: seq<ProfileSummary>, k: int, id: string) {
    && 0 <= k < |profiles| && profiles[k].id == id
    && forall l :: k < l < |profiles| ==> profiles[l].id != id
  }

  /** An id is in the map exactly when some profile carries it, and it maps
      to the last such profile. */
  lemma {:induction false} ProfileMapLookup(profiles: seq<ProfileSummary>, id: string)
    ensures id in ProfileMap(profiles) <==> exists k :: 0 <= k < |profiles| && profiles[k].id == id
    ensures id in ProfileMap(profiles) ==>
              exists k :: IsLastWithId(profiles, k, id) && ProfileMap(profiles)[id] == profiles[k]
    decreases |profiles|
  {
    if profiles != [] {
      var prefix := profiles[..|profiles| - 1];
      var n := |profiles| - 1;
      ProfileMapLookup(prefix, id);
      if profiles[n].id == id {
        assert IsLastWithId(profiles, n, id);
      } else if id in ProfileMap(prefix) {
        var k :| IsLastWithId(prefix, k, id) && ProfileMap(prefix)[id] == prefix[k];
        assert IsLastWithId(profiles, k, id);
      } else {
        assert forall k :: 0 <= k < n ==> prefix[k] == profiles[k];
      }
    }
  }

  /** `profileMap.get(comment.user_id) ?? null`. */
  function UserOf(pm: map<string, ProfileSummary>, userId: string): CommentUser {
    if userId in pm then WithProfile(pm[userId]) else NoProfile
  }

  /** `decorateComments`. */
  function DecorateComments(comments: seq<Comment>, profiles: seq<ProfileSummary>): (r: seq<Comment>)
    ensures |r| == |comments|
  {
    var pm := ProfileMap(profiles);
    seq(|comments|, k requires 0 <= k < |comments| => comments[k].(user := UserOf(pm, comments[k].user_id)))
  }

  /** Decorating keeps the comments in order with every field but `user`;
      `user` is the last profile whose id is the commenter's, or null when
      no profile has that id. */
  lemma DecorateCommentsShape(comments: seq<Comment>, profiles: seq<ProfileSummary>, k: nat)
    requires k < |comments|
    ensures var c := DecorateComments(comments, profiles)[k];
            && c.(user := comments[k].user) == comments[k]
            && (c.user == NoProfile <==> forall l :: 0 <= l < |profiles| ==> profiles[l].id != comments[k].user_id)
            && (c.user != NoProfile ==>
                  exists l :: IsLastWithId(profiles, l, comments[k].user_id) && c.user == WithProfile(profiles[l]))
  {
    ProfileMapLookup(profiles, comments[k].user_id);
  }

  /** `[...new Set(ids)]`: each id once, in order of first appearance. */
  function Dedup(ids: seq<string>): seq<string> {
    if ids == [] then []
    else
      var prefix := ids[..|ids| - 1];
      Dedup(prefix) + (if ids[|ids| - 1] in prefix then [] else [ids[|ids| - 1]])
  }

  predicate NoDuplicates(ids: seq<string>) {
    forall i, j :: 0 <= i < j < |ids| ==> ids[i] != ids[j]
  }

  /** The collected ids are the ids of the input, each exactly once. */
  lemma {:induction false} DedupShape(ids: seq<string>)
    ensures forall x :: x in Dedup(ids) <==> x in ids
    ensures NoDuplicates(Dedup(ids))
    ensures Dedup(ids) == [] <==> ids == []
    decreases |ids|
  {
    if ids != [] {
      var prefix := ids[..|ids| - 1];
      var last := ids[|ids| - 1];
      DedupShape(prefix);
      assert ids == prefix + [last];
      if last !in prefix {
        var d := Dedup(ids);
        assert d == Dedup(prefix) + [last];
        forall i, j | 0 <= i < j < |d| ensures d[i] != d[j] {
          if j == |d| - 1 {
            assert d[i] in Dedup(prefix);
          }
        }
      } else {
        assert Dedup(prefix) != [];
      }
    }
  }

  function UserIds(comments: seq<Comment>): (r: seq<string>)
    ensures |r| == |comments|
  {
    seq(|comments|, k requires 0 <= k < |comments| => comments[k].user_id)
  }

  /** `getProjectComments` and `getShotComments` after the comments query:
      without commenters the comments are returned as loaded and the
      profiles are never asked for; otherwise a profile error is thrown, and
      the profiles found decorate the comments. `profilesFor` answers the
      profiles query for a list of ids. */
  function LoadComments(commentsQuery: Rows<Comment>, profilesFor: seq<string> -> Rows<ProfileSummary>): Result<seq<Comment>, string> {
    match RowsOrThrow(commentsQuery)
    case Err(e) => Err(e)
    case Ok(commentList) =>
      var userIds := Dedup(UserIds(commentList));
      if |userIds| == 0 then Ok(commentList)
      else
        match RowsOrThrow(profilesFor(userIds))
        case Err(e) => Err(e)
        case Ok(profiles) => Ok(DecorateComments(commentList, profiles))
  }

  /** The profiles are asked for exactly when there are comments, with each
      commenter's id once; an empty comment list comes back as it is. */
  lemma LoadCommentsShape(commentsQuery: Rows<Comment>, profilesFor: seq<string> -> Rows<ProfileSummary>)
    requires commentsQuery.Ok?
    ensures var comments := commentsQuery.value.GetOr([]);
            && (comments == [] ==> LoadComments(commentsQuery, profilesFor) == Ok([]))
            && (comments != [] ==>
                  var ids := Dedup(UserIds(comments));
                  && NoDuplicates(ids) && (forall x :: x in ids <==> x in UserIds(comments))
                  && (profilesFor(ids).Err? ==> LoadComments(commentsQuery, profilesFor) == Err(profilesFor(ids).error.message))
                  && (profilesFor(ids).Ok? ==>
                        LoadComments(commentsQuery, profilesFor) == Ok(DecorateComments(comments, profilesFor(ids).value.GetOr([])))))
  {
    var comments := commentsQuery.value.GetOr([]);
    DedupShape(UserIds(comments));
  }

  // ---------------------------------------------------------------------------
  // Scenes and their shots
  // ---------------------------------------------------------------------------

  function InScene(sceneId: string): Shot -> bool {
    (shot: Shot) => shot.scene_id == sceneId
  }

  /** The `sceneList` of `getProjectDetailById`: every scene, in order,
      with the shots of the list whose `scene_id` is its id. */
  function GroupScenes(scenes: seq<Scene>, shots: seq<Shot>): (r: seq<Scene>)
    ensures |r| == |scenes|
  {
    seq(|scenes|, k requires 0 <= k < |scenes| => scenes[k].(shots := Some(Filter(shots, InScene(scenes[k].id)))))
  }

  /** Grouping keeps each scene and its position; a scene's shots are the
      shots that name it, in list order; a shot naming no scene lands
      nowhere. */
  lemma GroupScenesShape(scenes: seq<Scene>, shots: seq<Shot>, k: nat, shot: Shot)
    requires k < |scenes|
    ensures var g := GroupScenes(scenes, shots)[k];
            && g.(shots := scenes[k].shots) == scenes[k]
            && g.shots.Some?
            && (shot in g.shots.value <==> shot in shots && shot.scene_id == scenes[k].id)
            && IsSubsequence(g.shots.value, shots)
  {
    FilterMembers(shots, InScene(scenes[k].id), shot);
    FilterIsSubsequence(shots, InScene(scenes[k].id));
  }

  lemma OrphanShotsDropped(scenes: seq<Scene>, shots: seq<Shot>, shot: Shot)
    requires forall k :: 0 <= k < |scenes| ==> scenes[k].id != shot.scene_id
    ensures forall k :: 0 <= k < |scenes| ==> shot !in GroupScenes(scenes, shots)[k].shots.value
  {
    forall k | 0 <= k < |scenes| ensures shot !in GroupScenes(scenes, shots)[k].shots.value {
      GroupScenesShape(scenes, shots, k, shot);
    }
  }

  /** `getProjectDetailById` after its queries: a project error is thrown,
      a missing project gives null, then scene and shot errors are thrown
      in that order. */
  function LoadProjectDetail(projectQuery: Result<Option<ProjectHeader>, DbError>, scenesQuery: Rows<Scene>, shotsQuery: Rows<Shot>)
    : (r: Result<Option<ProjectDetail>, string>)
    ensures projectQuery.Err? ==> r == Err(projectQuery.error.message)
    ensures projectQuery == Ok(None) ==> r == Ok(None)
    ensures projectQuery.Ok? && projectQuery.value.Some? && scenesQuery.Err? ==> r == Err(scenesQuery.error.message)
    ensures projectQuery.Ok? && projectQuery.value.Some? && scenesQuery.Ok? && shotsQuery.Err? ==> r == Err(shotsQuery.error.message)
    ensures projectQuery.Ok? && projectQuery.value.Some? && scenesQuery.Ok? && shotsQuery.Ok? ==>
              r == Ok(Some(ProjectDetail(projectQuery.value.value,
                                         GroupScenes(scenesQuery.value.GetOr([]), shotsQuery.value.GetOr([])))))
    ensures r.Ok? && r.value.Some? ==>
              && projectQuery == Ok(Some(r.value.value.project)) && scenesQuery.Ok? && shotsQuery.Ok?
              && r.value.value.scenes == GroupScenes(scenesQuery.value.GetOr([]), shotsQuery.value.GetOr([]))
  {
    match projectQuery
    case Err(e) => Err(e.message)
    case Ok(None) => Ok(None)
    case Ok(Some(project)) =>
      match RowsOrThrow(scenesQuery)
      case Err(e) => Err(e)
      case Ok(sceneRows) =>
        match RowsOrThrow(shotsQuery)
        case Err(e) => Err(e)
        case Ok(shotList) => Ok(Some(ProjectDetail(project, GroupScenes(sceneRows, shotList))))
  }

  // ---------------------------------------------------------------------------
  // Members and deliverables
  // ---------------------------------------------------------------------------

  /** The joined `profiles` column: null, one profile, or an array of them. */
  datatype JoinedProfile = NullProfile | OneProfile(profile: MemberProfile) | ProfileArray(items: seq<MemberProfile>)

  datatype MemberRow = MemberRow(project_id: string, user_id: string, role: MemberRole, created_at: string, profiles: JoinedProfile)

  /** `Array.isArray(row.profiles) ? row.profiles[0] ?? null : row.profiles`. */
  function NormaliseProfile(j: JoinedProfile): (r: Option<MemberProfile>)
    ensures j.ProfileArray? ==> (r.None? <==> j.items == []) && (r.Some? ==> r.value == j.items[0])
    ensures j.OneProfile? ==> r == Some(j.profile)
    ensures j.NullProfile? ==> r.None?
  {
    match j
    case NullProfile => None
    case OneProfile(p) => Some(p)
    case ProfileArray(items) => if items == [] then None else Some(items[0])
  }

  function ToMember(row: MemberRow): ProjectMember {
    ProjectMember(row.project_id, row.user_id, row.role, row.created_at, NormaliseProfile(row.profiles))
  }

  /** `getProjectMembers` after its query: one member per row, in order,
      with the row's columns and its normalised profile. */
  function LoadMembers(q: Rows<MemberRow>): (r: Result<seq<ProjectMember>, string>)
    ensures q.Err? ==> r == Err(q.error.message)
    ensures q.Ok? ==> r.Ok? && |r.value| == |q.value.GetOr([])|
    ensures q.Ok? ==> forall k :: 0 <= k < |r.value| ==> r.value[k] == ToMember(q.value.GetOr([])[k])
  {
    match RowsOrThrow(q)
    case Err(e) => Err(e)
    case Ok(rows) => Ok(seq(|rows|, k requires 0 <= k < |rows| => ToMember(rows[k])))
  }

  /** The Postgres code for a table that does not exist. */
  const UndefinedTable: string := "42P01"

  /** `getProjectDeliverables` after its query: a missing table reads as no
      deliverables; every other error is thrown. */
  function LoadDeliverables(q: Rows<Deliverable>): (r: Result<seq<Deliverable>, string>)
    ensures q.Err? && q.error.code == UndefinedTable ==> r == Ok([])
    ensures q.Err? && q.error.code != UndefinedTable ==> r == Err(q.error.message)
    ensures q.Ok? ==> r == Ok(q.value.GetOr([]))
  {
    if q.Err? && q.error.code == UndefinedTable then Ok([]) else RowsOrThrow(q)
  }

  // ---------------------------------------------------------------------------
  // The shot page
  // ---------------------------------------------------------------------------

  datatype ProjectRef = ProjectRef(id: string, title: string)
  datatype SceneRef = SceneRef(id: string, title: string, sort_order: int)

  datatype ShotWorkspace = ShotWorkspace(
    shot: Shot,
    project: ProjectRef,
    scenes: seq<SceneRef>,
    assets: seq<ShotAsset>,
    lighting: Option<LightingDiagramRow>)

  /** `getShotWorkspace` after its queries: a shot error is thrown, a
      missing shot gives null, then project, scene, asset and lighting
      errors are thrown in that order; a missing diagram is null. */
  function LoadShotWorkspace(
    shotQuery: Result<Option<Shot>, DbError>,
    projectQuery: Result<ProjectRef, DbError>,
    scenesQuery: Rows<SceneRef>,
    assetsQuery: Rows<ShotAsset>,
    lightingQuery: Result<Option<LightingDiagramRow>, DbError>)
    : (r: Result<Option<ShotWorkspace>, string>)
    ensures shotQuery.Err? ==> r == Err(shotQuery.error.message)
    ensures shotQuery == Ok(None) ==> r == Ok(None)
    ensures r.Ok? && r.value.Some? ==>
              && shotQuery == Ok(Some(r.value.value.shot))
              && projectQuery == Ok(r.value.value.project)
              && scenesQuery.Ok? && r.value.value.scenes == scenesQuery.value.GetOr([])
              && assetsQuery.Ok? && r.value.value.assets == assetsQuery.value.GetOr([])
              && lightingQuery == Ok(r.value.value.lighting)
    ensures shotQuery.Ok? && shotQuery.value.Some? && projectQuery.Ok? && scenesQuery.Ok? && assetsQuery.Ok?
            && lightingQuery.Ok? ==>
              r == Ok(Some(ShotWorkspace(shotQuery.value.value, projectQuery.value, scenesQuery.value.GetOr([]),
                                         assetsQuery.value.GetOr([]), lightingQuery.value)))
    ensures shotQuery.Ok? && shotQuery.value.Some? && r.Err? ==>
              || (projectQuery.Err? && r.error == projectQuery.error.message)
              || (projectQuery.Ok? && scenesQuery.Err? && r.error == scenesQuery.error.message)
              || (projectQuery.Ok? && scenesQuery.Ok? && assetsQuery.Err? && r.error == assetsQuery.error.message)
              || (projectQuery.Ok? && scenesQuery.Ok? && assetsQuery.Ok? && lightingQuery.Err?
                  && r.error == lightingQuery.error.message)
  {
    match shotQuery
    case Err(e) => Err(e.message)
    case Ok(None) => Ok(None)
    case Ok(Some(shot)) =>
      match projectQuery
      case Err(e) => Err(e.message)
      case Ok(project) =>
        match RowsOrThrow(scenesQuery)
        case Err(e) => Err(e)
        case Ok(scenes) =>
          match RowsOrThrow(assetsQuery)
          case Err(e) => Err(e)
          case Ok(assets) =>
            match lightingQuery
            case Err(e) => Err(e.message)
            case Ok(lighting) => Ok(Some(ShotWorkspace(shot, project, scenes, assets, lighting)))
  }
}
