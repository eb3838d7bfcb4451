/** The shared enumerations of src/lib/constants.ts and the union types of
    src/types/app.ts that they spell out. */
module Constants {
  import opened Wrappers

  predicate Distinct<T(==)>(s: seq<T>) {
    forall i, j :: 0 <= i < j < |s| ==> s[i] != s[j]
  }

  const AppName: string := "コスコンテっ！"

  /** `SHOT_STATUSES`: idea, not yet shot, shot, edited, shared. */
  const ShotStatuses: seq<string> := ["構想", "未撮影", "撮影済", "現像済", "共有済"]

  /** The status a newly created shot gets when none is given. */
  const DefaultShotStatus: string := "構想"

  /** The status that makes a shot a delivery candidate. */
  const SharedStatus: string := "共有済"

  lemma ShotStatusesShape()
    ensures |ShotStatuses| == 5 && Distinct(ShotStatuses)
    ensures ShotStatuses[0] == DefaultShotStatus
    ensures SharedStatus in ShotStatuses
  {
  }

  /** `PROJECT_STATUSES`: preparing, shooting, editing, delivered. */
  const ProjectStatuses: seq<string> := ["準備中", "撮影中", "現像中", "納品済み"]

  lemma ProjectStatusesShape()
    ensures |ProjectStatuses| == 4 && Distinct(ProjectStatuses)
  {
  }

  /** `ProjectMember.role`. */
  datatype MemberRole = Owner | Editor | Viewer

  function RoleName(r: MemberRole): string {
    match r
    case Owner => "owner"
    case Editor => "editor"
    case Viewer => "viewer"
  }

  function ParseRole(s: string): Option<MemberRole> {
    if s == "owner" then Some(Owner)
    else if s == "editor" then Some(Editor)
    else if s == "viewer" then Some(Viewer)
    else None
  }

  /** `MEMBER_ROLES`. */
  const MemberRoles: seq<string> := ["owner", "editor", "viewer"]

  /** `MEMBER_ROLES` lists exactly the names of the roles a member can have. */
  lemma MemberRolesMatchRole()
    ensures Distinct(MemberRoles)
    ensures forall r :: RoleName(r) in MemberRoles && ParseRole(RoleName(r)) == Some(r)
    ensures forall s :: s in MemberRoles <==> ParseRole(s).Some?
  {
  }

  /** `Deliverable.kind`. */
  datatype DeliverableKind = Pdf | Jpeg | Zip | Other

  function DeliverableKindName(k: DeliverableKind): string {
    match k
    case Pdf => "pdf"
    case Jpeg => "jpeg"
    case Zip => "zip"
    case Other => "other"
  }

  function ParseDeliverableKind(s: string): Option<DeliverableKind> {
    if s == "pdf" then Some(Pdf)
    else if s == "jpeg" then Some(Jpeg)
    else if s == "zip" then Some(Zip)
    else if s == "other" then Some(Other)
    else None
  }

  /** `DELIVERABLE_KINDS`. */
  const DeliverableKinds: seq<string> := ["pdf", "jpeg", "zip", "other"]

  /** `DELIVERABLE_KINDS` lists exactly the names of the deliverable kinds. */
  lemma DeliverableKindsMatchKind()
    ensures Distinct(DeliverableKinds)
    ensures forall k :: DeliverableKindName(k) in DeliverableKinds && ParseDeliverableKind(DeliverableKindName(k)) == Some(k)
    ensures forall s :: s in DeliverableKinds <==> ParseDeliverableKind(s).Some?
  {
  }

  /** `ASSET_KINDS`. */
  const AssetKinds: seq<string> := ["reference", "edit", "diagram_preview", "export"]

  const ReferenceKind: string := "reference"

  const DriveRootFolder: string := "CosplayShoot"
  const DriveProjectsFolder: string := "Projects"

  /** The keys of `DRIVE_PROJECT_SUBFOLDERS`. */
  datatype Subfolder = Refs | Edits | Diagrams | Exports

  function SubfolderKey(f: Subfolder): string {
    match f
    case Refs => "refs"
    case Edits => "edits"
    case Diagrams => "diagrams"
    case Exports => "exports"
  }

  /** The values of `DRIVE_PROJECT_SUBFOLDERS`. */
  function SubfolderName(f: Subfolder): string {
    match f
    case Refs => "10_refs"
    case Edits => "40_edits"
    case Diagrams => "60_diagrams"
    case Exports => "90_exports"
  }

  /** The four project subfolders have four distinct names, none of which is
      also a key. */
  lemma SubfolderNamesDistinct()
    ensures forall f, g :: SubfolderName(f) == SubfolderName(g) ==> f == g
    ensures forall f, g :: SubfolderKey(f) == SubfolderKey(g) ==> f == g
    ensures forall f, g :: SubfolderKey(f) != SubfolderName(g)
  {
  }
}
