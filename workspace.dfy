/** The client-side rules of src/components/project-workspace.tsx: the tab
    labels, the flattened shot list, the delivery candidates, the shot swap
    behind the arrow buttons with the reorder payload it sends, and the
    empty-input guards in front of each request. The `fetch` calls and the
    React state they update are not modelled: a guard yields the request body
    it would send, or `None` when it returns early. */
module Workspace {
  import opened Wrappers
  import opened Text
  import opened Constants
  import opened Types
  import opened Seqs

  // ---------------------------------------------------------------------------
  // Tabs
  // ---------------------------------------------------------------------------

  /** The tab buttons, in the order of the object literal whose keys the
      navigation lists. */
  const TabOrder: seq<ProjectTab> := [Storyboard, Lighting, Comments, Delivery]

  /** `tabLabel`. */
  function TabLabel(tab: ProjectTab): string {
    match tab
    case Storyboard => "絵コンテ"
    case Lighting => "ライティング"
    case Comments => "コメント"
    case Delivery => "納品"
  }

  /** Every tab is listed once, and no two tabs share a label. */
  lemma TabLabelsDistinct()
    ensures forall t: ProjectTab :: t in TabOrder
    ensures Distinct(TabOrder)
    ensures forall a: ProjectTab, b: ProjectTab :: TabLabel(a) == TabLabel(b) ==> a == b
  {
    forall t: ProjectTab ensures t in TabOrder {
      match t
      case Storyboard => assert TabOrder[0] == t;
      case Lighting => assert TabOrder[1] == t;
      case Comments => assert TabOrder[2] == t;
      case Delivery => assert TabOrder[3] == t;
    }
  }

  // ---------------------------------------------------------------------------
  // The flattened shot list and the delivery candidates
  // ---------------------------------------------------------------------------

  /** `scene.shots ?? []`. */
  function ShotsOf(scene: Scene): seq<Shot> {
    scene.shots.GetOr([])
  }

  /** `allShots`: `data.scenes.flatMap((scene) => scene.shots ?? [])`. */
  function AllShots(scenes: seq<Scene>): seq<Shot> {
    if scenes == [] then [] else AllShots(scenes[..|scenes| - 1]) + ShotsOf(scenes[|scenes| - 1])
  }

  /** Flattening two runs of scenes is flattening each and joining. */
  lemma {:induction false} AllShotsAppend(a: seq<Scene>, b: seq<Scene>)
    ensures AllShots(a + b) == AllShots(a) + AllShots(b)
    decreases |b|
  {
    if b == [] {
      assert a + b == a;
    } else {
      var b' := b[..|b| - 1];
      assert (a + b)[..|a + b| - 1] == a + b';
      assert (a + b)[|a + b| - 1] == b[|b| - 1];
      AllShotsAppend(a, b');
    }
  }

  /** A shot is in the flattened list exactly when some scene's shots hold
      it; a scene without a shot list contributes nothing. */
  lemma {:induction false} AllShotsMembers(scenes: seq<Scene>, shot: Shot)
    ensures shot in AllShots(scenes) <==>
              exists k :: 0 <= k < |scenes| && scenes[k].shots.Some? && shot in scenes[k].shots.value
    decreases |scenes|
  {
    if scenes != [] {
      var prefix := scenes[..|scenes| - 1];
      AllShotsMembers(prefix, shot);
      if shot in AllShots(scenes) && shot !in AllShots(prefix) {
        assert shot in ShotsOf(scenes[|scenes| - 1]);
      }
      if exists k :: 0 <= k < |scenes| && scenes[k].shots.Some? && shot in scenes[k].shots.value {
        var k :| 0 <= k < |scenes| && scenes[k].shots.Some? && shot in scenes[k].shots.value;
        if k < |prefix| {
          assert prefix[k] == scenes[k];
        }
      }
    }
  }

  /** The number of shots in the flattened list is the sum over the scenes. */
  function ShotCount(scenes: seq<Scene>): nat {
    if scenes == [] then 0 else ShotCount(scenes[..|scenes| - 1]) + |ShotsOf(scenes[|scenes| - 1])|
  }

  lemma {:induction false} AllShotsLength(scenes: seq<Scene>)
    ensures |AllShots(scenes)| == ShotCount(scenes)
    decreases |scenes|
  {
    if scenes != [] {
      AllShotsLength(scenes[..|scenes| - 1]);
    }
  }

  predicate IsShared(shot: Shot) {
    shot.status == SharedStatus
  }

  /** `allShots.filter((shot) => shot.status === "共有済")`. */
  function DeliveryCandidates(shots: seq<Shot>): seq<Shot> {
    Filter(shots, IsShared)
  }

  /** The candidates are exactly the shared shots of the list. */
  lemma DeliveryCandidatesMembers(shots: seq<Shot>, shot: Shot)
    ensures shot in DeliveryCandidates(shots) <==> shot in shots && shot.status == SharedStatus
  {
    FilterMembers(shots, IsShared, shot);
  }

  /** The candidates keep the order of the list: they are a subsequence. */
  lemma DeliveryCandidatesInOrder(shots: seq<Shot>)
    ensures IsSubsequence(DeliveryCandidates(shots), shots)
  {
    FilterIsSubsequence(shots, IsShared);
  }

  /** `allShots.every((shot) => shot.status !== "共有済")`: whether the
      delivery tab shows its empty notice. */
  predicate ShowsNoCandidatesNotice(shots: seq<Shot>) {
    forall k :: 0 <= k < |shots| ==> shots[k].status != SharedStatus
  }

  /** The empty notice shows exactly when there is no candidate. */
  lemma NoticeIffNoCandidates(shots: seq<Shot>)
    ensures ShowsNoCandidatesNotice(shots) <==> DeliveryCandidates(shots) == []
  {
    FilterEmpty(shots, IsShared);
  }

  // ---------------------------------------------------------------------------
  // Moving a shot
  // ---------------------------------------------------------------------------

  /** Positions `i` and `j` exchanged, everything else in place. */
  function Swap<T>(s: seq<T>, i: nat, j: nat): (r: seq<T>)
    requires i < |s| && j < |s|
    ensures |r| == |s|
  {
    s[i := s[j]][j := s[i]]
  }

  /** What `Swap` does, position by position, and that it keeps the
      elements. */
  lemma SwapShape<T>(s: seq<T>, i: nat, j: nat)
    requires i < |s| && j < |s|
    ensures Swap(s, i, j)[i] == s[j] && Swap(s, i, j)[j] == s[i]
    ensures forall k :: 0 <= k < |s| && k != i && k != j ==> Swap(s, i, j)[k] == s[k]
    ensures multiset(Swap(s, i, j)) == multiset(s)
  {
    var t := s[i := s[j]];
    assert multiset(t) == multiset(s) - multiset{s[i]} + multiset{s[j]};
    assert multiset(t[j := s[i]]) == multiset(t) - multiset{t[j]} + multiset{s[i]};
  }

  /** Swapping the same two positions again restores the order. */
  lemma SwapTwice<T>(s: seq<T>, i: nat, j: nat)
    requires i < |s| && j < |s|
    ensures Swap(Swap(s, i, j), j, i) == s
  {
  }

  /** The ids of a list of shots, in order. */
  function Ids(shots: seq<Shot>): (r: seq<string>)
    ensures |r| == |shots|
  {
    seq(|shots|, k requires 0 <= k < |shots| => shots[k].id)
  }

  /** The payload `shots.map((shot, idx) => ({ id: shot.id, sortOrder: idx }))`. */
  function ReorderPayload(shots: seq<Shot>): (r: seq<ReorderItem>)
    ensures |r| == |shots|
  {
    seq(|shots|, k requires 0 <= k < |shots| => ReorderItem(shots[k].id, k, None))
  }

  function PayloadIds(items: seq<ReorderItem>): (r: seq<string>)
    ensures |r| == |items|
  {
    seq(|items|, k requires 0 <= k < |items| => items[k].id)
  }

  /** The payload sends the shots' ids in order with dense keys 0..n-1, and
      names no scene. */
  lemma ReorderPayloadShape(shots: seq<Shot>)
    ensures PayloadIds(ReorderPayload(shots)) == Ids(shots)
    ensures forall k :: 0 <= k < |shots| ==> ReorderPayload(shots)[k].sortOrder == k
    ensures forall k :: 0 <= k < |shots| ==> ReorderPayload(shots)[k].sceneId.None?
  {
  }

  /** A move's payload lists the scene's shot ids, each once, with keys
      strictly increasing: a permutation of the ids onto 0..n-1. */
  lemma MovePayloadIsPermutation(shots: seq<Shot>, index: nat, target: nat)
    requires index < |shots| && target < |shots|
    ensures multiset(PayloadIds(ReorderPayload(Swap(shots, index, target)))) == multiset(Ids(shots))
    ensures forall k, l :: 0 <= k < l < |shots| ==>
              ReorderPayload(Swap(shots, index, target))[k].sortOrder < ReorderPayload(Swap(shots, index, target))[l].sortOrder
  {
    ReorderPayloadShape(Swap(shots, index, target));
    assert Ids(Swap(shots, index, target)) == Swap(Ids(shots), index, target);
    SwapShape(Ids(shots), index, target);
  }

  /** `moveShot(scene, index, direction)`: the shots are copied, positions
      `index` and `index + direction` exchanged in the copy, and the payload
      built from it; nothing is sent when the target is off either end. The
      scene itself is a value here, so it is left as it was. */
  method MoveShot(scene: Scene, index: nat, direction: int) returns (payload: Option<seq<ReorderItem>>)
    requires direction == -1 || direction == 1
    requires index < |ShotsOf(scene)|
    ensures payload.None? <==> !(0 <= index + direction < |ShotsOf(scene)|)
    ensures payload.Some? ==> payload.value == ReorderPayload(Swap(ShotsOf(scene), index, index + direction))
  {
    var source := ShotsOf(scene);
    var shots := new Shot[|source|](k requires 0 <= k < |source| => source[k]);
    var target := index + direction;
    if target < 0 || target >= shots.Length {
      return None;
    }
    var tmp := shots[index];
    shots[index] := shots[target];
    shots[target] := tmp;
    assert shots[..] == Swap(source, index, target);

    var items: seq<ReorderItem> := [];
    var idx := 0;
    while idx < shots.Length
      invariant 0 <= idx <= shots.Length
      invariant items == ReorderPayload(shots[..])[..idx]
    {
      items := items + [ReorderItem(shots[idx].id, idx, None)];
      idx := idx + 1;
    }
    assert items == ReorderPayload(shots[..]);
    return Some(items);
  }

  /** Moving a shot down and then moving it back up sends the original
      order again. */
  lemma MoveDownThenUp(shots: seq<Shot>, index: nat)
    requires index + 1 < |shots|
    ensures Swap(Swap(shots, index, index + 1), index + 1, index) == shots
  {
    SwapTwice(shots, index, index + 1);
  }

  // ---------------------------------------------------------------------------
  // Guards in front of the requests
  // ---------------------------------------------------------------------------

  /** `addScene`: nothing is sent for a blank title; otherwise the trimmed
      title. */
  function AddSceneBody(title: string): (r: Option<string>)
    ensures r.None? <==> Trim(title) == []
    ensures r.Some? ==> r.value == Trim(title) && NoLeadingSpace(r.value) && NoTrailingSpace(r.value)
  {
    if Trim(title) == [] then None else Some(Trim(title))
  }

  datatype NewShotBody = NewShotBody(title: string, status: string)

  /** `addShot`: nothing is sent for a blank title; a new shot always starts
      with the first status, 構想. */
  function AddShotBody(title: string): (r: Option<NewShotBody>)
    ensures r.None? <==> Trim(title) == []
    ensures r.Some? ==> r.value.title == Trim(title) && r.value.status == ShotStatuses[0]
  {
    if Trim(title) == [] then None else Some(NewShotBody(Trim(title), "構想"))
  }

  /** `postComment`: nothing is sent for a blank comment. */
  function PostCommentBody(body: string): (r: Option<string>)
    ensures r.None? <==> Trim(body) == []
    ensures r.Some? ==> r.value == Trim(body)
  {
    if Trim(body) == [] then None else Some(Trim(body))
  }

  datatype InviteBody = InviteBody(email: string, role: MemberRole)

  /** `inviteMember`: nothing is sent for a blank address; otherwise the
      address trimmed, then lower-cased (ASCII), with the chosen role. */
  function InviteMemberBody(email: string, role: MemberRole): (r: Option<InviteBody>)
    requires role == Editor || role == Viewer
    ensures r.None? <==> Trim(email) == []
    ensures r.Some? ==> r.value.role == role && |r.value.email| == |Trim(email)|
    ensures r.Some? ==> r.value.email == ToLower(Trim(email))
  {
    if Trim(email) == [] then None else Some(InviteBody(ToLower(Trim(email)), role))
  }

  /** The client trims before lower-casing, the server schema lower-cases
      before trimming; the two give the same address, and the server's
      normalisation leaves the client's result unchanged. */
  lemma InviteEmailAgreesWithSchema(email: string, role: MemberRole)
    requires role == Editor || role == Viewer
    requires Trim(email) != []
    ensures InviteMemberBody(email, role).value.email == Trim(ToLower(email))
    ensures Trim(ToLower(InviteMemberBody(email, role).value.email)) == InviteMemberBody(email, role).value.email
  {
    TrimToLower(email);
    TrimToLower(Trim(email));
    TrimIdempotent(email);
    ToLowerIdempotent(Trim(email));
  }
}
