/** The shot reorder endpoint of src/app/api/shots/reorder/route.ts, with
    the `shots` table held as a map from shot id to row. Signing in, reading
    the request body and the database's per-update errors are inputs. */
module Reorder {
  import opened Wrappers
  import opened Json
  import opened Types
  import Validators

  /** The record passed to `update`: `sort_order` always, `scene_id` only
      when the item names a non-empty scene. */
  datatype UpdatePayload = UpdatePayload(sort_order: int, scene_id: Option<string>)

  function PayloadFor(item: ReorderItem): (p: UpdatePayload)
    ensures p.sort_order == item.sortOrder
    ensures p.scene_id.Some? <==> item.sceneId.Some? && item.sceneId.value != []
    ensures p.scene_id.Some? ==> p.scene_id == item.sceneId
  {
    UpdatePayload(item.sortOrder, if item.sceneId.Some? && item.sceneId.value != [] then item.sceneId else None)
  }

  /** `update(payload).eq("id", id)` on the rows: the matching row, if any,
      takes the payload's columns; no matching row is not an error. */
  function ApplyPayload(rows: map<string, Shot>, id: string, p: UpdatePayload): map<string, Shot> {
    if id !in rows then rows
    else rows[id := rows[id].(sort_order := p.sort_order, scene_id := p.scene_id.GetOr(rows[id].scene_id))]
  }

  /** The items' updates applied one after another. */
  function ApplyItems(rows: map<string, Shot>, items: seq<ReorderItem>): map<string, Shot>
    decreases |items|
  {
    if items == [] then rows
    else
      var n := |items| - 1;
      ApplyPayload(ApplyItems(rows, items[..n]), items[n].id, PayloadFor(items[n]))
  }

  /** The last item naming `id`. */
  function LastFor(items: seq<ReorderItem>, id: string): (r: Option<ReorderItem>)
    ensures r.Some? ==> r.value in items && r.value.id == id
    ensures r.Some? ==> (exists k :: 0 <= k < |items| && items[k] == r.value &&
                          forall j :: k < j < |items| ==> items[j].id != id)
    ensures r.None? <==> forall k :: 0 <= k < |items| ==> items[k].id != id
    decreases |items|
  {
    if items == [] then None
    else if items[|items| - 1].id == id then Some(items[|items| - 1])
    else
      var init := items[..|items| - 1];
      assert forall k :: 0 <= k < |init| ==> init[k] == items[k];
      LastFor(init, id)
  }

  /** The last non-empty scene id given for `id`. */
  function LastSceneFor(items: seq<ReorderItem>, id: string): (r: Option<string>)
    ensures r.Some? ==> r.value != [] && exists k :: 0 <= k < |items| && items[k].id == id && items[k].sceneId == r
    ensures r.Some? ==> (exists k :: 0 <= k < |items| && items[k].id == id && items[k].sceneId == r &&
                          forall j :: k < j < |items| && items[j].id == id ==> items[j].sceneId.None? || items[j].sceneId.value == [])
    ensures r.None? <==> forall k :: 0 <= k < |items| && items[k].id == id ==>
              items[k].sceneId.None? || items[k].sceneId.value == []
    decreases |items|
  {
    if items == [] then None
    else
      var last := items[|items| - 1];
      if last.id == id && last.sceneId.Some? && last.sceneId.value != [] then last.sceneId
      else
        var init := items[..|items| - 1];
        var r := LastSceneFor(init, id);
        assert forall k :: 0 <= k < |init| ==> init[k] == items[k];
        r
  }

  /** What a run of updates leaves in one row: it is there exactly when it
      was; nothing but `sort_order` and `scene_id` changes; the last item
      naming the row decides its order; its scene is the last non-empty
      scene given for it, or the old one. */
  predicate RowAfter(before: map<string, Shot>, after: map<string, Shot>, items: seq<ReorderItem>, id: string) {
    && (id in after <==> id in before)
    && (id in before ==>
          && after[id].(sort_order := before[id].sort_order, scene_id := before[id].scene_id) == before[id]
          && after[id].sort_order == (if LastFor(items, id).Some? then LastFor(items, id).value.sortOrder else before[id].sort_order)
          && after[id].scene_id == LastSceneFor(items, id).GetOr(before[id].scene_id))
  }

  lemma {:induction false} ApplyItemsRows(rows: map<string, Shot>, items: seq<ReorderItem>, id: string)
    ensures RowAfter(rows, ApplyItems(rows, items), items, id)
    decreases |items|
  {
    if items != [] {
      var n := |items| - 1;
      ApplyItemsRows(rows, items[..n], id);
    }
  }

  /** The table keeps its keys, and a row no item names is unchanged. */
  lemma ApplyItemsFrame(rows: map<string, Shot>, items: seq<ReorderItem>)
    ensures ApplyItems(rows, items).Keys == rows.Keys
    ensures forall id :: id in rows && (forall k :: 0 <= k < |items| ==> items[k].id != id) ==>
              ApplyItems(rows, items)[id] == rows[id]
  {
    forall id ensures id in ApplyItems(rows, items) <==> id in rows {
      ApplyItemsRows(rows, items, id);
    }
    forall id | id in rows && (forall k :: 0 <= k < |items| ==> items[k].id != id)
      ensures ApplyItems(rows, items)[id] == rows[id]
    {
      ApplyItemsRows(rows, items, id);
    }
  }

  /** The smallest update index below `n` that fails, or `n`. */
  function FirstError(updateError: nat -> Option<string>, n: nat): (r: nat)
    ensures r <= n
    ensures forall k :: 0 <= k < r ==> updateError(k).None?
    ensures r < n ==> updateError(r).Some?
  {
    if n == 0 then 0
    else
      var p := FirstError(updateError, n - 1);
      if p < n - 1 then p
      else if updateError(n - 1).Some? then n - 1
      else n
  }

  /** `ok(data)` and `fail(message, status)`. */
  datatype Response = Success(data: Json) | Failure(status: nat, message: string)

  const InvalidPayload: string := "Invalid request payload"
  const UpdatedBody: Json := JObj(map["updated" := JBool(true)])

  /** The `shots` table. */
  class ShotsTable {
    var rows: map<string, Shot>

    constructor(rows: map<string, Shot>)
      ensures this.rows == rows
    {
      this.rows := rows;
    }

    /** `supabase.from("shots").update(payload).eq("id", id)` when it
        succeeds. */
    method Update(id: string, payload: UpdatePayload)
      modifies this
      ensures rows == ApplyPayload(old(rows), id, payload)
    {
      if id in rows {
        var row := rows[id];
        rows := rows[id := row.(sort_order := payload.sort_order, scene_id := payload.scene_id.GetOr(row.scene_id))];
      }
    }
  }

  /** The state and answer after the update loop: the items before the
      first failing update are applied, in order; the failure's message
      answers 400, and a run without failures answers `{ updated: true }`. */
  predicate UpdatesOutcome(
    before: map<string, Shot>, after: map<string, Shot>, items: seq<ReorderItem>,
    updateError: nat -> Option<string>, response: Response)
  {
    var n := FirstError(updateError, |items|);
    && after == ApplyItems(before, items[..n])
    && (n < |items| ==> response == Failure(400, updateError(n).value))
    && (n == |items| ==> response == Success(UpdatedBody))
  }

  /** The loop over the accepted items, one update per item. */
  method UpdateAll(table: ShotsTable, items: seq<ReorderItem>, updateError: nat -> Option<string>)
    returns (response: Response)
    modifies table
    ensures UpdatesOutcome(old(table.rows), table.rows, items, updateError, response)
  {
    var i := 0;
    while i < |items|
      invariant 0 <= i <= |items|
      invariant table.rows == ApplyItems(old(table.rows), items[..i])
      invariant forall k :: 0 <= k < i ==> updateError(k).None?
    {
      var payload := PayloadFor(items[i]);
      if updateError(i).Some? {
        assert FirstError(updateError, |items|) == i;
        return Failure(400, updateError(i).value);
      }
      table.Update(items[i].id, payload);
      assert items[..i + 1][..i] == items[..i];
      i := i + 1;
    }
    assert items[..i] == items;
    return Success(UpdatedBody);
  }

  /** `POST /api/shots/reorder`. `auth` is the outcome of
      `getAuthenticatedContext`, `body` that of `request.json()` (either may
      throw, which answers 500 with the message), and `updateError(k)` is
      the error the database reports for the k-th update, if any. Updates
      before the first failing one stay applied. */
  method Reorder(
    table: ShotsTable,
    auth: Result<(), string>,
    body: Result<Json, string>,
    formats: Validators.Formats,
    updateError: nat -> Option<string>)
    returns (response: Response)
    modifies table
    ensures auth.Err? ==> response == Failure(500, auth.error) && table.rows == old(table.rows)
    ensures auth.Ok? && body.Err? ==> response == Failure(500, body.error) && table.rows == old(table.rows)
    ensures auth.Ok? && body.Ok? && Validators.ReorderShots(body.value, formats).Err? ==>
              response == Failure(400, InvalidPayload) && table.rows == old(table.rows)
    ensures auth.Ok? && body.Ok? && Validators.ReorderShots(body.value, formats).Ok? ==>
              UpdatesOutcome(old(table.rows), table.rows, Validators.ReorderShots(body.value, formats).value, updateError, response)
  {
    if auth.Err? {
      return Failure(500, auth.error);
    }
    if body.Err? {
      return Failure(500, body.error);
    }
    var parsed := Validators.ReorderShots(body.value, formats);
    if parsed.Err? {
      return Failure(400, InvalidPayload);
    }
    response := UpdateAll(table, parsed.value, updateError);
  }
}
