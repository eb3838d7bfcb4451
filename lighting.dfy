/** The lighting diagram of src/components/lighting-editor.tsx: the default
    diagram, the defensive parse of a stored diagram, the JSON the editor
    saves, and the editor's object list with its selection. Ids of new
    objects take their random part as a parameter. */
module Lighting {
  import opened Wrappers
  import opened Json
  import opened Seqs

  datatype ObjectType = Subject | Camera | Light

  function TypeName(t: ObjectType): string {
    match t
    case Subject => "subject"
    case Camera => "camera"
    case Light => "light"
  }

  function ParseType(s: string): (r: Option<ObjectType>)
    ensures r.Some? ==> TypeName(r.value) == s
  {
    if s == "subject" then Some(Subject)
    else if s == "camera" then Some(Camera)
    else if s == "light" then Some(Light)
    else None
  }

  lemma ParseTypeName(t: ObjectType)
    ensures ParseType(TypeName(t)) == Some(t)
  {
  }

  /** An object on the canvas; `modifier` and `power` are optional. */
  datatype LightingObject = LightingObject(
    id: string,
    kind: ObjectType,
    x: real,
    y: real,
    rotation: real,
    labelText: string,
    modifier: Option<string>,
    power: Option<string>)

  datatype Canvas = Canvas(width: real, height: real, grid: real, unit: string)

  datatype Diagram = Diagram(version: real, canvas: Canvas, objects: seq<LightingObject>, notes: string)

  const CanvasWidth: real := 980.0
  const CanvasHeight: real := 560.0
  const CanvasGrid: real := 40.0
  const DefaultCanvas: Canvas := Canvas(CanvasWidth, CanvasHeight, CanvasGrid, "px")

  /** `defaultDiagram`. */
  function DefaultDiagram(): Diagram {
    Diagram(1.0, DefaultCanvas,
      [ LightingObject("subject_1", Subject, 560.0, 300.0, 0.0, "Model", None, None),
        LightingObject("camera_1", Camera, 220.0, 320.0, 10.0, "Camera", None, None),
        LightingObject("light_1", Light, 360.0, 220.0, 25.0, "Key", Some("softbox"), Some("1/16")) ],
      "")
  }

  function Ids(objects: seq<LightingObject>): (r: seq<string>)
    ensures |r| == |objects|
  {
    seq(|objects|, k requires 0 <= k < |objects| => objects[k].id)
  }

  /** The default diagram holds a subject, a camera and a light, under three
      different ids, on the default canvas. */
  lemma DefaultDiagramShape()
    ensures var d := DefaultDiagram();
            && Ids(d.objects) == ["subject_1", "camera_1", "light_1"]
            && (forall i, j :: 0 <= i < j < |d.objects| ==> d.objects[i].id != d.objects[j].id)
            && d.objects[0].kind == Subject && d.objects[1].kind == Camera && d.objects[2].kind == Light
            && d.version == 1.0 && d.canvas == Canvas(980.0, 560.0, 40.0, "px") && d.notes == ""
  {
    var ids := Ids(DefaultDiagram().objects);
    assert ids[0] == "subject_1" && ids[1] == "camera_1" && ids[2] == "light_1";
  }

  // ---------------------------------------------------------------------------
  // Parsing a stored diagram
  // ---------------------------------------------------------------------------

  /** The shape check of the `objects.filter`: an object whose `id` and
      `label` are strings, whose `type` is one of the three names and whose
      `x`, `y` and `rotation` are numbers. */
  predicate ShapeOk(j: Json) {
    match j
    case JObj(f) =>
      && GetString(f, "id").Some?
      && GetString(f, "type").Some? && ParseType(GetString(f, "type").value).Some?
      && GetNumber(f, "x").Some? && GetNumber(f, "y").Some? && GetNumber(f, "rotation").Some?
      && GetString(f, "label").Some?
    case _ => false
  }

  /** The object that passed validation, as the editor's typed view reads
      it; `modifier` and `power` count when they are strings. */
  function AsObject(j: Json): LightingObject
    requires ShapeOk(j)
  {
    var f := j.fields;
    LightingObject(
      GetString(f, "id").value,
      ParseType(GetString(f, "type").value).value,
      GetNumber(f, "x").value,
      GetNumber(f, "y").value,
      GetNumber(f, "rotation").value,
      GetString(f, "label").value,
      GetString(f, "modifier"),
      GetString(f, "power"))
  }

  function AsObjects(items: seq<Json>): (r: seq<LightingObject>)
    requires forall k :: 0 <= k < |items| ==> ShapeOk(items[k])
    ensures |r| == |items|
  {
    seq(|items|, k requires 0 <= k < |items| => AsObject(items[k]))
  }

  /** The stored objects that survive the filter: those that pass the shape
      check, in their stored order. */
  function KeptObjects(items: seq<Json>): (r: seq<Json>)
    ensures forall k :: 0 <= k < |r| ==> ShapeOk(r[k])
  {
    FilterAll(items, ShapeOk);
    Filter(items, ShapeOk)
  }

  lemma KeptObjectsMembers(items: seq<Json>, j: Json)
    ensures j in KeptObjects(items) <==> j in items && ShapeOk(j)
    ensures IsSubsequence(KeptObjects(items), items)
  {
    FilterMembers(items, ShapeOk, j);
    FilterIsSubsequence(items, ShapeOk);
  }

  /** The guard of `parseInitial`: a numeric `version`, a non-null object
      (or array) `canvas`, and an array `objects`. */
  predicate WellFormed(input: map<string, Json>) {
    && TypeOf(Get(input, "version")) == "number"
    && TypeOf(Get(input, "canvas")) == "object" && Get(input, "canvas") != Some(JNull)
    && Get(input, "objects").Some? && Get(input, "objects").value.JArr?
  }

  /** A canvas dimension: the numeric property of an object canvas, or the
      default; an array canvas has no such property. */
  function Dimension(canvas: Json, key: string, default: real): real {
    match canvas
    case JObj(f) => GetNumber(f, key).GetOr(default)
    case _ => default
  }

  /** `parseInitial`. */
  function ParseInitial(input: Option<map<string, Json>>): Diagram {
    var fallback := DefaultDiagram();
    match input
    case None => fallback
    case Some(f) =>
      if !WellFormed(f) then fallback
      else
        var canvas := f["canvas"];
        Diagram(
          1.0,
          Canvas(Dimension(canvas, "width", fallback.canvas.width),
                 Dimension(canvas, "height", fallback.canvas.height),
                 CanvasGrid, "px"),
          AsObjects(KeptObjects(f["objects"].items)),
          GetString(f, "notes").GetOr(""))
  }

  /** What any parse yields: the default for a missing or malformed input;
      otherwise version 1, the fixed grid and unit, the stored width, height
      and notes where they have the right type, and the objects that pass
      the shape check. */
  lemma ParseInitialShape(input: Option<map<string, Json>>)
    ensures input.None? ==> ParseInitial(input) == DefaultDiagram()
    ensures input.Some? && !WellFormed(input.value) ==> ParseInitial(input) == DefaultDiagram()
    ensures var d := ParseInitial(input);
            && d.version == 1.0 && d.canvas.grid == 40.0 && d.canvas.unit == "px"
    ensures input.Some? && WellFormed(input.value) ==>
              var f := input.value;
              var d := ParseInitial(input);
              && (f["canvas"].JObj? && GetNumber(f["canvas"].fields, "width").Some? ==>
                    d.canvas.width == GetNumber(f["canvas"].fields, "width").value)
              && (!(f["canvas"].JObj? && GetNumber(f["canvas"].fields, "width").Some?) ==> d.canvas.width == 980.0)
              && (f["canvas"].JObj? && GetNumber(f["canvas"].fields, "height").Some? ==>
                    d.canvas.height == GetNumber(f["canvas"].fields, "height").value)
              && (!(f["canvas"].JObj? && GetNumber(f["canvas"].fields, "height").Some?) ==> d.canvas.height == 560.0)
              && d.notes == (if GetString(f, "notes").Some? then GetString(f, "notes").value else "")
              && d.objects == AsObjects(KeptObjects(f["objects"].items))
  {
  }

  // ---------------------------------------------------------------------------
  // The JSON the editor saves
  // ---------------------------------------------------------------------------

  /** An optional string property: `JSON.stringify` leaves out an undefined
      one. */
  function OptionalField(key: string, value: Option<string>): map<string, Json> {
    if value.Some? then map[key := JStr(value.value)] else map[]
  }

  /** The fields every stored object has. */
  function RequiredFields(o: LightingObject): map<string, Json> {
    map["id" := JStr(o.id), "type" := JStr(TypeName(o.kind)),
        "x" := JNum(o.x), "y" := JNum(o.y), "rotation" := JNum(o.rotation),
        "label" := JStr(o.labelText)]
  }

  /** An object as stored: `modifier` and `power` are written only when set. */
  function ObjectToJson(o: LightingObject): Json {
    JObj(RequiredFields(o) + OptionalField("modifier", o.modifier) + OptionalField("power", o.power))
  }

  function ObjectsToJson(objects: seq<LightingObject>): (r: seq<Json>)
    ensures |r| == |objects|
  {
    seq(|objects|, k requires 0 <= k < |objects| => ObjectToJson(objects[k]))
  }

  function CanvasToJson(c: Canvas): Json {
    JObj(map["width" := JNum(c.width), "height" := JNum(c.height),
             "grid" := JNum(c.grid), "unit" := JStr(c.unit)])
  }

  function DiagramToJson(d: Diagram): map<string, Json> {
    map["version" := JNum(d.version),
        "canvas" := CanvasToJson(d.canvas),
        "objects" := JArr(ObjectsToJson(d.objects)),
        "notes" := JStr(d.notes)]
  }

  /** A stored canvas gives back its width and height. */
  lemma CanvasDimensions(c: Canvas, defaultWidth: real, defaultHeight: real)
    ensures Dimension(CanvasToJson(c), "width", defaultWidth) == c.width
    ensures Dimension(CanvasToJson(c), "height", defaultHeight) == c.height
  {
    var f := CanvasToJson(c).fields;
    assert GetNumber(f, "width") == Some(c.width);
    assert GetNumber(f, "height") == Some(c.height);
  }

  /** A stored diagram passes the guard, and its parts are where the parser
      looks for them. */
  lemma DiagramFields(d: Diagram)
    ensures var f := DiagramToJson(d);
            && WellFormed(f)
            && f["canvas"] == CanvasToJson(d.canvas)
            && f["objects"] == JArr(ObjectsToJson(d.objects))
            && GetString(f, "notes") == Some(d.notes)
  {
    var f := DiagramToJson(d);
    assert Get(f, "version") == Some(JNum(d.version));
    assert Get(f, "canvas") == Some(CanvasToJson(d.canvas));
    assert Get(f, "objects") == Some(JArr(ObjectsToJson(d.objects)));
  }

  lemma RequiredFieldsGet(o: LightingObject)
    ensures var m := RequiredFields(o);
            && Get(m, "id") == Some(JStr(o.id))
            && Get(m, "type") == Some(JStr(TypeName(o.kind)))
            && Get(m, "x") == Some(JNum(o.x))
            && Get(m, "y") == Some(JNum(o.y))
            && Get(m, "rotation") == Some(JNum(o.rotation))
            && Get(m, "label") == Some(JStr(o.labelText))
            && "modifier" !in m && "power" !in m
  {
  }

  /** An optional field leaves the other keys alone and reads back as the
      value it was given. */
  lemma OptionalFieldGet(m: map<string, Json>, key: string, value: Option<string>)
    requires key !in m
    ensures forall other :: other != key ==> Get(m + OptionalField(key, value), other) == Get(m, other)
    ensures GetString(m + OptionalField(key, value), key) == value
  {
  }

  /** A saved object passes the shape check and reads back as itself. */
  lemma ObjectRoundTrip(o: LightingObject)
    ensures ShapeOk(ObjectToJson(o)) && AsObject(ObjectToJson(o)) == o
  {
    var m0 := RequiredFields(o);
    var m1 := m0 + OptionalField("modifier", o.modifier);
    var f := m1 + OptionalField("power", o.power);
    assert ObjectToJson(o) == JObj(f);
    RequiredFieldsGet(o);
    OptionalFieldGet(m0, "modifier", o.modifier);
    assert "power" !in m1;
    OptionalFieldGet(m1, "power", o.power);
    ParseTypeName(o.kind);
  }

  /** Every saved object passes the filter and reads back as itself. */
  lemma ObjectsRoundTrip(objects: seq<LightingObject>)
    ensures AsObjects(KeptObjects(ObjectsToJson(objects))) == objects
  {
    var items := ObjectsToJson(objects);
    forall k | 0 <= k < |items| ensures ShapeOk(items[k]) && AsObject(items[k]) == objects[k] {
      ObjectRoundTrip(objects[k]);
    }
    FilterKeepsAll(items, ShapeOk);
  }

  /** A diagram in the form the editor produces (version 1, the fixed grid
      and unit) is read back unchanged after it is stored. */
  lemma DiagramRoundTrip(d: Diagram)
    requires d.version == 1.0 && d.canvas.grid == CanvasGrid && d.canvas.unit == "px"
    ensures ParseInitial(Some(DiagramToJson(d))) == d
  {
    DiagramFields(d);
    ObjectsRoundTrip(d.objects);
    CanvasDimensions(d.canvas, CanvasWidth, CanvasHeight);
  }

  /** Parsing is idempotent through storage: a parsed diagram, stored
      again, parses to itself. */
  lemma ParseInitialStable(input: Option<map<string, Json>>)
    ensures ParseInitial(Some(DiagramToJson(ParseInitial(input)))) == ParseInitial(input)
  {
    ParseInitialShape(input);
    DiagramRoundTrip(ParseInitial(input));
  }

  // ---------------------------------------------------------------------------
  // Editing
  // ---------------------------------------------------------------------------

  /** `prev.map(...)` in `updateObject`: the objects with the given id are
      replaced by `updater` of themselves. */
  function Updated(objects: seq<LightingObject>, id: string, updater: LightingObject -> LightingObject): (r: seq<LightingObject>)
    ensures |r| == |objects|
  {
    seq(|objects|, k requires 0 <= k < |objects| =>
      if objects[k].id != id then objects[k] else updater(objects[k]))
  }

  /** Only the objects whose id matches change; with an updater that keeps
      the id (every one of the editor's does, by spreading `current`), the
      list of ids stays the same; an unknown id changes nothing. */
  lemma UpdatedShape(objects: seq<LightingObject>, id: string, updater: LightingObject -> LightingObject)
    ensures forall k :: 0 <= k < |objects| && objects[k].id != id ==> Updated(objects, id, updater)[k] == objects[k]
    ensures forall k :: 0 <= k < |objects| && objects[k].id == id ==> Updated(objects, id, updater)[k] == updater(objects[k])
    ensures (forall o :: updater(o).id == o.id) ==> Ids(Updated(objects, id, updater)) == Ids(objects)
    ensures id !in Ids(objects) ==> Updated(objects, id, updater) == objects
  {
    var r := Updated(objects, id, updater);
    if id !in Ids(objects) {
      forall k | 0 <= k < |objects| ensures r[k] == objects[k] {
        assert Ids(objects)[k] == objects[k].id;
      }
    }
  }

  /** The editor's updaters: a drag, and the four property inputs. Each
      keeps every other field, the id included. */
  function Dragged(x: real, y: real): LightingObject -> LightingObject {
    (o: LightingObject) => o.(x := x, y := y)
  }

  function Relabelled(text: string): LightingObject -> LightingObject {
    (o: LightingObject) => o.(labelText := text)
  }

  function Rotated(rotation: real): LightingObject -> LightingObject {
    (o: LightingObject) => o.(rotation := rotation)
  }

  function WithModifier(modifier: string): LightingObject -> LightingObject {
    (o: LightingObject) => o.(modifier := Some(modifier))
  }

  function WithPower(power: string): LightingObject -> LightingObject {
    (o: LightingObject) => o.(power := Some(power))
  }

  lemma UpdatersKeepId(x: real, y: real, text: string, rotation: real, modifier: string, power: string)
    ensures forall o :: Dragged(x, y)(o).id == o.id && Relabelled(text)(o).id == o.id
                        && Rotated(rotation)(o).id == o.id && WithModifier(modifier)(o).id == o.id
                        && WithPower(power)(o).id == o.id
  {
  }

  function DefaultLabel(kind: ObjectType): string {
    match kind
    case Subject => "Model"
    case Camera => "Camera"
    case Light => "Light"
  }

  /** The object `addObject` creates; `suffix` stands for the random part of
      `makeId`. */
  function NewObject(kind: ObjectType, suffix: string): LightingObject {
    LightingObject(
      TypeName(kind) + "_" + suffix, kind, 500.0, 280.0, 0.0, DefaultLabel(kind),
      if kind == Light then Some("softbox") else None,
      if kind == Light then Some("1/16") else None)
  }

  /** A new object sits at (500, 280) unrotated, its id starts with its
      type name, its label depends on the type, and only a light gets a
      modifier and a power. */
  lemma NewObjectShape(kind: ObjectType, suffix: string)
    ensures var o := NewObject(kind, suffix);
            && o.kind == kind && o.x == 500.0 && o.y == 280.0 && o.rotation == 0.0
            && |o.id| == |TypeName(kind)| + 1 + |suffix|
            && o.id[..|TypeName(kind)| + 1] == TypeName(kind) + "_"
            && o.labelText == (if kind == Subject then "Model" else if kind == Camera then "Camera" else "Light")
            && (o.modifier.Some? <==> kind == Light) && (o.power.Some? <==> kind == Light)
            && (kind == Light ==> o.modifier == Some("softbox") && o.power == Some("1/16"))
  {
    var o := NewObject(kind, suffix);
    assert o.id == (TypeName(kind) + "_") + suffix;
  }

  /** The first object matching an id, as `objects.find(...)` returns it. */
  function Find(objects: seq<LightingObject>, id: Option<string>): (r: Option<LightingObject>)
    ensures r.Some? ==> id == Some(r.value.id) && r.value in objects
    ensures r.None? ==> id.None? || id.value !in Ids(objects)
    ensures r.Some? ==> exists k :: 0 <= k < |objects| && objects[k] == r.value
                                    && forall j :: 0 <= j < k ==> objects[j].id != r.value.id
    decreases |objects|
  {
    if id.None? || objects == [] then None
    else if objects[0].id == id.value then Some(objects[0])
    else
      var rest := Find(objects[1..], id);
      assert id.value !in Ids(objects[1..]) ==> id.value !in Ids(objects) by {
        if id.value in Ids(objects) {
          var k :| 0 <= k < |objects| && Ids(objects)[k] == id.value;
          assert k > 0 && Ids(objects[1..])[k - 1] == id.value;
        }
      }
      rest
  }

  /** The editor's state: the objects, the notes and the selected id. */
  class Editor {
    var objects: seq<LightingObject>
    var notes: string
    var selectedId: Option<string>

    /** The state set up from the stored diagram; the first object, if any,
        is selected. */
    constructor(initialDiagram: Option<map<string, Json>>)
      ensures objects == ParseInitial(initialDiagram).objects
      ensures notes == ParseInitial(initialDiagram).notes
      ensures selectedId == (if objects == [] then None else Some(objects[0].id))
    {
      var initial := ParseInitial(initialDiagram);
      objects := initial.objects;
      notes := initial.notes;
      selectedId := if initial.objects == [] then None else Some(initial.objects[0].id);
    }

    /** The selected object, if its id is still on the canvas. */
    function Selected(): (r: Option<LightingObject>)
      reads this
      ensures r.Some? ==> r.value in objects && selectedId == Some(r.value.id)
    {
      Find(objects, selectedId)
    }

    /** `updateObject`. */
    method UpdateObject(id: string, updater: LightingObject -> LightingObject)
      modifies this
      ensures objects == Updated(old(objects), id, updater)
      ensures notes == old(notes) && selectedId == old(selectedId)
    {
      objects := Updated(objects, id, updater);
    }

    /** `addObject`: one object appended, and selected. */
    method AddObject(kind: ObjectType, suffix: string)
      modifies this
      ensures objects == old(objects) + [NewObject(kind, suffix)]
      ensures selectedId == Some(NewObject(kind, suffix).id)
      ensures notes == old(notes)
      ensures Selected().Some?
    {
      var next := NewObject(kind, suffix);
      objects := objects + [next];
      selectedId := Some(next.id);
      assert Ids(objects)[|objects| - 1] == next.id;
    }

    /** A click on an object selects it; a click on the empty stage clears
        the selection. */
    method Select(id: Option<string>)
      modifies this
      ensures selectedId == id && objects == old(objects) && notes == old(notes)
    {
      selectedId := id;
    }

    method SetNotes(text: string)
      modifies this
      ensures notes == text && objects == old(objects) && selectedId == old(selectedId)
    {
      notes := text;
    }

    /** The diagram `saveDiagram` sends: version 1 and the default canvas,
        whatever canvas was loaded, with the current objects and notes. */
    function Saved(): (d: Diagram)
      reads this
      ensures d.version == 1.0 && d.canvas == DefaultCanvas
      ensures d.objects == objects && d.notes == notes
      ensures ParseInitial(Some(DiagramToJson(d))) == d
    {
      var d := Diagram(1.0, DefaultCanvas, objects, notes);
      DiagramRoundTrip(d);
      d
    }
  }
}
