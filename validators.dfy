/** The request schemas of src/lib/validators.ts, each as a parse from the
    JSON body to the value the route receives, or `Invalid`. A schema
    object accepts only a JSON object and reads only its own keys, so any
    other key is dropped. zod's e-mail, UUID and date formats are regular
    expressions outside this model: they are the `Formats` parameter. */
module Validators {
  import opened Wrappers
  import opened Text
  import opened Json
  import opened Constants
  import opened Types

  /** The format checks zod applies with `.email()`, `.uuid()` and `.date()`. */
  datatype Formats = Formats(isEmail: string -> bool, isUuid: string -> bool, isDate: string -> bool)

  /** zod's issue list is not modelled: a parse either succeeds or is invalid. */
  datatype Invalid = Invalid

  type Parsed<T> = Result<T, Invalid>

  /** A field that `.optional()` lets be absent and `.nullable()` lets be
      `null`. */
  datatype Field<+T> = Missing | Null | Given(value: T)

  // ---------------------------------------------------------------------------
  // Field parsers
  // ---------------------------------------------------------------------------

  /** `z.string().trim().min(lo).max(hi)`: the trimmed string, when its length
      is within the bounds. */
  function TrimmedString(v: Json, lo: nat, hi: nat): Parsed<string> {
    if v.JStr? && lo <= |Trim(v.s)| <= hi then Ok(Trim(v.s)) else Err(Invalid)
  }

  /** The title rule shared by projects, scenes and shots. */
  function Title(v: Json): Parsed<string> {
    TrimmedString(v, 1, 120)
  }

  /** A title is accepted exactly when its trimmed text is 1 to 120 long;
      the value is that trimmed text, which parses to itself again. */
  lemma TitleAccepted(s: string)
    ensures Title(JStr(s)).Ok? <==> 1 <= |Trim(s)| <= 120
    ensures Title(JStr(s)).Ok? ==> Title(JStr(s)).value == Trim(s)
                                   && NoLeadingSpace(Trim(s)) && NoTrailingSpace(Trim(s))
                                   && Title(JStr(Title(JStr(s)).value)) == Title(JStr(s))
  {
    TrimIdempotent(s);
  }

  /** Anything but a string is refused. */
  lemma TitleNeedsString(v: Json)
    requires !v.JStr?
    ensures Title(v) == Err(Invalid)
  {
  }

  /** `Number.MAX_SAFE_INTEGER`, 2^53 - 1: zod's `.int()` accepts only
      integers no larger in magnitude. */
  const MaxSafeInteger: int := 9007199254740991

  /** `z.number().int().min(0)`: a whole number from 0 to the largest safe
      integer. */
  function NonNegativeInt(v: Json): (r: Parsed<nat>)
    ensures r.Ok? <==> v.JNum? && v.n.Floor as real == v.n && 0.0 <= v.n <= MaxSafeInteger as real
    ensures r.Ok? ==> r.value as real == v.n && r.value <= MaxSafeInteger
  {
    if v.JNum? && v.n.Floor as real == v.n && 0.0 <= v.n <= MaxSafeInteger as real then Ok(v.n.Floor)
    else Err(Invalid)
  }

  /** `shotStatusEnum`: one of the five shot statuses. */
  function ShotStatus(v: Json): (r: Parsed<string>)
    ensures r.Ok? <==> v.JStr? && v.s in ShotStatuses
    ensures r.Ok? ==> r.value == v.s
  {
    if v.JStr? && v.s in ShotStatuses then Ok(v.s) else Err(Invalid)
  }

  /** `.optional()` around a field parser: a missing key is fine. */
  function Optional<T>(fields: map<string, Json>, key: string, p: Json -> Parsed<T>): Parsed<Field<T>> {
    if key !in fields then Ok(Missing)
    else match p(fields[key])
      case Ok(v) => Ok(Given(v))
      case Err(e) => Err(e)
  }

  /** `.optional().nullable()`: a missing key or `null` is fine. */
  function Nullish<T>(fields: map<string, Json>, key: string, p: Json -> Parsed<T>): Parsed<Field<T>> {
    if key in fields && fields[key] == JNull then Ok(Null) else Optional(fields, key, p)
  }

  /** A required field. */
  function Required<T>(fields: map<string, Json>, key: string, p: Json -> Parsed<T>): Parsed<T> {
    if key in fields then p(fields[key]) else Err(Invalid)
  }

  function StringWith(check: string -> bool): Json -> Parsed<string> {
    (v: Json) => if v.JStr? && check(v.s) then Ok(v.s) else Err(Invalid)
  }

  function TrimmedUpTo(hi: nat): Json -> Parsed<string> {
    (v: Json) => TrimmedString(v, 0, hi)
  }

  /** `z.string().max(hi)`, not trimmed. */
  function StringUpTo(hi: nat): Json -> Parsed<string> {
    (v: Json) => if v.JStr? && |v.s| <= hi then Ok(v.s) else Err(Invalid)
  }

  // ---------------------------------------------------------------------------
  // Schemas
  // ---------------------------------------------------------------------------

  datatype CreateProjectInput = CreateProjectInput(title: string, shootDate: Field<string>, location: Field<string>)

  /** `createProjectSchema`. */
  function CreateProject(body: Json, formats: Formats): Parsed<CreateProjectInput> {
    if !body.JObj? then Err(Invalid)
    else
      var f := body.fields;
      match (Required(f, "title", Title), Nullish(f, "shootDate", StringWith(formats.isDate)),
             Nullish(f, "location", TrimmedUpTo(200)))
      case (Ok(title), Ok(shootDate), Ok(location)) => Ok(CreateProjectInput(title, shootDate, location))
      case _ => Err(Invalid)
  }

  /** An accepted project has a trimmed title of 1 to 120 characters and,
      when a location is given, a trimmed location of at most 200. */
  lemma CreateProjectAccepted(body: Json, formats: Formats)
    requires CreateProject(body, formats).Ok?
    ensures var p := CreateProject(body, formats).value;
            && body.JObj? && "title" in body.fields && body.fields["title"].JStr?
            && p.title == Trim(body.fields["title"].s) && 1 <= |p.title| <= 120
            && (p.location.Given? ==> "location" in body.fields && body.fields["location"].JStr?
                                      && p.location.value == Trim(body.fields["location"].s)
                                      && |p.location.value| <= 200)
            && (p.shootDate.Given? ==> formats.isDate(p.shootDate.value))
  {
  }

  /** `createSceneSchema`: an object whose title trims to 1 to 120
      characters gives that trimmed title. */
  function CreateScene(body: Json): (r: Parsed<string>)
    ensures r.Ok? <==> body.JObj? && "title" in body.fields && body.fields["title"].JStr?
                       && 1 <= |Trim(body.fields["title"].s)| <= 120
    ensures r.Ok? ==> r.value == Trim(body.fields["title"].s)
  {
    if !body.JObj? then Err(Invalid) else Required(body.fields, "title", Title)
  }

  datatype SceneUpdate = SceneUpdate(title: Field<string>, sortOrder: Field<nat>)

  /** `updateSceneSchema`. */
  function UpdateScene(body: Json): Parsed<SceneUpdate> {
    if !body.JObj? then Err(Invalid)
    else
      var f := body.fields;
      match (Optional(f, "title", Title), Optional(f, "sortOrder", NonNegativeInt))
      case (Ok(title), Ok(sortOrder)) => Ok(SceneUpdate(title, sortOrder))
      case _ => Err(Invalid)
  }

  /** A scene update is accepted exactly when each field present passes
      its rule; a field is given exactly when its key is sent. */
  lemma UpdateSceneAccepted(body: Json)
    requires body.JObj?
    ensures var f := body.fields;
            UpdateScene(body).Ok? <==>
              && ("title" in f ==> f["title"].JStr? && 1 <= |Trim(f["title"].s)| <= 120)
              && ("sortOrder" in f ==> NonNegativeInt(f["sortOrder"]).Ok?)
    ensures var f := body.fields;
            UpdateScene(body).Ok? ==>
              var u := UpdateScene(body).value;
              && (u.title.Given? <==> "title" in f) && (u.title.Given? ==> u.title.value == Trim(f["title"].s))
              && (u.sortOrder.Given? <==> "sortOrder" in f)
              && (u.sortOrder.Given? ==> u.sortOrder.value as real == f["sortOrder"].n && u.sortOrder.value <= MaxSafeInteger)
  {
  }

  datatype CreateShotInput = CreateShotInput(title: string, status: string, compositionMemo: Field<string>)

  /** `createShotSchema`: a missing status becomes the first shot status. */
  function CreateShot(body: Json): Parsed<CreateShotInput> {
    if !body.JObj? then Err(Invalid)
    else
      var f := body.fields;
      match (Required(f, "title", Title), Optional(f, "status", ShotStatus),
             Nullish(f, "compositionMemo", StringUpTo(2000)))
      case (Ok(title), Ok(status), Ok(memo)) =>
        Ok(CreateShotInput(title, if status.Given? then status.value else DefaultShotStatus, memo))
      case _ => Err(Invalid)
  }

  /** A created shot always has one of the five statuses: the one sent, or
      "構想" when none was; its memo, when given, is at most 2000 long. */
  lemma CreateShotStatus(body: Json)
    requires CreateShot(body).Ok?
    ensures CreateShot(body).value.status in ShotStatuses
    ensures body.JObj? && "status" !in body.fields ==> CreateShot(body).value.status == ShotStatuses[0]
    ensures body.JObj? && "status" in body.fields ==> JStr(CreateShot(body).value.status) == body.fields["status"]
    ensures CreateShot(body).value.compositionMemo.Given? ==> |CreateShot(body).value.compositionMemo.value| <= 2000
  {
    ShotStatusesShape();
  }

  datatype ShotUpdate = ShotUpdate(
    title: Field<string>,
    status: Field<string>,
    compositionMemo: Field<string>,
    sortOrder: Field<nat>,
    sceneId: Field<string>)

  /** `updateShotSchema`. */
  function UpdateShot(body: Json, formats: Formats): Parsed<ShotUpdate> {
    if !body.JObj? then Err(Invalid)
    else
      var f := body.fields;
      var title := Optional(f, "title", Title);
      var status := Optional(f, "status", ShotStatus);
      var memo := Nullish(f, "compositionMemo", StringUpTo(2000));
      var sortOrder := Optional(f, "sortOrder", NonNegativeInt);
      var sceneId := Optional(f, "sceneId", StringWith(formats.isUuid));
      if title.Ok? && status.Ok? && memo.Ok? && sortOrder.Ok? && sceneId.Ok?
      then Ok(ShotUpdate(title.value, status.value, memo.value, sortOrder.value, sceneId.value))
      else Err(Invalid)
  }

  /** An accepted shot update's title, when given, is trimmed and 1 to
      120 characters long. */
  lemma UpdateShotTitle(body: Json, formats: Formats)
    requires UpdateShot(body, formats).Ok?
    ensures var u := UpdateShot(body, formats).value;
            u.title.Given? ==> 1 <= |u.title.value| <= 120 && Trim(u.title.value) == u.title.value
  {
    var f := body.fields;
    OptionalGiven(f, "title", Title);
    if "title" in f && f["title"].JStr? {
      TrimIdempotent(f["title"].s);
    }
  }

  /** An accepted shot update's status, when given, is one of the five and
      its memo at most 2000 characters long. */
  lemma UpdateShotStatusAndMemo(body: Json, formats: Formats)
    requires UpdateShot(body, formats).Ok?
    ensures var u := UpdateShot(body, formats).value;
            && (u.status.Given? ==> u.status.value in ShotStatuses)
            && (u.compositionMemo.Given? ==> |u.compositionMemo.value| <= 2000)
  {
    var f := body.fields;
    OptionalGiven(f, "status", ShotStatus);
    OptionalGiven(f, "compositionMemo", StringUpTo(2000));
  }

  /** An accepted shot update's sort order is a safe integer and its
      scene a UUID. */
  lemma UpdateShotSortAndScene(body: Json, formats: Formats)
    requires UpdateShot(body, formats).Ok?
    ensures var u := UpdateShot(body, formats).value;
            && (u.sortOrder.Given? ==> u.sortOrder.value <= MaxSafeInteger)
            && (u.sceneId.Given? ==> formats.isUuid(u.sceneId.value))
  {
    var f := body.fields;
    OptionalGiven(f, "sortOrder", NonNegativeInt);
    OptionalGiven(f, "sceneId", StringWith(formats.isUuid));
  }

  /** A field that `.optional()` (or `.nullable()` too) gives is what its
      parser gave for the key. */
  lemma OptionalGiven<T>(fields: map<string, Json>, key: string, p: Json -> Parsed<T>)
    ensures Optional(fields, key, p).Ok? && Optional(fields, key, p).value.Given? ==>
              key in fields && p(fields[key]) == Ok(Optional(fields, key, p).value.value)
    ensures Nullish(fields, key, p).Ok? && Nullish(fields, key, p).value.Given? ==>
              key in fields && p(fields[key]) == Ok(Nullish(fields, key, p).value.value)
  {
  }

  /** Every field of an update is optional: the empty object is a valid
      update that changes nothing. */
  lemma UpdatesMayBeEmpty(formats: Formats)
    ensures UpdateScene(JObj(map[])) == Ok(SceneUpdate(Missing, Missing))
    ensures UpdateShot(JObj(map[]), formats) == Ok(ShotUpdate(Missing, Missing, Missing, Missing, Missing))
  {
  }

  /** A sort order, when present in an update, is a non-negative integer. */
  lemma UpdateSortOrder(body: Json, formats: Formats)
    requires body.JObj? && "sortOrder" in body.fields
    ensures UpdateShot(body, formats).Ok? ==>
              UpdateShot(body, formats).value.sortOrder.Given?
              && UpdateShot(body, formats).value.sortOrder.value as real == body.fields["sortOrder"].n
    ensures !NonNegativeInt(body.fields["sortOrder"]).Ok? ==> UpdateShot(body, formats) == Err(Invalid)
    ensures !NonNegativeInt(body.fields["sortOrder"]).Ok? ==> UpdateScene(body) == Err(Invalid)
  {
  }

  /** One element of `items` in `reorderShotsSchema`. */
  function ReorderEntry(v: Json, formats: Formats): Parsed<ReorderItem> {
    if !v.JObj? then Err(Invalid)
    else
      var f := v.fields;
      match (Required(f, "id", StringWith(formats.isUuid)), Required(f, "sortOrder", NonNegativeInt),
             Optional(f, "sceneId", StringWith(formats.isUuid)))
      case (Ok(id), Ok(sortOrder), Ok(sceneId)) =>
        Ok(ReorderItem(id, sortOrder, if sceneId.Given? then Some(sceneId.value) else None))
      case _ => Err(Invalid)
  }

  function ReorderEntries(items: seq<Json>, formats: Formats): (r: Parsed<seq<ReorderItem>>)
    ensures r.Ok? ==> |r.value| == |items|
    ensures r.Ok? <==> forall k :: 0 <= k < |items| ==> ReorderEntry(items[k], formats).Ok?
    ensures r.Ok? ==> forall k :: 0 <= k < |items| ==> r.value[k] == ReorderEntry(items[k], formats).value
  {
    if items == [] then Ok([])
    else
      var n := |items| - 1;
      match (ReorderEntries(items[..n], formats), ReorderEntry(items[n], formats))
      case (Ok(first), Ok(last)) => Ok(first + [last])
      case _ => Err(Invalid)
  }

  /** `reorderShotsSchema`: a non-empty array of entries. */
  function ReorderShots(body: Json, formats: Formats): Parsed<seq<ReorderItem>> {
    if !body.JObj? || "items" !in body.fields || !body.fields["items"].JArr? then Err(Invalid)
    else if |body.fields["items"].items| < 1 then Err(Invalid)
    else ReorderEntries(body.fields["items"].items, formats)
  }

  /** An accepted reorder has at least one item, each with a UUID id, a
      non-negative sort order and, if given, a UUID scene. */
  lemma ReorderShotsAccepted(body: Json, formats: Formats)
    requires ReorderShots(body, formats).Ok?
    ensures var items := ReorderShots(body, formats).value;
            && |items| >= 1
            && forall k :: 0 <= k < |items| ==>
                 && formats.isUuid(items[k].id) && 0 <= items[k].sortOrder <= MaxSafeInteger
                 && (items[k].sceneId.Some? ==> formats.isUuid(items[k].sceneId.value))
  {
    var items := ReorderShots(body, formats).value;
    var raw := body.fields["items"].items;
    forall k | 0 <= k < |items|
      ensures formats.isUuid(items[k].id) && 0 <= items[k].sortOrder <= MaxSafeInteger
      ensures items[k].sceneId.Some? ==> formats.isUuid(items[k].sceneId.value)
    {
      assert items[k] == ReorderEntry(raw[k], formats).value;
    }
  }

  /** An empty item list is refused. */
  lemma ReorderNeedsItems(formats: Formats)
    ensures ReorderShots(JObj(map["items" := JArr([])]), formats) == Err(Invalid)
  {
  }

  /** `commentSchema`. */
  function CommentBody(body: Json): Parsed<string> {
    if !body.JObj? then Err(Invalid) else Required(body.fields, "body", (v: Json) => TrimmedString(v, 1, 2000))
  }

  /** A comment is accepted exactly when its trimmed body is 1 to 2000 long,
      and the stored body is the trimmed text. */
  lemma CommentAccepted(s: string)
    ensures CommentBody(JObj(map["body" := JStr(s)])).Ok? <==> 1 <= |Trim(s)| <= 2000
    ensures CommentBody(JObj(map["body" := JStr(s)])).Ok? ==> CommentBody(JObj(map["body" := JStr(s)])).value == Trim(s)
  {
  }

  /** `lightingDiagramSchema`: `diagramJson` is any JSON object. */
  function LightingDiagram(body: Json): Parsed<map<string, Json>> {
    if body.JObj? && "diagramJson" in body.fields && body.fields["diagramJson"].JObj?
    then Ok(body.fields["diagramJson"].fields)
    else Err(Invalid)
  }

  lemma LightingDiagramNeedsObject(body: Json)
    ensures LightingDiagram(body).Ok? <==> body.JObj? && "diagramJson" in body.fields && body.fields["diagramJson"].JObj?
    ensures LightingDiagram(JObj(map["diagramJson" := JArr([])])) == Err(Invalid)
    ensures LightingDiagram(JObj(map["diagramJson" := JNull])) == Err(Invalid)
  {
  }

  /** `value.toLowerCase().trim()`. */
  function NormaliseEmail(s: string): string {
    Trim(ToLower(s))
  }

  /** Normalising twice is normalising once; the result has no white space
      at its ends and no upper-case ASCII letter. */
  lemma NormaliseEmailIdempotent(s: string)
    ensures NormaliseEmail(NormaliseEmail(s)) == NormaliseEmail(s)
    ensures NoLeadingSpace(NormaliseEmail(s)) && NoTrailingSpace(NormaliseEmail(s))
    ensures ToLower(NormaliseEmail(s)) == NormaliseEmail(s)
  {
    TrimToLower(ToLower(s));
    ToLowerIdempotent(s);
    TrimIdempotent(ToLower(s));
    TrimToLower(s);
    ToLowerIdempotent(Trim(s));
  }

  /** `inviteMemberSchema`: the format is checked on the text as sent, then
      the text is normalised. */
  function InviteMember(body: Json, formats: Formats): Parsed<string> {
    if body.JObj? && "email" in body.fields && body.fields["email"].JStr? && formats.isEmail(body.fields["email"].s)
    then Ok(NormaliseEmail(body.fields["email"].s))
    else Err(Invalid)
  }

  /** An invitation is accepted exactly when the e-mail as sent passes the
      format check; the address kept is normalised, so normalising it again
      changes nothing. */
  lemma InviteMemberAccepted(body: Json, formats: Formats)
    ensures InviteMember(body, formats).Ok? <==>
              body.JObj? && "email" in body.fields && body.fields["email"].JStr? && formats.isEmail(body.fields["email"].s)
    ensures InviteMember(body, formats).Ok? ==>
              var e := InviteMember(body, formats).value;
              && e == Trim(ToLower(body.fields["email"].s))
              && NormaliseEmail(e) == e && ToLower(e) == e && NoLeadingSpace(e) && NoTrailingSpace(e)
  {
    if InviteMember(body, formats).Ok? {
      NormaliseEmailIdempotent(body.fields["email"].s);
    }
  }

  /** `exportProjectPdfSchema`: `includeComments` is false unless sent. */
  function ExportProjectPdf(body: Json): (r: Parsed<bool>)
    ensures r.Ok? <==> body.JObj? && ("includeComments" in body.fields ==> body.fields["includeComments"].JBool?)
    ensures body.JObj? && "includeComments" !in body.fields ==> r == Ok(false)
    ensures r.Ok? && "includeComments" in body.fields ==> r.value == body.fields["includeComments"].b
  {
    if !body.JObj? then Err(Invalid)
    else if "includeComments" !in body.fields then Ok(false)
    else if body.fields["includeComments"].JBool? then Ok(body.fields["includeComments"].b)
    else Err(Invalid)
  }
}
