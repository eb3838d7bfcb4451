/** The storyboard export of src/lib/pdf.ts: the status codes, the text
    clamp, the page cursor behind `ensureSpace`/`writeLine`, and the order in
    which `buildProjectSummaryPdf` emits its lines. Fonts, colours and the
    rendering itself are not modelled; a drawn line is its text, its size,
    the page it lands on and its `y`. */
module Pdf {
  import opened Wrappers
  import opened Text
  import opened Constants

  // ---------------------------------------------------------------------------
  // Status codes and clamping
  // ---------------------------------------------------------------------------

  /** The export's short code for each of the five shot statuses, in order. */
  const StatusCodes: seq<string> := ["idea", "todo", "shot", "edited", "shared"]

  /** `mapStatus`: a shot status to its code; any other text is kept. */
  function MapStatus(status: string): string {
    if status == "構想" then "idea"
    else if status == "未撮影" then "todo"
    else if status == "撮影済" then "shot"
    else if status == "現像済" then "edited"
    else if status == "共有済" then "shared"
    else status
  }

  /** Each shot status gets the code at its own position; any other text is
      passed through unchanged. */
  lemma MapStatusCodes(status: string)
    ensures forall i :: 0 <= i < |ShotStatuses| && status == ShotStatuses[i] ==> MapStatus(status) == StatusCodes[i]
    ensures status !in ShotStatuses ==> MapStatus(status) == status
  {
  }

  /** Two different shot statuses never share a code. */
  lemma MapStatusInjective(a: string, b: string)
    requires a in ShotStatuses && b in ShotStatuses
    requires MapStatus(a) == MapStatus(b)
    ensures a == b
  {
  }

  /** `value.slice(0, end)`: a negative `end` counts from the end of `value`. */
  function SliceTo(value: string, end: int): (r: string)
    ensures StartsWith(value, r)
    ensures |r| == if end >= 0 then Min(end, |value|) else Max(|value| + end, 0)
  {
    if end >= 0 then Take(value, end)
    else value[..Max(|value| + end, 0)]
  }

  function Min(a: int, b: int): int { if a <= b then a else b }
  function Max(a: int, b: int): int { if a <= b then b else a }

  /** `clampText`: a text within the limit is kept; a longer one is cut so
      that, with the "..." it gets, it is exactly `limit` long. */
  function ClampText(value: string, limit: nat): string {
    if |value| <= limit then value
    else SliceTo(value, limit - 3) + "..."
  }

  /** A text within the limit is kept as it is. */
  lemma ClampTextShort(value: string, limit: nat)
    requires |value| <= limit
    ensures ClampText(value, limit) == value
  {
  }

  /** A longer text, for a limit of 3 or more, is cut to its first
      `limit - 3` characters followed by "...", exactly `limit` in all. */
  lemma ClampTextLong(value: string, limit: nat)
    requires |value| > limit >= 3
    ensures var r := ClampText(value, limit);
            |r| == limit && EndsWith(r, "...") && r[..limit - 3] == value[..limit - 3]
  {
    var r := ClampText(value, limit);
    assert r == value[..limit - 3] + "...";
  }

  /** So, for a limit of 3 or more, a clamped text never exceeds it. */
  lemma ClampTextBound(value: string, limit: nat)
    requires limit >= 3
    ensures |ClampText(value, limit)| <= limit
  {
    if |value| > limit {
      ClampTextLong(value, limit);
    }
  }

  // ---------------------------------------------------------------------------
  // The page cursor
  // ---------------------------------------------------------------------------

  const PageTop: int := 800
  const Margin: int := 42
  const DefaultSize: nat := 10
  /** Above this size even a fresh page cannot hold one line. */
  const MaxFittingSize: nat := 750

  /** A line as the builder asks for it: its text and its font size. */
  datatype Styled = Styled(text: string, size: nat)

  /** A drawn line: where it ended up. */
  datatype Line = Line(content: Styled, page: nat, y: int)

  /** The text and size of each drawn line, in drawing order. */
  function Contents(lines: seq<Line>): (r: seq<Styled>)
    ensures |r| == |lines|
  {
    if lines == [] then [] else Contents(lines[..|lines| - 1]) + [lines[|lines| - 1].content]
  }

  /** The height a line takes: its size plus 8 points of leading. */
  function Advance(size: nat): int { size + 8 }

  /** A line fits when, if its size can fit at all, it lies above the bottom
      margin, and it is never above the top. */
  predicate Fits(l: Line) {
    && l.y <= PageTop
    && (l.content.size <= MaxFittingSize ==> l.y - Advance(l.content.size) >= Margin)
  }

  /** `b` comes after `a`: on the same page or a later one, and, on the same
      page, below the space `a` took. */
  predicate Follows(a: Line, b: Line) {
    && a.page <= b.page
    && (a.page == b.page ==> b.y <= a.y - Advance(a.content.size))
  }

  /** The layout facts of a sequence of drawn lines: every line fits and
      each follows the one before. */
  predicate Placed(lines: seq<Line>) {
    if lines == [] then true
    else
      var prefix := lines[..|lines| - 1];
      && Placed(prefix)
      && Fits(lines[|lines| - 1])
      && (prefix != [] ==> Follows(prefix[|prefix| - 1], lines[|lines| - 1]))
  }

  /** What the cursor keeps: it is at most at the top of its page, the lines
      are placed, and the last one is behind the cursor. */
  predicate Laid(lines: seq<Line>, page: nat, y: int) {
    && y <= PageTop
    && Placed(lines)
    && (lines != [] ==> Behind(lines[|lines| - 1], page, y))
  }

  /** The cursor at `page`, `y` is past line `l`. */
  predicate Behind(l: Line, page: nat, y: int) {
    && l.page <= page
    && (l.page == page ==> y <= l.y - Advance(l.content.size))
  }

  /** In placed lines every line fits, and any later line follows any
      earlier one: pages only move forward and lines on one page never
      overlap. */
  lemma {:induction false} PlacedOrdered(lines: seq<Line>, i: nat, j: nat)
    requires Placed(lines) && i < j < |lines|
    ensures Fits(lines[i]) && Fits(lines[j])
    ensures Follows(lines[i], lines[j])
    decreases |lines|
  {
    var prefix := lines[..|lines| - 1];
    if j < |lines| - 1 {
      PlacedOrdered(prefix, i, j);
    } else if i < |prefix| - 1 {
      PlacedOrdered(prefix, i, |prefix| - 1);
    } else {
      PlacedFits(prefix, i);
    }
  }

  lemma {:induction false} PlacedFits(lines: seq<Line>, i: nat)
    requires Placed(lines) && i < |lines|
    ensures Fits(lines[i])
    decreases |lines|
  {
    if i < |lines| - 1 {
      PlacedFits(lines[..|lines| - 1], i);
    }
  }

  lemma ContentsAppend(lines: seq<Line>, l: Line)
    ensures Contents(lines + [l]) == Contents(lines) + [l.content]
  {
    assert (lines + [l])[..|lines|] == lines;
  }

  lemma LaidNewPage(lines: seq<Line>, page: nat, y: int)
    requires Laid(lines, page, y)
    ensures Laid(lines, page + 1, PageTop)
  {
  }

  lemma LaidLower(lines: seq<Line>, page: nat, y: int, y': int)
    requires Laid(lines, page, y) && y' <= y
    ensures Laid(lines, page, y')
  {
  }

  /** Drawing at the cursor, when the line fits there, keeps the layout. */
  lemma LaidDraw(lines: seq<Line>, page: nat, y: int, s: Styled)
    requires Laid(lines, page, y)
    requires s.size <= MaxFittingSize ==> y - Advance(s.size) >= Margin
    ensures Laid(lines + [Line(s, page, y)], page, y - Advance(s.size))
  {
    assert (lines + [Line(s, page, y)])[..|lines|] == lines;
  }

  /** The mutable `page` and `y` of `buildProjectSummaryPdf`, with the lines
      drawn so far; `page` counts the pages added after the first. */
  class Cursor {
    var page: nat
    var y: int
    var lines: seq<Line>

    ghost predicate Valid()
      reads this
    {
      Laid(lines, page, y)
    }

    /** The first page, with the cursor at its top. */
    constructor ()
      ensures Valid()
      ensures page == 0 && y == PageTop && lines == []
    {
      page := 0;
      y := PageTop;
      lines := [];
    }

    /** `ensureSpace`: a new page, with the cursor back at the top, exactly
        when less than `required` is left above the margin. */
    method EnsureSpace(required: int)
      requires Valid()
      modifies this
      ensures Valid()
      ensures old(y) - required < Margin ==> page == old(page) + 1 && y == PageTop
      ensures old(y) - required >= Margin ==> page == old(page) && y == old(y)
      ensures y - required >= Margin || PageTop - required < Margin
      ensures lines == old(lines)
    {
      if y - required < Margin {
        LaidNewPage(lines, page, y);
        page := page + 1;
        y := PageTop;
      }
    }

    /** `writeLine`: make room for the line, draw it at the cursor, and move
        the cursor down by exactly the line's advance. */
    method WriteLine(text: string, size: nat)
      requires Valid()
      modifies this
      ensures Valid()
      ensures |lines| == |old(lines)| + 1 && lines == old(lines) + [lines[|old(lines)|]]
      ensures lines[|old(lines)|].content == Styled(text, size)
      ensures Contents(lines) == old(Contents(lines)) + [Styled(text, size)]
      ensures y == lines[|old(lines)|].y - Advance(size)
      ensures page == lines[|old(lines)|].page
      ensures old(y) - Advance(size) < Margin ==> page == old(page) + 1 && lines[|old(lines)|].y == PageTop
      ensures old(y) - Advance(size) >= Margin ==> page == old(page) && lines[|old(lines)|].y == old(y)
    {
      EnsureSpace(Advance(size));
      LaidDraw(lines, page, y, Styled(text, size));
      ContentsAppend(lines, Line(Styled(text, size), page, y));
      lines := lines + [Line(Styled(text, size), page, y)];
      y := y - Advance(size);
    }

    /** The builder's direct `y -= gap`, which starts no page. */
    method Skip(gap: nat)
      requires Valid()
      modifies this
      ensures Valid()
      ensures y == old(y) - gap && page == old(page) && lines == old(lines)
    {
      LaidLower(lines, page, y, y - gap);
      y := y - gap;
    }
  }

  // ---------------------------------------------------------------------------
  // What the summary says
  // ---------------------------------------------------------------------------

  datatype ProjectSummary = ProjectSummary(
    title: string,
    shootDate: Option<string>,
    location: Option<string>,
    status: string)

  datatype SummaryShot = SummaryShot(
    id: string,
    title: string,
    status: string,
    composition_memo: Option<string>,
    sort_order: int)

  datatype SummaryScene = SummaryScene(
    id: string,
    title: string,
    sort_order: int,
    shots: seq<SummaryShot>)

  datatype SummaryComment = SummaryComment(
    body: string,
    created_at: string,
    user_name: Option<string>)

  datatype SummaryInput = SummaryInput(
    project: ProjectSummary,
    scenes: seq<SummaryScene>,
    comments: Option<seq<SummaryComment>>)

  /** The four header lines; `nowIso` is the clock's ISO timestamp. */
  function HeaderLines(p: ProjectSummary, nowIso: string): seq<Styled> {
    [ Styled("Cosplay Shoot Storyboard Export", 18),
      Styled("Project: " + ClampText(p.title, 70), 12),
      Styled("Date: " + p.shootDate.GetOr("-") + "  Location: " + p.location.GetOr("-")
             + "  Status: " + p.status, DefaultSize),
      Styled("Generated at: " + nowIso, DefaultSize) ]
  }

  /** `if (shot.composition_memo)`: present and not the empty string. */
  predicate HasMemo(shot: SummaryShot) {
    shot.composition_memo.Some? && shot.composition_memo.value != []
  }

  const NoShotsText: string := "  (no shots)"

  function ShotLines(shot: SummaryShot): seq<Styled> {
    [Styled("- [" + MapStatus(shot.status) + "] " + ClampText(shot.title, 90), 10)]
    + (if HasMemo(shot)
       then [Styled("  memo: " + ClampText(CollapseSpaces(shot.composition_memo.value), 110), DefaultSize)]
       else [])
  }

  function ShotsLines(shots: seq<SummaryShot>): seq<Styled> {
    if shots == [] then [] else ShotsLines(shots[..|shots| - 1]) + ShotLines(shots[|shots| - 1])
  }

  function SceneHeading(scene: SummaryScene): Styled {
    Styled("Scene " + IntToString(scene.sort_order + 1) + ": " + ClampText(scene.title, 80), 12)
  }

  function SceneLines(scene: SummaryScene): seq<Styled> {
    [SceneHeading(scene)] + (if scene.shots == [] then [Styled(NoShotsText, DefaultSize)] else ShotsLines(scene.shots))
  }

  function ScenesLines(scenes: seq<SummaryScene>): seq<Styled> {
    if scenes == [] then [] else ScenesLines(scenes[..|scenes| - 1]) + SceneLines(scenes[|scenes| - 1])
  }

  /** One comment line; `localeTime` stands for `toLocaleString` of the
      comment's date. */
  function CommentLine(c: SummaryComment, localeTime: string -> string): Styled {
    Styled("- " + c.user_name.GetOr("member") + " (" + localeTime(c.created_at) + "): "
           + ClampText(CollapseSpaces(c.body), 105), DefaultSize)
  }

  function CommentsLines(comments: seq<SummaryComment>, localeTime: string -> string): seq<Styled> {
    if comments == [] then []
    else CommentsLines(comments[..|comments| - 1], localeTime) + [CommentLine(comments[|comments| - 1], localeTime)]
  }

  const CommentsHeading: Styled := Styled("Project Comments", 13)

  function CommentSection(comments: Option<seq<SummaryComment>>, localeTime: string -> string): seq<Styled> {
    if comments.Some? && comments.value != []
    then [CommentsHeading] + CommentsLines(comments.value, localeTime)
    else []
  }

  /** Every line of the summary, in the order the builder draws them. */
  function SummaryLines(input: SummaryInput, nowIso: string, localeTime: string -> string): seq<Styled> {
    HeaderLines(input.project, nowIso) + ScenesLines(input.scenes) + CommentSection(input.comments, localeTime)
  }

  // ---------------------------------------------------------------------------
  // Properties of the line sequence
  // ---------------------------------------------------------------------------

  function MemoCount(shots: seq<SummaryShot>): nat {
    if shots == [] then 0 else MemoCount(shots[..|shots| - 1]) + (if HasMemo(shots[|shots| - 1]) then 1 else 0)
  }

  /** Each shot gives its own line and a memo line exactly when it has a memo. */
  lemma {:induction false} ShotsLinesCount(shots: seq<SummaryShot>)
    ensures |ShotsLines(shots)| == |shots| + MemoCount(shots)
    decreases |shots|
  {
    if shots != [] {
      ShotsLinesCount(shots[..|shots| - 1]);
    }
  }

  /** A scene without shots gives its heading and the one "(no shots)" line. */
  lemma EmptySceneLines(scene: SummaryScene)
    requires scene.shots == []
    ensures SceneLines(scene) == [SceneHeading(scene), Styled(NoShotsText, DefaultSize)]
  {
  }

  /** The "(no shots)" line appears in a scene's lines only when it has no
      shots: a shot's own line starts with "- [" and its memo line with
      "  memo: ". */
  lemma {:induction false} NoShotsOnlyWhenEmpty(shots: seq<SummaryShot>)
    ensures Styled(NoShotsText, DefaultSize) !in ShotsLines(shots)
    decreases |shots|
  {
    if shots != [] {
      var prefix := shots[..|shots| - 1];
      NoShotsOnlyWhenEmpty(prefix);
      NoShotsNotAShotLine(shots[|shots| - 1]);
      NotInAppend(Styled(NoShotsText, DefaultSize), ShotsLines(prefix), ShotLines(shots[|shots| - 1]), ShotsLines(shots));
    }
  }

  lemma NoShotsNotAShotLine(shot: SummaryShot)
    ensures Styled(NoShotsText, DefaultSize) !in ShotLines(shot)
  {
    var own := ShotLines(shot);
    assert own[0].text[0] == '-';
    assert HasMemo(shot) ==> own[1].text[2] == 'm';
  }

  lemma NotInAppend<T>(x: T, a: seq<T>, b: seq<T>, ab: seq<T>)
    requires x !in a && x !in b && ab == a + b
    ensures x !in ab
  {
  }

  /** The comment section is there exactly when there are comments, and then
      holds its heading and one line per comment. */
  lemma {:induction false} CommentSectionCount(comments: Option<seq<SummaryComment>>, localeTime: string -> string)
    ensures |CommentSection(comments, localeTime)| ==
              if comments.Some? && comments.value != [] then 1 + |comments.value| else 0
  {
    if comments.Some? {
      CommentsLinesCount(comments.value, localeTime);
    }
  }

  lemma {:induction false} CommentsLinesCount(comments: seq<SummaryComment>, localeTime: string -> string)
    ensures |CommentsLines(comments, localeTime)| == |comments|
    decreases |comments|
  {
    if comments != [] {
      CommentsLinesCount(comments[..|comments| - 1], localeTime);
    }
  }

  /** The k-th scene's heading is its sort order plus one. */
  lemma {:induction false} SceneHeadingAt(scenes: seq<SummaryScene>, k: nat)
    requires k < |scenes|
    ensures SceneHeading(scenes[k]) in ScenesLines(scenes)
    decreases |scenes|
  {
    if k < |scenes| - 1 {
      SceneHeadingAt(scenes[..|scenes| - 1], k);
      assert scenes[..|scenes| - 1][k] == scenes[k];
    } else {
      assert SceneLines(scenes[k])[0] == SceneHeading(scenes[k]);
    }
  }

  // ---------------------------------------------------------------------------
  // The builder
  // ---------------------------------------------------------------------------

  /** `buildProjectSummaryPdf`, without the rendering: the lines drawn are
      exactly `SummaryLines`, each fits above the bottom margin, none is
      above the top, pages only move forward, and lines on one page never
      overlap. */
  method BuildProjectSummary(input: SummaryInput, nowIso: string, localeTime: string -> string)
    returns (lines: seq<Line>)
    ensures Contents(lines) == SummaryLines(input, nowIso, localeTime)
    ensures Placed(lines)
  {
    var c := new Cursor();
    WriteHeader(c, input.project, nowIso);
    c.Skip(6);
    ghost var header := Contents(c.lines);
    assert header == HeaderLines(input.project, nowIso);

    var i := 0;
    while i < |input.scenes|
      invariant 0 <= i <= |input.scenes|
      invariant c.Valid()
      invariant Contents(c.lines) == header + ScenesLines(input.scenes[..i])
    {
      ghost var done := Contents(c.lines);
      WriteScene(c, input.scenes[i]);
      ScenesStep(input.scenes, i, header, done, Contents(c.lines));
      i := i + 1;
    }
    assert input.scenes[..i] == input.scenes;
    ghost var body := Contents(c.lines);

    if input.comments.Some? && |input.comments.value| > 0 {
      c.EnsureSpace(40);
      c.Skip(4);
      WriteComments(c, input.comments.value, localeTime);
    }
    SummaryBridge(input, nowIso, localeTime, body, Contents(c.lines));
    lines := c.lines;
  }

  /** One more scene extends the lines of the scenes so far. */
  lemma ScenesStep(scenes: seq<SummaryScene>, i: nat, header: seq<Styled>, done: seq<Styled>, after: seq<Styled>)
    requires i < |scenes|
    requires done == header + ScenesLines(scenes[..i])
    requires after == done + SceneLines(scenes[i])
    ensures after == header + ScenesLines(scenes[..i + 1])
  {
    var next := scenes[..i + 1];
    assert ScenesLines(next) == ScenesLines(scenes[..i]) + SceneLines(scenes[i]) by {
      assert next[..|next| - 1] == scenes[..i] && next[|next| - 1] == scenes[i];
    }
    Regroup(header, ScenesLines(scenes[..i]), SceneLines(scenes[i]), ScenesLines(next), after);
  }

  /** `after` is `a + b + c`, and `bc` is `b + c`: then `after` is `a + bc`. */
  lemma Regroup<T>(a: seq<T>, b: seq<T>, c: seq<T>, bc: seq<T>, after: seq<T>)
    requires after == a + b + c && bc == b + c
    ensures after == a + bc
  {
  }

  lemma SummaryBridge(input: SummaryInput, nowIso: string, localeTime: string -> string,
                      body: seq<Styled>, after: seq<Styled>)
    requires body == HeaderLines(input.project, nowIso) + ScenesLines(input.scenes)
    requires input.comments.Some? && input.comments.value != [] ==>
               after == body + [CommentsHeading] + CommentsLines(input.comments.value, localeTime)
    requires !(input.comments.Some? && input.comments.value != []) ==> after == body
    ensures after == SummaryLines(input, nowIso, localeTime)
  {
  }

  /** The four header lines, one `writeLine` each. */
  method WriteHeader(c: Cursor, p: ProjectSummary, nowIso: string)
    requires c.Valid()
    modifies c
    ensures c.Valid()
    ensures Contents(c.lines) == old(Contents(c.lines)) + HeaderLines(p, nowIso)
  {
    c.WriteLine("Cosplay Shoot Storyboard Export", 18);
    c.WriteLine("Project: " + ClampText(p.title, 70), 12);
    c.WriteLine("Date: " + p.shootDate.GetOr("-") + "  Location: " + p.location.GetOr("-")
                + "  Status: " + p.status, DefaultSize);
    c.WriteLine("Generated at: " + nowIso, DefaultSize);
  }

  /** One turn of the scene loop: the heading, then either the "(no shots)"
      line or every shot with its memo, then the 4-point gap. */
  method WriteScene(c: Cursor, scene: SummaryScene)
    requires c.Valid()
    modifies c
    ensures c.Valid()
    ensures Contents(c.lines) == old(Contents(c.lines)) + SceneLines(scene)
  {
    ghost var before := Contents(c.lines);
    c.WriteLine(SceneHeading(scene).text, SceneHeading(scene).size);
    if |scene.shots| == 0 {
      c.WriteLine(NoShotsText, DefaultSize);
      EmptySceneBridge(before, Contents(c.lines), scene);
      c.Skip(4);
      return;
    }
    WriteShots(c, scene.shots);
    SceneBridge(before, Contents(c.lines), scene);
    c.Skip(4);
  }

  lemma SceneBridge(before: seq<Styled>, after: seq<Styled>, scene: SummaryScene)
    requires scene.shots != []
    requires after == before + [SceneHeading(scene)] + ShotsLines(scene.shots)
    ensures after == before + SceneLines(scene)
  {
  }

  lemma EmptySceneBridge(before: seq<Styled>, after: seq<Styled>, scene: SummaryScene)
    requires scene.shots == []
    requires after == before + [SceneHeading(scene)] + [Styled(NoShotsText, DefaultSize)]
    ensures after == before + SceneLines(scene)
  {
  }

  /** The shot loop of one scene. */
  method WriteShots(c: Cursor, shots: seq<SummaryShot>)
    requires c.Valid()
    modifies c
    ensures c.Valid()
    ensures Contents(c.lines) == old(Contents(c.lines)) + ShotsLines(shots)
  {
    ghost var start := Contents(c.lines);
    var j := 0;
    while j < |shots|
      invariant 0 <= j <= |shots|
      invariant c.Valid()
      invariant Contents(c.lines) == start + ShotsLines(shots[..j])
    {
      ghost var done := Contents(c.lines);
      WriteShot(c, shots[j]);
      ShotsStep(shots, j, start, done, Contents(c.lines));
      j := j + 1;
    }
    assert shots[..j] == shots;
  }

  lemma ShotsStep(shots: seq<SummaryShot>, j: nat, start: seq<Styled>, done: seq<Styled>, after: seq<Styled>)
    requires j < |shots|
    requires done == start + ShotsLines(shots[..j])
    requires after == done + ShotLines(shots[j])
    ensures after == start + ShotsLines(shots[..j + 1])
  {
    var next := shots[..j + 1];
    assert ShotsLines(next) == ShotsLines(shots[..j]) + ShotLines(shots[j]) by {
      assert next[..|next| - 1] == shots[..j] && next[|next| - 1] == shots[j];
    }
    Regroup(start, ShotsLines(shots[..j]), ShotLines(shots[j]), ShotsLines(next), after);
  }

  /** One turn of the shot loop: the shot's line and, when it has one, its
      memo with white-space runs collapsed. */
  method WriteShot(c: Cursor, shot: SummaryShot)
    requires c.Valid()
    modifies c
    ensures c.Valid()
    ensures Contents(c.lines) == old(Contents(c.lines)) + ShotLines(shot)
  {
    c.WriteLine("- [" + MapStatus(shot.status) + "] " + ClampText(shot.title, 90), 10);
    if HasMemo(shot) {
      c.WriteLine("  memo: " + ClampText(CollapseSpaces(shot.composition_memo.value), 110), DefaultSize);
    }
  }

  /** The comment section: its heading, then one line per comment. */
  method WriteComments(c: Cursor, comments: seq<SummaryComment>, localeTime: string -> string)
    requires c.Valid()
    modifies c
    ensures c.Valid()
    ensures Contents(c.lines) == old(Contents(c.lines)) + [CommentsHeading] + CommentsLines(comments, localeTime)
  {
    c.WriteLine(CommentsHeading.text, CommentsHeading.size);
    ghost var start := Contents(c.lines);
    var k := 0;
    while k < |comments|
      invariant 0 <= k <= |comments|
      invariant c.Valid()
      invariant Contents(c.lines) == start + CommentsLines(comments[..k], localeTime)
    {
      ghost var done := Contents(c.lines);
      var line := CommentLine(comments[k], localeTime);
      c.WriteLine(line.text, line.size);
      CommentsStep(comments, k, localeTime, start, done, Contents(c.lines));
      k := k + 1;
    }
    assert comments[..k] == comments;
  }

  lemma CommentsStep(comments: seq<SummaryComment>, k: nat, localeTime: string -> string,
                     start: seq<Styled>, done: seq<Styled>, after: seq<Styled>)
    requires k < |comments|
    requires done == start + CommentsLines(comments[..k], localeTime)
    requires after == done + [CommentLine(comments[k], localeTime)]
    ensures after == start + CommentsLines(comments[..k + 1], localeTime)
  {
    var next := comments[..k + 1];
    assert CommentsLines(next, localeTime) == CommentsLines(comments[..k], localeTime) + [CommentLine(comments[k], localeTime)] by {
      assert next[..|next| - 1] == comments[..k] && next[|next| - 1] == comments[k];
    }
    Regroup(start, CommentsLines(comments[..k], localeTime), [CommentLine(comments[k], localeTime)],
            CommentsLines(next, localeTime), after);
  }
}
