/** The pure naming rules of src/lib/drive.ts: escaping a name for a Drive
    search query, sanitising a folder name, the date prefix and the project
    folder name. The Drive API calls themselves are not modelled. */
module Drive {
  import opened Wrappers
  import opened Text
  import opened Constants

  // ---------------------------------------------------------------------------
  // Query escaping: `input.replace(/\\/g, "\\\\").replace(/'/g, "\\'")`
  // ---------------------------------------------------------------------------

  /** The first pass: every backslash is doubled. */
  function EscapeBackslashes(s: string): string {
    if s == [] then []
    else (if s[0] == '\\' then "\\\\" else [s[0]]) + EscapeBackslashes(s[1..])
  }

  /** The second pass: every single quote gets a backslash in front. */
  function EscapeQuotes(s: string): string {
    if s == [] then []
    else (if s[0] == '\'' then "\\'" else [s[0]]) + EscapeQuotes(s[1..])
  }

  /** `escapeDriveQuery`: the two passes, in the source's order. */
  function EscapeDriveQuery(s: string): string {
    EscapeQuotes(EscapeBackslashes(s))
  }

  /** How Drive's query parser reads a quoted literal: a backslash makes the
      next character literal. */
  function Unescape(s: string): string {
    if s == [] then []
    else if s[0] == '\\' && |s| >= 2 then [s[1]] + Unescape(s[2..])
    else [s[0]] + Unescape(s[1..])
  }

  function Count(s: string, c: char): nat {
    if s == [] then 0 else (if s[0] == c then 1 else 0) + Count(s[1..], c)
  }

  /** What the two passes together do to one character. */
  function EscapeChar(c: char): string {
    if c == '\\' then "\\\\" else if c == '\'' then "\\'" else [c]
  }

  lemma {:induction false} EscapeQuotesAppend(a: string, b: string)
    ensures EscapeQuotes(a + b) == EscapeQuotes(a) + EscapeQuotes(b)
    decreases |a|
  {
    if a == [] {
      assert a + b == b;
    } else {
      assert (a + b)[0] == a[0];
      assert (a + b)[1..] == a[1..] + b;
      EscapeQuotesAppend(a[1..], b);
    }
  }

  lemma {:induction false} EscapeDriveQueryCons(s: string)
    requires s != []
    ensures EscapeDriveQuery(s) == EscapeChar(s[0]) + EscapeDriveQuery(s[1..])
  {
    var head := if s[0] == '\\' then "\\\\" else [s[0]];
    EscapeQuotesAppend(head, EscapeBackslashes(s[1..]));
    if s[0] == '\\' {
      assert EscapeQuotes(head) == "\\\\" by {
        assert EscapeQuotes(head[1..]) == EscapeQuotes("\\") by {
          assert head[1..] == "\\";
        }
      }
    }
  }

  /** The escaped text, read back the way Drive reads a quoted literal, is the
      original text: escaping loses nothing and adds nothing. */
  lemma {:induction false} EscapeDriveQueryRoundTrip(s: string)
    ensures Unescape(EscapeDriveQuery(s)) == s
    decreases |s|
  {
    if s != [] {
      EscapeDriveQueryCons(s);
      EscapeDriveQueryRoundTrip(s[1..]);
      var e := EscapeChar(s[0]);
      var t := EscapeDriveQuery(s[1..]);
      if s[0] == '\\' || s[0] == '\'' {
        assert (e + t)[2..] == t;
      } else {
        assert (e + t)[1..] == t;
      }
    }
  }

  /** Escaping adds exactly one character per backslash and per quote. */
  lemma {:induction false} EscapeDriveQueryLength(s: string)
    ensures |EscapeDriveQuery(s)| == |s| + Count(s, '\\') + Count(s, '\'')
    decreases |s|
  {
    if s != [] {
      EscapeDriveQueryCons(s);
      EscapeDriveQueryLength(s[1..]);
    }
  }

  // ---------------------------------------------------------------------------
  // Folder names
  // ---------------------------------------------------------------------------

  /** The characters `sanitizeFolderName` replaces by `_`. */
  predicate IsForbidden(c: char) {
    c == '\\' || c == '/' || c == ':' || c == '*' || c == '?' || c == '"' || c == '<' || c == '>' || c == '|'
  }

  /** `name.replace(/[\\/:*?"<>|]/g, "_")`. */
  function ReplaceForbidden(s: string): (r: string)
    ensures |r| == |s|
  {
    seq(|s|, i requires 0 <= i < |s| => if IsForbidden(s[i]) then '_' else s[i])
  }

  const FolderNameLimit: nat := 80

  /** `sanitizeFolderName`: forbidden characters become `_`, white-space runs
      become one space, the ends are trimmed and the result is cut at 80. */
  function SanitizeFolderName(name: string): (r: string)
    ensures |r| <= FolderNameLimit
  {
    Take(Trim(CollapseSpaces(ReplaceForbidden(name))), FolderNameLimit)
  }

  /** What a sanitised name looks like: at most 80 characters, no forbidden
      character, white space only as single plain spaces, none at the start,
      and none at the end unless the cut at 80 made one the last character. */
  lemma SanitizeFolderNameShape(name: string)
    ensures var r := SanitizeFolderName(name);
            && |r| <= FolderNameLimit
            && ForbiddenFree(r)
            && SingleSpaced(r)
            && NoLeadingSpace(r)
            && (|Trim(CollapseSpaces(ReplaceForbidden(name)))| <= FolderNameLimit ==> NoTrailingSpace(r))
  {
    SanitizeSteps(name);
  }

  predicate ForbiddenFree(s: string) {
    forall i :: 0 <= i < |s| ==> !IsForbidden(s[i])
  }

  /** The facts about each step that `SanitizeFolderName` promises. */
  lemma SanitizeSteps(name: string)
    ensures var trimmed := Trim(CollapseSpaces(ReplaceForbidden(name)));
            var r := Take(trimmed, FolderNameLimit);
            ForbiddenFree(r) && SingleSpaced(r)
  {
    var replaced := ReplaceForbidden(name);
    assert ForbiddenFree(replaced);
    CollapseKeepsForbiddenFree(replaced);
    var collapsed := CollapseSpaces(replaced);
    TrimKeeps(collapsed);
    TakeKeeps(Trim(collapsed));
  }

  lemma TakeKeeps(s: string)
    requires SingleSpaced(s) && ForbiddenFree(s)
    ensures var r := Take(s, FolderNameLimit); ForbiddenFree(r) && SingleSpaced(r)
  {
    var r := Take(s, FolderNameLimit);
    SingleSpacedSlice(s, 0, |r|);
    assert r == s[0..|r|];
  }

  lemma {:induction false} CollapseKeepsForbiddenFree(s: string)
    requires ForbiddenFree(s)
    ensures ForbiddenFree(CollapseSpaces(s))
    decreases |s|
  {
    if s != [] {
      var rest := if IsSpace(s[0]) then TrimStart(s) else s[1..];
      assert ForbiddenFree(rest) by {
        forall i | 0 <= i < |rest| ensures !IsForbidden(rest[i]) {
          assert rest[i] == s[|s| - |rest| + i];
        }
      }
      CollapseKeepsForbiddenFree(rest);
    }
  }

  /** Trimming a single-spaced, forbidden-free text keeps both properties. */
  lemma TrimKeeps(s: string)
    requires SingleSpaced(s) && ForbiddenFree(s)
    ensures SingleSpaced(Trim(s)) && ForbiddenFree(Trim(s))
  {
    var t := TrimStart(s);
    var r := TrimEnd(t);
    assert Trim(s) == r;
    assert t == s[|s| - |t|..|s|];
    SingleSpacedSlice(s, |s| - |t|, |s|);
    ForbiddenFreeSlice(s, |s| - |t|, |s|);
    assert r == t[0..|r|];
    SingleSpacedSlice(t, 0, |r|);
    ForbiddenFreeSlice(t, 0, |r|);
  }

  lemma ForbiddenFreeSlice(s: string, i: nat, j: nat)
    requires i <= j <= |s| && ForbiddenFree(s)
    ensures ForbiddenFree(s[i..j])
  {
    var t := s[i..j];
    forall k | 0 <= k < |t| ensures !IsForbidden(t[k]) {
      assert t[k] == s[i + k];
    }
  }

  /** A name that is already clean (no forbidden character, no white space,
      at most 80 characters) is kept as it is. */
  lemma SanitizeCleanName(name: string)
    requires |name| <= FolderNameLimit
    requires forall i :: 0 <= i < |name| ==> !IsForbidden(name[i]) && !IsSpace(name[i])
    ensures SanitizeFolderName(name) == name
  {
    assert ReplaceForbidden(name) == name;
    CollapseSpacesOfNoSpace(name);
    TrimOfClean(name);
  }

  /** `formatDatePrefix`: the first ten characters of the shoot date, or of
      the clock's ISO timestamp `nowIso` when the date is null or empty. */
  function FormatDatePrefix(input: Option<string>, nowIso: string): (r: string)
    ensures |r| <= 10
    ensures input.Some? && input.value != [] ==> StartsWith(input.value, r) && |r| == Min(10, |input.value|)
    ensures input.None? || input.value == [] ==> StartsWith(nowIso, r) && |r| == Min(10, |nowIso|)
  {
    match input
    case Some(s) => if s == [] then Take(nowIso, 10) else Take(s, 10)
    case None => Take(nowIso, 10)
  }

  function Min(a: int, b: int): int {
    if a <= b then a else b
  }

  /** The folder name built at line 156 of drive.ts:
      `<date prefix>_<sanitised title>_<first 8 characters of the id>`. */
  function ProjectFolderName(shootDate: Option<string>, title: string, projectId: string, nowIso: string): (r: string)
    ensures |r| <= 10 + 1 + FolderNameLimit + 1 + 8
  {
    FormatDatePrefix(shootDate, nowIso) + "_" + SanitizeFolderName(title) + "_" + Take(projectId, 8)
  }

  /** When neither the date prefix nor the id part contains `_` (an ISO date
      and a UUID never do), the date is the text before the first `_`, the
      id part the text after the last, and the sanitised title what lies
      between: the folder name can be taken apart again. */
  lemma ProjectFolderNameDecodes(shootDate: Option<string>, title: string, projectId: string, nowIso: string)
    requires '_' !in FormatDatePrefix(shootDate, nowIso)
    requires '_' !in Take(projectId, 8)
    ensures var r := ProjectFolderName(shootDate, title, projectId, nowIso);
            var p := FormatDatePrefix(shootDate, nowIso);
            var id := Take(projectId, 8);
            && BeforeFirst(r, '_') == p
            && AfterLast(r, '_') == id
            && |p| + |id| + 2 <= |r|
            && Between(r, |p| + 1, |id| + 1) == SanitizeFolderName(title)
  {
    var p := FormatDatePrefix(shootDate, nowIso);
    var mid := SanitizeFolderName(title);
    var id := Take(projectId, 8);
    var r := ProjectFolderName(shootDate, title, projectId, nowIso);
    assert r == p + "_" + mid + "_" + id;
    SplitParts(p, mid, id, r);
    assert Between(r, |p| + 1, |id| + 1) == mid;
  }

  /** The text left when `front` characters are cut from the start of `s`
      and `back` from its end. */
  function Between(s: string, front: nat, back: nat): (r: string)
    requires front + back <= |s|
    ensures |r| == |s| - front - back
  {
    s[front..|s| - back]
  }

  lemma SplitParts(p: string, mid: string, id: string, r: string)
    requires '_' !in p && '_' !in id
    requires r == p + "_" + mid + "_" + id
    ensures BeforeFirst(r, '_') == p
    ensures AfterLast(r, '_') == id
    ensures r[|p| + 1..|r| - |id| - 1] == mid
  {
    FirstPart(p, mid, id, r);
    LastPart(p, mid, id, r);
    MiddlePart(p, mid, id, r);
  }

  lemma FirstPart(p: string, mid: string, id: string, r: string)
    requires '_' !in p
    requires r == p + "_" + mid + "_" + id
    ensures BeforeFirst(r, '_') == p
  {
    assert r == p + ("_" + mid + "_" + id);
    BeforeFirstAppend(p, "_" + mid + "_" + id, '_');
  }

  lemma LastPart(p: string, mid: string, id: string, r: string)
    requires '_' !in id
    requires r == p + "_" + mid + "_" + id
    ensures AfterLast(r, '_') == id
  {
    assert r == (p + "_" + mid) + ['_'] + id;
    AfterLastAppend(p + "_" + mid, id, '_');
  }

  lemma MiddlePart(p: string, mid: string, id: string, r: string)
    requires r == p + "_" + mid + "_" + id
    ensures r[|p| + 1..|r| - |id| - 1] == mid
  {
    assert r == (p + "_") + mid + ("_" + id);
  }

  /** `s.split(sep).pop()`: the text after the last `sep`, or all of `s`. */
  function AfterLast(s: string, sep: char): (r: string)
    ensures EndsWith(s, r)
    ensures sep !in r
  {
    if s == [] then []
    else if s[|s| - 1] == sep then []
    else AfterLast(s[..|s| - 1], sep) + [s[|s| - 1]]
  }

  lemma {:induction false} AfterLastAppend(front: string, id: string, sep: char)
    requires sep !in id
    ensures AfterLast(front + [sep] + id, sep) == id
    decreases |id|
  {
    var s := front + [sep] + id;
    if id == [] {
      assert s[|s| - 1] == sep;
    } else {
      assert s[..|s| - 1] == front + [sep] + id[..|id| - 1];
      AfterLastAppend(front, id[..|id| - 1], sep);
      assert id == id[..|id| - 1] + [id[|id| - 1]];
    }
  }

  /** `ensureProjectSubfolder` resolves either a key of
      `DRIVE_PROJECT_SUBFOLDERS` to its folder name or takes the argument as a
      folder name; either way the name is one of the four folders. */
  function ResolveSubfolderName(s: string): (r: string)
    ensures (exists f :: s == SubfolderKey(f) || s == SubfolderName(f)) ==> exists f :: r == SubfolderName(f)
    ensures forall f :: s == SubfolderKey(f) ==> r == SubfolderName(f)
    ensures (forall f :: s != SubfolderKey(f)) ==> r == s
  {
    if s == "refs" then SubfolderName(Refs)
    else if s == "edits" then SubfolderName(Edits)
    else if s == "diagrams" then SubfolderName(Diagrams)
    else if s == "exports" then SubfolderName(Exports)
    else s
  }
}
