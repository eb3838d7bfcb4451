/** String operations of JavaScript's `String.prototype` that the modelled code
    relies on: `trim`, the `\s` character class, `toLowerCase`, `startsWith`,
    `endsWith`, `slice(0, n)`, `split("@")[0]` and `replace(/\s+/g, " ")`. */
module Text {

  /** The characters that JavaScript's `\s` class and `String.prototype.trim`
      treat as white space (WhiteSpace and LineTerminator of ECMA-262). */
  predicate IsSpace(c: char) {
    || c == ' ' || c == '\t' || c == '\n' || c == '\r'
    || c == '\U{000B}' || c == '\U{000C}' || c == '\U{00A0}' || c == '\U{1680}'
    || ('\U{2000}' <= c <= '\U{200A}')
    || c == '\U{2028}' || c == '\U{2029}' || c == '\U{202F}' || c == '\U{205F}'
    || c == '\U{3000}' || c == '\U{FEFF}'
  }

  predicate NoLeadingSpace(s: string) {
    s == [] || !IsSpace(s[0])
  }

  predicate NoTrailingSpace(s: string) {
    s == [] || !IsSpace(s[|s| - 1])
  }

  /** Every white-space character is a plain space, and no two are adjacent. */
  ghost predicate SingleSpaced(s: string) {
    && (forall i :: 0 <= i < |s| && IsSpace(s[i]) ==> s[i] == ' ')
    && (forall i, j :: 0 <= i < j < |s| && j == i + 1 ==> !(IsSpace(s[i]) && IsSpace(s[j])))
  }

  /** Drops leading white space: what is left is a suffix, and everything
      dropped was white space. */
  function TrimStart(s: string): (r: string)
    ensures |r| <= |s| && r == s[|s| - |r|..]
    ensures forall i :: 0 <= i < |s| - |r| ==> IsSpace(s[i])
    ensures NoLeadingSpace(r)
  {
    if s != [] && IsSpace(s[0]) then TrimStart(s[1..]) else s
  }

  /** Drops trailing white space: what is left is a prefix, and everything
      dropped was white space. */
  function TrimEnd(s: string): (r: string)
    ensures |r| <= |s| && r == s[..|r|]
    ensures forall i :: |r| <= i < |s| ==> IsSpace(s[i])
    ensures NoTrailingSpace(r)
  {
    if s != [] && IsSpace(s[|s| - 1]) then TrimEnd(s[..|s| - 1]) else s
  }

  /** `String.prototype.trim`: the result is the slice of `s` left after
      dropping white space from both ends, and it starts and ends with a
      character that is not white space. */
  function Trim(s: string): (r: string)
    ensures NoLeadingSpace(r) && NoTrailingSpace(r)
    ensures exists i :: TrimmedAt(s, r, i)
  {
    TrimAt(s);
    TrimEnd(TrimStart(s))
  }

  lemma TrimAt(s: string)
    ensures var t := TrimStart(s);
            NoLeadingSpace(TrimEnd(t)) && TrimmedAt(s, TrimEnd(t), |s| - |t|)
  {
    TrimStartsClean(s);
    TrimIsSlice(s);
    TrimSpaceBefore(s);
    TrimSpaceAfter(s);
  }

  lemma TrimStartsClean(s: string)
    ensures var t := TrimStart(s); NoLeadingSpace(TrimEnd(t))
  {
    var t := TrimStart(s);
    var r := TrimEnd(t);
    assert r != [] ==> r[0] == t[0];
  }

  lemma TrimIsSlice(s: string)
    ensures var t := TrimStart(s);
            var r := TrimEnd(t);
            var i := |s| - |t|;
            0 <= i <= |s| - |r| && r == s[i..i + |r|]
  {
    var t := TrimStart(s);
    var r := TrimEnd(t);
    var i := |s| - |t|;
    SliceOfSuffix(s, i, |r|);
  }

  lemma TrimSpaceBefore(s: string)
    ensures var t := TrimStart(s); var i := |s| - |t|; forall k :: 0 <= k < i ==> IsSpace(s[k])
  {
  }

  lemma TrimSpaceAfter(s: string)
    ensures var t := TrimStart(s);
            var r := TrimEnd(t);
            var i := |s| - |t|;
            i + |r| <= |s| && forall k :: i + |r| <= k < |s| ==> IsSpace(s[k])
  {
    var t := TrimStart(s);
    var r := TrimEnd(t);
    var i := |s| - |t|;
    SpaceAfterShift(s, i, |r|);
  }

  lemma SliceOfSuffix(s: string, i: nat, n: nat)
    requires i + n <= |s|
    ensures s[i..][..n] == s[i..i + n]
  {
  }

  lemma SpaceAfterShift(s: string, i: nat, n: nat)
    requires i + n <= |s|
    requires forall k :: n <= k < |s[i..]| ==> IsSpace(s[i..][k])
    ensures forall k :: i + n <= k < |s| ==> IsSpace(s[k])
  {
    forall k | i + n <= k < |s|
      ensures IsSpace(s[k])
    {
      assert s[k] == s[i..][k - i];
    }
  }

  /** `r` is the slice of `s` at `i`, with only white space before and
      after it. */
  predicate TrimmedAt(s: string, r: string, i: int) {
    && 0 <= i <= |s| - |r| && r == s[i..i + |r|]
    && (forall k :: 0 <= k < i ==> IsSpace(s[k]))
    && (forall k :: i + |r| <= k < |s| ==> IsSpace(s[k]))
  }

  /** The converse: white space around a text without white space at its
      ends is exactly what `trim` removes. */
  lemma TrimOfPadded(a: string, t: string, b: string)
    requires forall k :: 0 <= k < |a| ==> IsSpace(a[k])
    requires forall k :: 0 <= k < |b| ==> IsSpace(b[k])
    requires NoLeadingSpace(t) && NoTrailingSpace(t)
    ensures Trim(a + t + b) == t
  {
    var s := a + t + b;
    PaddedIsTrimmedAt(a, t, b);
    var i :| TrimmedAt(s, Trim(s), i);
    TrimmedAtUnique(s, Trim(s), i, t, |a|);
  }

  lemma PaddedIsTrimmedAt(a: string, t: string, b: string)
    requires forall k :: 0 <= k < |a| ==> IsSpace(a[k])
    requires forall k :: 0 <= k < |b| ==> IsSpace(b[k])
    ensures TrimmedAt(a + t + b, t, |a|)
  {
    var s := a + t + b;
    assert s[|a|..|a| + |t|] == t;
    assert forall k :: 0 <= k < |a| ==> s[k] == a[k];
    assert forall k :: |a| + |t| <= k < |s| ==> s[k] == b[k - |a| - |t|];
  }

  /** Only one slice without white space at its ends has nothing but white
      space around it. */
  lemma TrimmedAtUnique(s: string, r: string, i: int, r2: string, i2: int)
    requires TrimmedAt(s, r, i) && NoLeadingSpace(r) && NoTrailingSpace(r)
    requires TrimmedAt(s, r2, i2) && NoLeadingSpace(r2) && NoTrailingSpace(r2)
    ensures r == r2
  {
    assert r != [] ==> s[i] == r[0] && s[i + |r| - 1] == r[|r| - 1];
    assert r2 != [] ==> s[i2] == r2[0] && s[i2 + |r2| - 1] == r2[|r2| - 1];
    assert r != [] && r2 != [] ==> i == i2 && |r| == |r2|;
  }


  lemma TrimStartOfClean(s: string)
    requires NoLeadingSpace(s)
    ensures TrimStart(s) == s
  {
  }

  lemma TrimEndOfClean(s: string)
    requires NoTrailingSpace(s)
    ensures TrimEnd(s) == s
  {
  }

  /** A string with no white space at either end is its own trim. */
  lemma TrimOfClean(s: string)
    requires NoLeadingSpace(s) && NoTrailingSpace(s)
    ensures Trim(s) == s
  {
    TrimStartOfClean(s);
    TrimEndOfClean(s);
  }

  lemma TrimIdempotent(s: string)
    ensures Trim(Trim(s)) == Trim(s)
  {
    TrimOfClean(Trim(s));
  }

  /** ASCII letters only: see README, "Left out". */
  function LowerChar(c: char): char {
    if 'A' <= c <= 'Z' then (c as int + 32) as char else c
  }

  /** `String.prototype.toLowerCase`, on ASCII letters. */
  function ToLower(s: string): (r: string)
    ensures |r| == |s|
  {
    seq(|s|, i requires 0 <= i < |s| => LowerChar(s[i]))
  }

  lemma ToLowerIdempotent(s: string)
    ensures ToLower(ToLower(s)) == ToLower(s)
  {
  }

  lemma ToLowerSlice(s: string, i: nat, j: nat)
    requires i <= j <= |s|
    ensures ToLower(s)[i..j] == ToLower(s[i..j])
  {
  }

  lemma LowerCharSpace(c: char)
    ensures IsSpace(LowerChar(c)) == IsSpace(c)
  {
  }

  lemma {:induction false} TrimStartToLower(s: string)
    ensures TrimStart(ToLower(s)) == ToLower(TrimStart(s))
    decreases |s|
  {
    if s != [] {
      ToLowerCons(s);
      TrimStartStep(s);
      TrimStartStep(ToLower(s));
      if IsSpace(s[0]) {
        TrimStartToLower(s[1..]);
      }
    }
  }

  /** Lower-casing takes the first character apart from the rest. */
  lemma ToLowerCons(s: string)
    requires s != []
    ensures ToLower(s) != [] && ToLower(s)[0] == LowerChar(s[0]) && ToLower(s)[1..] == ToLower(s[1..])
    ensures IsSpace(ToLower(s)[0]) == IsSpace(s[0])
  {
    LowerCharSpace(s[0]);
  }

  /** One step of `TrimStart`. */
  lemma TrimStartStep(s: string)
    requires s != []
    ensures IsSpace(s[0]) ==> TrimStart(s) == TrimStart(s[1..])
    ensures !IsSpace(s[0]) ==> TrimStart(s) == s
  {
  }

  lemma {:induction false} TrimEndToLower(s: string)
    ensures TrimEnd(ToLower(s)) == ToLower(TrimEnd(s))
    decreases |s|
  {
    if s != [] {
      LowerCharSpace(s[|s| - 1]);
      assert ToLower(s)[|s| - 1] == LowerChar(s[|s| - 1]);
      if IsSpace(s[|s| - 1]) {
        ToLowerSlice(s, 0, |s| - 1);
        TrimEndToLower(s[..|s| - 1]);
      }
    }
  }

  /** Lower-casing never turns a letter into white space or back, so it
      commutes with trimming. */
  lemma TrimToLower(s: string)
    ensures Trim(ToLower(s)) == ToLower(Trim(s))
  {
    TrimStartToLower(s);
    TrimEndToLower(TrimStart(s));
  }

  predicate StartsWith(s: string, prefix: string) {
    |prefix| <= |s| && s[..|prefix|] == prefix
  }

  predicate EndsWith(s: string, suffix: string) {
    |suffix| <= |s| && s[|s| - |suffix|..] == suffix
  }

  /** `s.slice(0, n)` for a non-negative `n`. */
  function Take(s: string, n: nat): (r: string)
    ensures |r| == if |s| <= n then |s| else n
    ensures StartsWith(s, r)
  {
    if |s| <= n then s else s[..n]
  }

  /** `s.split(sep)[0]`: the text before the first `sep`, or all of `s`. */
  function BeforeFirst(s: string, sep: char): (r: string)
    ensures StartsWith(s, r)
    ensures sep !in r
    ensures |r| < |s| ==> s[|r|] == sep
  {
    if s == [] then []
    else if s[0] == sep then []
    else [s[0]] + BeforeFirst(s[1..], sep)
  }

  /** `BeforeFirst` stops at the first separator written after a prefix
      that has none. */
  lemma {:induction false} BeforeFirstAppend(p: string, rest: string, sep: char)
    requires sep !in p && rest != [] && rest[0] == sep
    ensures BeforeFirst(p + rest, sep) == p
    decreases |p|
  {
    if p == [] {
      assert (p + rest)[0] == sep;
    } else {
      assert (p + rest)[1..] == p[1..] + rest;
      BeforeFirstAppend(p[1..], rest, sep);
    }
  }

  /** `s.replace(/\s+/g, " ")`: every maximal run of white space becomes one
      plain space. */
  function CollapseSpaces(s: string): (r: string)
    ensures SingleSpaced(r)
    ensures r == [] <==> s == []
    ensures r != [] ==> (IsSpace(r[0]) <==> IsSpace(s[0]))
    ensures r != [] ==> (IsSpace(r[|r| - 1]) <==> IsSpace(s[|s| - 1]))
    decreases |s|
  {
    if s == [] then []
    else
      var head := if IsSpace(s[0]) then ' ' else s[0];
      var rest := if IsSpace(s[0]) then TrimStart(s) else s[1..];
      assert IsSpace(s[0]) && rest != [] ==> rest[|rest| - 1] == s[|s| - 1];
      assert !IsSpace(s[0]) && rest != [] ==> rest[|rest| - 1] == s[|s| - 1];
      var tail := CollapseSpaces(rest);
      SingleSpacedCons(head, tail);
      [head] + tail
  }

  /** The collapse read one character at a time, as the regular expression
      matches: a white-space character yields a plain space unless the one
      before it was white space, and any other character is copied. */
  function CollapseScan(s: string, afterSpace: bool): string {
    if s == [] then []
    else if IsSpace(s[0]) then (if afterSpace then [] else " ") + CollapseScan(s[1..], true)
    else [s[0]] + CollapseScan(s[1..], false)
  }

  lemma {:induction false} CollapseScanAfterSpace(s: string)
    ensures CollapseScan(s, true) == CollapseScan(TrimStart(s), false)
    decreases |s|
  {
    if s != [] && IsSpace(s[0]) {
      CollapseScanAfterSpace(s[1..]);
    }
  }

  /** Collapsing agrees with the character-by-character reading. */
  lemma {:induction false} CollapseSpacesIsScan(s: string)
    ensures CollapseSpaces(s) == CollapseScan(s, false)
    decreases |s|
  {
    if s != [] {
      if IsSpace(s[0]) {
        CollapseSpacesIsScan(TrimStart(s));
        CollapseScanAfterSpace(s[1..]);
      } else {
        CollapseSpacesIsScan(s[1..]);
      }
    }
  }

  lemma SingleSpacedCons(head: char, tail: string)
    requires SingleSpaced(tail)
    requires IsSpace(head) ==> head == ' ' && NoLeadingSpace(tail)
    ensures SingleSpaced([head] + tail)
  {
    var r := [head] + tail;
    forall i, j | 0 <= i < j < |r| && j == i + 1 ensures !(IsSpace(r[i]) && IsSpace(r[j])) {
      if i > 0 {
        assert r[i] == tail[i - 1] && r[j] == tail[j - 1];
      }
    }
  }

  /** On text without white space the collapse changes nothing. */
  lemma {:induction false} CollapseSpacesOfNoSpace(s: string)
    requires forall i :: 0 <= i < |s| ==> !IsSpace(s[i])
    ensures CollapseSpaces(s) == s
    decreases |s|
  {
    if s != [] {
      CollapseSpacesOfNoSpace(s[1..]);
    }
  }

  lemma SingleSpacedSlice(s: string, i: nat, j: nat)
    requires i <= j <= |s| && SingleSpaced(s)
    ensures SingleSpaced(s[i..j])
  {
    var t := s[i..j];
    forall k, l | 0 <= k < l < |t| && l == k + 1 ensures !(IsSpace(t[k]) && IsSpace(t[l])) {
      assert t[k] == s[i + k] && t[l] == s[i + l];
    }
  }

  /** The number a string of decimal digits denotes. */
  function DigitsValue(r: string): int {
    if r == [] then 0 else DigitsValue(r[..|r| - 1]) * 10 + (r[|r| - 1] as int - '0' as int)
  }

  /** The decimal text of a natural number: digits that denote it, with a
      leading zero only for zero itself. */
  function NatToString(n: nat): (r: string)
    ensures r != []
    ensures forall i :: 0 <= i < |r| ==> '0' <= r[i] <= '9'
    ensures DigitsValue(r) == n
    ensures r[0] == '0' <==> n == 0
  {
    var d := ['0' + (n % 10) as char];
    if n < 10 then d
    else
      var r := NatToString(n / 10) + d;
      assert r[..|r| - 1] == NatToString(n / 10);
      r
  }

  /** The decimal text of an integer, as template literals produce it. */
  function IntToString(n: int): (r: string)
    ensures r != []
  {
    if n < 0 then "-" + NatToString(-n) else NatToString(n)
  }
}
