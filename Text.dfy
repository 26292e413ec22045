/** String helpers shared by the model: the whitespace sets of JavaScript and
    Python, trimming, ASCII case mapping, substring search, split and join,
    and decimal rendering of integers. Strings are sequences of Unicode
    scalar values, as in Python 3; JavaScript strings are treated the same way. */
module Text {

  datatype Option<T> = None | Some(value: T) {
    function GetOr(default: T): T {
      match this
      case Some(v) => v
      case None => default
    }
  }

  // ---------------------------------------------------------------------------
  // Whitespace

  /** The characters JavaScript's `\s` and `String.prototype.trim` treat as
      white space (WhiteSpace and LineTerminator of ECMA-262). */
  predicate JsSpace(c: char) {
    c == '\t' || c == '\n' || c == '\U{0B}' || c == '\U{0C}' || c == '\r' || c == ' '
    || c == '\U{A0}' || c == '\U{1680}' || ('\U{2000}' <= c <= '\U{200A}')
    || c == '\U{2028}' || c == '\U{2029}' || c == '\U{202F}' || c == '\U{205F}'
    || c == '\U{3000}' || c == '\U{FEFF}'
  }

  /** The characters for which Python's `str.isspace` holds, which are those
      `str.strip()` removes. */
  predicate PySpace(c: char) {
    c == '\t' || c == '\n' || c == '\U{0B}' || c == '\U{0C}' || c == '\r'
    || ('\U{1C}' <= c <= '\U{1F}') || c == ' ' || c == '\U{85}' || c == '\U{A0}'
    || c == '\U{1680}' || ('\U{2000}' <= c <= '\U{200A}') || c == '\U{2028}'
    || c == '\U{2029}' || c == '\U{202F}' || c == '\U{205F}' || c == '\U{3000}'
  }

  /** JavaScript's line terminators, the characters `.` in a regular
      expression does not match. */
  predicate JsLineTerminator(c: char) {
    c == '\n' || c == '\r' || c == '\U{2028}' || c == '\U{2029}'
  }

  predicate AllSatisfy(s: string, p: char -> bool) {
    forall i :: 0 <= i < |s| ==> p(s[i])
  }

  /** A slice all of whose characters satisfy `p`, index by index. */
  lemma AllSatisfySlice(s: string, i: nat, j: nat, p: char -> bool)
    requires i <= j <= |s|
    requires forall k :: i <= k < j ==> p(s[k])
    ensures AllSatisfy(s[i..j], p)
  {
    forall k | 0 <= k < j - i ensures p(s[i..j][k]) {
      assert s[i..j][k] == s[i + k];
    }
  }

  /** The number of leading characters of `s` that satisfy `ws`. */
  function LeadingCount(s: string, ws: char -> bool): (n: nat)
    ensures n <= |s|
    ensures forall i :: 0 <= i < n ==> ws(s[i])
    ensures n < |s| ==> !ws(s[n])
  {
    if s == [] || !ws(s[0]) then 0
    else
      var m := LeadingCount(s[1..], ws);
      assert forall i :: 1 <= i < m + 1 ==> s[i] == s[1..][i - 1];
      m + 1
  }

  /** The number of trailing characters of `s` that satisfy `ws`. */
  function TrailingCount(s: string, ws: char -> bool): (n: nat)
    ensures n <= |s|
    ensures forall i :: |s| - n <= i < |s| ==> ws(s[i])
    ensures n < |s| ==> !ws(s[|s| - n - 1])
  {
    if s == [] || !ws(s[|s| - 1]) then 0
    else TrailingCount(s[..|s| - 1], ws) + 1
  }

  /** Removes the white space (as `ws` defines it) at both ends of `s`: the
      result is the slice of `s` between its leading and trailing white space;
      it is empty exactly when `s` is all white space, and otherwise neither
      begins nor ends with white space. */
  function TrimBy(s: string, ws: char -> bool): (r: string)
    ensures |r| <= |s|
    ensures r != [] ==> !ws(r[0]) && !ws(r[|r| - 1])
    ensures r == [] <==> AllSatisfy(s, ws)
  {
    TrimFacts(s, ws);
    var a := s[LeadingCount(s, ws)..];
    a[..|a| - TrailingCount(a, ws)]
  }

  lemma TrimFacts(s: string, ws: char -> bool)
    ensures
      var a := s[LeadingCount(s, ws)..];
      var r := a[..|a| - TrailingCount(a, ws)];
      && |r| <= |s|
      && (r != [] ==> !ws(r[0]) && !ws(r[|r| - 1]))
      && (r == [] <==> AllSatisfy(s, ws))
  {
    var i := LeadingCount(s, ws);
    var a := s[i..];
    var t := TrailingCount(a, ws);
    var r := a[..|a| - t];
    if r == [] {
      assert |a| == t;
      assert i == |s|;
    } else {
      assert i < |s|;
      assert r[0] == s[i];
      assert r[|r| - 1] == a[|a| - t - 1];
      assert !AllSatisfy(s, ws) by { assert !ws(s[i]); }
    }
  }

  /** Trimming keeps a contiguous slice of `s`, so whatever does not occur in
      `s` does not occur in the result either. */
  lemma TrimKeepsAbsence(s: string, ws: char -> bool, sub: string)
    requires !Contains(s, sub)
    ensures !Contains(TrimBy(s, ws), sub)
  {
    var r := TrimBy(s, ws);
    var i := TrimIsSlice(s, ws);
    forall k: nat | k <= |r| ensures !OccursAt(r, sub, k) {
      OccursInSlice(s, i, i + |r|, sub, k);
    }
  }

  /** Trimming keeps the slice of `s` that starts at `i`. */
  lemma TrimIsSlice(s: string, ws: char -> bool) returns (i: nat)
    ensures i + |TrimBy(s, ws)| <= |s| && TrimBy(s, ws) == s[i..i + |TrimBy(s, ws)|]
  {
    i := LeadingCount(s, ws);
    var a := s[i..];
    var r := a[..|a| - TrailingCount(a, ws)];
    assert r == TrimBy(s, ws);
    SliceOfSlice(s, i, |s|, 0, |r|);
  }

  /** An occurrence in a slice is an occurrence in the whole. */
  lemma OccursInSlice(s: string, i: nat, j: nat, sub: string, k: nat)
    requires i <= j <= |s|
    ensures OccursAt(s[i..j], sub, k) ==> OccursAt(s, sub, i + k)
  {
    if OccursAt(s[i..j], sub, k) {
      SliceOfSlice(s, i, j, k, k + |sub|);
    }
  }

  /** A slice of a slice is a slice of the whole. */
  lemma SliceOfSlice(s: string, i: nat, j: nat, k: nat, l: nat)
    requires i <= j <= |s| && k <= l <= j - i
    ensures s[i..j][k..l] == s[i + k..i + l]
  {
    forall m | 0 <= m < l - k ensures s[i..j][k..l][m] == s[i + k..i + l][m] {
    }
  }

  /** JavaScript `String.prototype.trim`. */
  function JsTrim(s: string): (r: string)
    ensures r == [] <==> AllSatisfy(s, JsSpace)
  {
    TrimBy(s, JsSpace)
  }

  /** Python `str.strip()` with no argument. */
  function PyStrip(s: string): (r: string)
    ensures r == [] <==> AllSatisfy(s, PySpace)
    ensures r != [] ==> !PySpace(r[0]) && !PySpace(r[|r| - 1])
  {
    TrimBy(s, PySpace)
  }

  // ---------------------------------------------------------------------------
  // ASCII case mapping

  function LowerChar(c: char): char {
    if 'A' <= c <= 'Z' then (c as int + 32) as char else c
  }

  function UpperChar(c: char): char {
    if 'a' <= c <= 'z' then (c as int - 32) as char else c
  }

  /** Lower-casing restricted to ASCII letters. */
  function ToLower(s: string): (r: string)
    ensures |r| == |s|
    ensures forall i :: 0 <= i < |s| ==> r[i] == LowerChar(s[i])
  {
    seq(|s|, i requires 0 <= i < |s| => LowerChar(s[i]))
  }

  /** Upper-casing restricted to ASCII letters. */
  function ToUpper(s: string): (r: string)
    ensures |r| == |s|
    ensures forall i :: 0 <= i < |s| ==> r[i] == UpperChar(s[i])
  {
    seq(|s|, i requires 0 <= i < |s| => UpperChar(s[i]))
  }

  // ---------------------------------------------------------------------------
  // Substrings

  /** `sub` occurs in `s` starting at index `i`. */
  predicate OccursAt(s: string, sub: string, i: nat) {
    i + |sub| <= |s| && s[i..i + |sub|] == sub
  }

  /** Substring containment (`sub in s`, `s.includes(sub)`). */
  predicate Contains(s: string, sub: string) {
    exists i: nat | i <= |s| :: OccursAt(s, sub, i)
  }

  predicate StartsWith(s: string, prefix: string) {
    |prefix| <= |s| && s[..|prefix|] == prefix
  }

  lemma OccursInPrefix(a: string, b: string, sub: string, i: nat)
    requires i + |sub| <= |a|
    ensures OccursAt(a + b, sub, i) <==> OccursAt(a, sub, i)
  {
    assert (a + b)[i..i + |sub|] == a[i..i + |sub|];
  }

  lemma OccursInSuffix(a: string, b: string, sub: string, i: nat)
    ensures OccursAt(a + b, sub, |a| + i) <==> OccursAt(b, sub, i)
  {
    if |a| + i + |sub| <= |a + b| {
      assert (a + b)[|a| + i..|a| + i + |sub|] == b[i..i + |sub|];
    }
  }

  lemma ContainsWitness(s: string, sub: string, i: nat)
    requires OccursAt(s, sub, i)
    ensures Contains(s, sub)
  {
  }

  /** A string cannot contain `sub` when one of the characters of `sub`
      never occurs in it. */
  lemma MissingCharNotContained(s: string, sub: string, m: nat)
    requires m < |sub| && forall i :: 0 <= i < |s| ==> s[i] != sub[m]
    ensures !Contains(s, sub)
  {
    forall i: nat | i <= |s| ensures !OccursAt(s, sub, i) {
      if i + |sub| <= |s| {
        assert s[i..i + |sub|][m] == s[i + m];
      }
    }
  }

  /** The first index at or after `from` where `sub` occurs in `s`. */
  function IndexOf(s: string, sub: string, from: nat): (r: Option<nat>)
    ensures r.Some? ==> from <= r.value && OccursAt(s, sub, r.value)
                        && forall k :: from <= k < r.value ==> !OccursAt(s, sub, k)
    ensures r.None? ==> forall k: nat :: from <= k ==> !OccursAt(s, sub, k)
    decreases |s| + 1 - from
  {
    if from + |sub| > |s| then None
    else if OccursAt(s, sub, from) then Some(from)
    else IndexOf(s, sub, from + 1)
  }

  /** JavaScript `s.substring(start)` and `s.substring(start, end)`: both
      bounds are clamped to `[0, |s|]` and swapped when out of order. */
  function JsSubstring(s: string, start: int, end: int): (r: string)
    ensures |r| <= |s|
  {
    var a := if start < 0 then 0 else if start > |s| then |s| else start;
    var b := if end < 0 then 0 else if end > |s| then |s| else end;
    if a <= b then s[a..b] else s[b..a]
  }

  // ---------------------------------------------------------------------------
  // Split and join

  /** Python `s.split(sep)` (and JavaScript `s.split(sep)`) for a non-empty
      separator: the pieces between successive non-overlapping occurrences,
      scanned from the left. */
  function Split(s: string, sep: string): (r: seq<string>)
    requires |sep| > 0
    ensures |r| >= 1
    ensures forall k :: 0 <= k < |r| ==> !Contains(r[k], sep)
    decreases |s|
  {
    match IndexOf(s, sep, 0)
    case None => [s]
    case Some(k) =>
      var rest := Split(s[k + |sep|..], sep);
      assert !Contains(s[..k], sep) by {
        forall j: nat | j <= k ensures !OccursAt(s[..k], sep, j) {
          assert s[..k] + s[k..] == s;
          if j + |sep| <= k { OccursInPrefix(s[..k], s[k..], sep, j); }
        }
      }
      [s[..k]] + rest
  }

  /** `parts` joined with `sep` between consecutive elements (`sep.join(parts)`). */
  function Join(parts: seq<string>, sep: string): (r: string)
    ensures parts == [] ==> r == []
    ensures |parts| == 1 ==> r == parts[0]
  {
    if parts == [] then []
    else if |parts| == 1 then parts[0]
    else parts[0] + sep + Join(parts[1..], sep)
  }

  /** Joining one more part appends the separator and that part. */
  lemma {:induction false} JoinSnoc(parts: seq<string>, p: string, sep: string)
    requires parts != []
    ensures Join(parts + [p], sep) == Join(parts, sep) + sep + p
    decreases |parts|
  {
    if |parts| == 1 {
      assert (parts + [p])[1..] == [p];
    } else {
      assert (parts + [p])[1..] == parts[1..] + [p];
      JoinSnoc(parts[1..], p, sep);
    }
  }

  /** A join of non-empty parts begins with the first character of the first
      part and ends with the last character of the last part. */
  lemma {:induction false} JoinEnds(parts: seq<string>, sep: string)
    requires parts != [] && forall k :: 0 <= k < |parts| ==> parts[k] != []
    ensures Join(parts, sep) != []
    ensures Join(parts, sep)[0] == parts[0][0]
    ensures Join(parts, sep)[|Join(parts, sep)| - 1] == parts[|parts| - 1][|parts[|parts| - 1]| - 1]
    decreases |parts|
  {
    if |parts| > 1 {
      JoinEnds(parts[1..], sep);
    }
  }

  /** No occurrence of `sep` in `p + sep` starts inside `p`: once `p` is
      followed by `sep`, the first occurrence is exactly at `|p|`. */
  predicate EndsCleanly(p: string, sep: string) {
    forall k: nat :: k < |p| ==> !OccursAt(p + sep, sep, k)
  }

  /** An occurrence with none before it is the one `IndexOf` finds. */
  lemma FirstOccurrence(s: string, sep: string, m: nat)
    requires OccursAt(s, sep, m)
    requires forall k: nat :: k < m ==> !OccursAt(s, sep, k)
    ensures IndexOf(s, sep, 0) == Some(m)
  {
  }

  /** Splitting at the first occurrence `m` of `sep` yields `s[..m]` and the
      pieces of what follows the separator. */
  lemma SplitUnfold(s: string, sep: string, m: nat)
    requires |sep| > 0
    requires IndexOf(s, sep, 0) == Some(m)
    ensures Split(s, sep) == [s[..m]] + Split(s[m + |sep|..], sep)
  {
  }

  lemma SplitSingle(s: string, sep: string)
    requires |sep| > 0 && !Contains(s, sep)
    ensures Split(s, sep) == [s]
  {
    if IndexOf(s, sep, 0).Some? {
      ContainsWitness(s, sep, IndexOf(s, sep, 0).value);
    }
  }

  /** A piece that ends cleanly, followed by the separator, is split off
      whole from the front. */
  lemma SplitCleanHead(p: string, sep: string, rest: string)
    requires |sep| > 0 && EndsCleanly(p, sep)
    ensures Split(p + sep + rest, sep) == [p] + Split(rest, sep)
  {
    var s := (p + sep) + rest;
    forall k: nat | k < |p| ensures !OccursAt(s, sep, k) {
      OccursInPrefix(p + sep, rest, sep, k);
    }
    OccursInPrefix(p + sep, rest, sep, |p|);
    assert (p + sep)[|p|..] == sep;
    FirstOccurrence(s, sep, |p|);
    SplitUnfold(s, sep, |p|);
    assert s[..|p|] == p;
    assert s[|p| + |sep|..] == rest;
  }

  /** Joining pieces and splitting the result again gives the pieces back,
      provided no piece lets the separator appear anywhere but between them. */
  lemma {:induction false} SplitJoin(parts: seq<string>, sep: string)
    requires |sep| > 0 && parts != []
    requires forall k :: 0 <= k < |parts| - 1 ==> EndsCleanly(parts[k], sep)
    requires !Contains(parts[|parts| - 1], sep)
    ensures Split(Join(parts, sep), sep) == parts
    decreases |parts|
  {
    if |parts| == 1 {
      SplitSingle(parts[0], sep);
    } else {
      var tail := parts[1..];
      CleanTail(parts, sep);
      SplitCleanHead(parts[0], sep, Join(tail, sep));
      SplitJoin(tail, sep);
      assert parts == [parts[0]] + tail;
    }
  }

  /** What `SplitJoin` asks of its parts holds of all but the first. */
  lemma CleanTail(parts: seq<string>, sep: string)
    requires |parts| >= 2
    requires forall k :: 0 <= k < |parts| - 1 ==> EndsCleanly(parts[k], sep)
    requires !Contains(parts[|parts| - 1], sep)
    ensures EndsCleanly(parts[0], sep)
    ensures Join(parts, sep) == parts[0] + sep + Join(parts[1..], sep)
    ensures forall k :: 0 <= k < |parts[1..]| - 1 ==> EndsCleanly(parts[1..][k], sep)
    ensures !Contains(parts[1..][|parts[1..]| - 1], sep)
  {
    var tail := parts[1..];
    forall k | 0 <= k < |tail| - 1 ensures EndsCleanly(tail[k], sep) {
      assert tail[k] == parts[k + 1];
    }
    assert tail[|tail| - 1] == parts[|parts| - 1];
  }

  // ---------------------------------------------------------------------------
  // Decimal digits

  predicate IsDigit(c: char) { '0' <= c <= '9' }

  function DigitChar(d: nat): char
    requires d < 10
  {
    ('0' as int + d) as char
  }

  /** Decimal rendering of a natural number, without leading zeros. */
  function NatToString(n: nat): (r: string)
    ensures |r| >= 1
    ensures AllSatisfy(r, IsDigit)
    ensures n >= 1 ==> r[0] != '0'
  {
    if n < 10 then [DigitChar(n)] else NatToString(n / 10) + [DigitChar(n % 10)]
  }

  /** Decimal rendering of an integer, with a leading minus sign when negative. */
  function IntToString(i: int): (r: string)
    ensures i >= 0 ==> r == NatToString(i)
    ensures i < 0 ==> r == "-" + NatToString(-i)
  {
    if i < 0 then "-" + NatToString(-i) else NatToString(i)
  }

  function Pow10(k: nat): (r: nat)
    ensures r >= 1
  {
    if k == 0 then 1 else 10 * Pow10(k - 1)
  }

  /** A number in `[10^k, 10^(k+1))` has exactly `k + 1` decimal digits. */
  lemma {:induction false} NatToStringLength(n: nat, k: nat)
    requires Pow10(k) <= n < Pow10(k + 1)
    ensures |NatToString(n)| == k + 1
  {
    if k == 0 {
    } else {
      NatToStringLength(n / 10, k - 1);
    }
  }
}
