/** The few operations on Python `str` values that the orchestration core relies on:
    `strip()`, ASCII `lower()`/`upper()`, `startswith`, the `in` substring test,
    `find`, and `split(sep)`. */
module Text {

  /** Python's `str.isspace()`: the characters `str.strip()` with no argument removes. */
  predicate IsSpace(c: char) {
    || c == ' '
    || ('\t' <= c <= '\r')
    || ('\U{1c}' <= c <= '\U{1f}')
    || c == '\U{85}' || c == '\U{a0}' || c == '\U{1680}'
    || ('\U{2000}' <= c <= '\U{200a}')
    || c == '\U{2028}' || c == '\U{2029}' || c == '\U{202f}' || c == '\U{205f}' || c == '\U{3000}'
  }

  predicate AllSpace(s: string) {
    forall i :: 0 <= i < |s| ==> IsSpace(s[i])
  }

  /** The end of the run of whitespace that starts at `i`. */
  function SpaceRunEnd(s: string, i: nat): (j: nat)
    requires i <= |s|
    ensures i <= j <= |s| && (j == |s| || !IsSpace(s[j]))
    ensures forall k :: i <= k < j ==> IsSpace(s[k])
    decreases |s| - i
  {
    if i < |s| && IsSpace(s[i]) then SpaceRunEnd(s, i + 1) else i
  }

  /** The start of the run of whitespace that ends at `j`. */
  function SpaceRunStart(s: string, j: nat): (i: nat)
    requires j <= |s|
    ensures i <= j && (i == 0 || !IsSpace(s[i - 1]))
    ensures forall k :: i <= k < j ==> IsSpace(s[k])
  {
    if j > 0 && IsSpace(s[j - 1]) then SpaceRunStart(s, j - 1) else j
  }

  /** `s.lstrip()` */
  function TrimStart(s: string): (r: string)
    ensures |r| <= |s| && r == s[|s| - |r|..]
    ensures AllSpace(s[..|s| - |r|])
    ensures r == [] || !IsSpace(r[0])
  {
    s[SpaceRunEnd(s, 0)..]
  }

  /** `s.rstrip()` */
  function TrimEnd(s: string): (r: string)
    ensures |r| <= |s| && r == s[..|r|]
    ensures AllSpace(s[|r|..])
    ensures r == [] || !IsSpace(r[|r| - 1])
  {
    s[..SpaceRunStart(s, |s|)]
  }

  /** `s.strip()`: the slice of `s` left once every leading and trailing whitespace
      character is gone. */
  function Trim(s: string): (r: string)
    ensures exists i, j :: 0 <= i <= j <= |s| && r == s[i..j] && AllSpace(s[..i]) && AllSpace(s[j..])
    ensures r == [] || (!IsSpace(r[0]) && !IsSpace(r[|r| - 1]))
  {
    var a := TrimStart(s);
    var r := TrimEnd(a);
    var i := |s| - |a|;
    assert r == s[i..i + |r|];
    assert s[i + |r|..] == a[|r|..];
    r
  }

  function LowerChar(c: char): char {
    if 'A' <= c <= 'Z' then (c as int + 32) as char else c
  }

  function UpperChar(c: char): char {
    if 'a' <= c <= 'z' then (c as int - 32) as char else c
  }

  /** `s.lower()`, on the ASCII letters */
  function Lower(s: string): (r: string)
    ensures |r| == |s| && forall i :: 0 <= i < |s| ==> r[i] == LowerChar(s[i])
  {
    if s == [] then [] else [LowerChar(s[0])] + Lower(s[1..])
  }

  /** `s.upper()`, on the ASCII letters */
  function Upper(s: string): (r: string)
    ensures |r| == |s| && forall i :: 0 <= i < |s| ==> r[i] == UpperChar(s[i])
  {
    if s == [] then [] else [UpperChar(s[0])] + Upper(s[1..])
  }

  /** `s.startswith(p)` */
  predicate StartsWith(s: string, p: string) {
    |p| <= |s| && s[..|p|] == p
  }

  /** `p` occurs in `s` at index `i` */
  predicate OccursAt(s: string, p: string, i: int) {
    0 <= i && i + |p| <= |s| && s[i..i + |p|] == p
  }

  /** `s.find(p)`: the lowest index at which `p` occurs in `s`, if any. */
  function Find(s: string, p: string): (r: Option<nat>)
    ensures r.Some? ==> OccursAt(s, p, r.value)
    ensures r.Some? ==> forall j :: 0 <= j < r.value ==> !OccursAt(s, p, j)
    ensures r.None? ==> forall j :: 0 <= j ==> !OccursAt(s, p, j)
    decreases |s|
  {
    if |s| < |p| then None
    else if s[..|p|] == p then Some(0)
    else
      var r := Find(s[1..], p);
      assert forall j :: 1 <= j ==> (OccursAt(s, p, j) <==> OccursAt(s[1..], p, j - 1)) by {
        forall j | 1 <= j ensures OccursAt(s, p, j) <==> OccursAt(s[1..], p, j - 1) {
          OccursShift(s, p, j - 1);
        }
      }
      assert !OccursAt(s, p, 0) by { assert s[0..|p|] == s[..|p|]; }
      if r.None? then None else Some(r.value + 1)
  }

  lemma OccursShift(s: string, p: string, j: nat)
    requires |s| >= 1
    ensures OccursAt(s, p, j + 1) <==> OccursAt(s[1..], p, j)
  {
    if j + 1 + |p| <= |s| { SliceOfTail(s, p, j); }
  }

  lemma SliceOfTail(s: string, p: string, j: nat)
    requires j + 1 + |p| <= |s|
    ensures s[j + 1..j + 1 + |p|] == s[1..][j..j + |p|]
  {
    var a, b := s[j + 1..j + 1 + |p|], s[1..][j..j + |p|];
    forall k | 0 <= k < |p| ensures a[k] == b[k] {
      assert s[1..][j + k] == s[j + 1 + k];
    }
  }

  /** Python's `p in s` on strings */
  predicate Contains(s: string, p: string) {
    Find(s, p).Some?
  }

  /** `p in s` holds exactly when `p` occurs somewhere in `s`. */
  lemma ContainsIff(s: string, p: string, i: int)
    ensures OccursAt(s, p, i) ==> Contains(s, p) && Find(s, p).value <= i
    ensures Contains(s, p) ==> OccursAt(s, p, Find(s, p).value)
  {
  }

  /** A first occurrence that ends inside a prefix is still the first occurrence there. */
  lemma {:induction false} FindInPrefix(s: string, p: string, k: nat)
    requires Find(s, p).Some? && Find(s, p).value + |p| <= k <= |s|
    ensures Find(s[..k], p) == Find(s, p)
  {
    var i := Find(s, p).value;
    assert s[..k][i..i + |p|] == s[i..i + |p|];
    forall j | 0 <= j < i ensures !OccursAt(s[..k], p, j) {
      if j + |p| <= k { assert s[..k][j..j + |p|] == s[j..j + |p|]; assert !OccursAt(s, p, j); }
    }
    FindUnique(s[..k], p, i);
  }

  /** Nothing occurs in a prefix of a string in which nothing occurs. */
  lemma {:induction false} FindNoneInPrefix(s: string, p: string, k: nat)
    requires k <= |s|
    requires forall j :: 0 <= j && j + |p| <= k ==> !OccursAt(s, p, j)
    ensures Find(s[..k], p).None?
  {
    if Find(s[..k], p).Some? {
      var j := Find(s[..k], p).value;
      assert s[..k][j..j + |p|] == s[j..j + |p|];
      assert OccursAt(s, p, j);
      assert false;
    }
  }

  /** The text before the first occurrence of `p` holds no occurrence of `p`. */
  lemma BeforeFirstHasNone(s: string, p: string)
    requires |p| > 0 && Find(s, p).Some?
    ensures Find(s[..Find(s, p).value], p).None?
  {
    FindNoneInPrefix(s, p, Find(s, p).value);
  }

  /** An occurrence with no earlier occurrence is what `find` reports. */
  lemma FindUnique(s: string, p: string, i: nat)
    requires OccursAt(s, p, i)
    requires forall j :: 0 <= j < i ==> !OccursAt(s, p, j)
    ensures Find(s, p) == Some(i)
  {
  }

  /** `s.split(sep)` for a non-empty separator: the pieces between successive
      non-overlapping occurrences of `sep`, scanning from the left. */
  function Split(s: string, sep: string): (r: seq<string>)
    requires |sep| > 0
    ensures |r| >= 1
    ensures Find(s, sep).None? ==> r == [s]
    ensures Find(s, sep).Some? ==> |r| >= 2 && r[0] == s[..Find(s, sep).value]
    decreases |s|
  {
    match Find(s, sep)
    case None => [s]
    case Some(i) => [s[..i]] + Split(s[i + |sep|..], sep)
  }

  /** The second piece of a split is the first piece of what follows the first separator. */
  lemma SplitNext(s: string, sep: string, i: nat)
    requires |sep| > 0 && Find(s, sep) == Some(i)
    ensures Split(s, sep)[1] == Split(s[i + |sep|..], sep)[0]
  {
    SplitCons(s, sep, i);
  }

  /** A split with a first separator at `i` is the piece before it, then the split of what
      follows it. */
  lemma SplitCons(s: string, sep: string, i: nat)
    requires |sep| > 0 && Find(s, sep) == Some(i)
    ensures Split(s, sep) == [s[..i]] + Split(s[i + |sep|..], sep)
  {
  }

  /** `line.split(':', 1)[1]`: what follows the first colon. */
  function AfterFirstColon(s: string): (r: string)
    requires Contains(s, ":")
    ensures r == s[Find(s, ":").value + 1..] && |r| < |s|
  {
    s[Find(s, ":").value + 1..]
  }

  function DigitChar(d: nat): char
    requires d < 10
  {
    ['0', '1', '2', '3', '4', '5', '6', '7', '8', '9'][d]
  }

  /** Python's `str(n)` for a natural number: its decimal digits, no leading zero. */
  function NatToString(n: nat): (r: string)
    ensures |r| >= 1 && (forall i :: 0 <= i < |r| ==> '0' <= r[i] <= '9')
    ensures |r| > 1 ==> r[0] != '0'
  {
    if n < 10 then [DigitChar(n)] else NatToString(n / 10) + [DigitChar(n % 10)]
  }

  /** An optional value, Python's `None` or a present value. */
  datatype Option<+T> = None | Some(value: T)
}
