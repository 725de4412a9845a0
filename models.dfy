/** Records of the data model: the `Action` put before the escalation gate, and a
    project with its short identifier. */
module Models {
  import opened Text

  /** An action under authorization review. `kind` stands for `Action.type`. */
  datatype Action = Action(kind: string, description: string, amount: real, sensitive: bool)

  /** `Action(type=..., description=...)` with the declared defaults for the rest. */
  function DefaultAction(kind: string, description: string): Action {
    Action(kind, description, 0.0, false)
  }

  /** A project record; `projectCode` is `None` when the store has no code for it.
      The free-form `financials` dictionary is not part of this model. */
  datatype Project = Project(
    id: string, url: string, name: string, status: string,
    projectCode: Option<string>, companyId: Option<string>)

  predicate IsUpperLetter(c: char) { 'A' <= c <= 'Z' }
  /** What `\d` matches in a `str` pattern without `re.ASCII`: a Unicode decimal digit
      (general category Nd, Unicode 15.0). Beyond ASCII these start at U+0660. */
  predicate IsDigit(c: char) {
    ('0' <= c <= '9') || ('\U{660}' <= c && NonAsciiDigit(c))
  }

  /** The Unicode decimal digits beyond ASCII, as runs of consecutive code points. */
  predicate NonAsciiDigit(c: char) {
    || ('\U{660}' <= c <= '\U{669}')
    || ('\U{6f0}' <= c <= '\U{6f9}')
    || ('\U{7c0}' <= c <= '\U{7c9}')
    || ('\U{966}' <= c <= '\U{96f}')
    || ('\U{9e6}' <= c <= '\U{9ef}')
    || ('\U{a66}' <= c <= '\U{a6f}')
    || ('\U{ae6}' <= c <= '\U{aef}')
    || ('\U{b66}' <= c <= '\U{b6f}')
    || ('\U{be6}' <= c <= '\U{bef}')
    || ('\U{c66}' <= c <= '\U{c6f}')
    || ('\U{ce6}' <= c <= '\U{cef}')
    || ('\U{d66}' <= c <= '\U{d6f}')
    || ('\U{de6}' <= c <= '\U{def}')
    || ('\U{e50}' <= c <= '\U{e59}')
    || ('\U{ed0}' <= c <= '\U{ed9}')
    || ('\U{f20}' <= c <= '\U{f29}')
    || ('\U{1040}' <= c <= '\U{1049}')
    || ('\U{1090}' <= c <= '\U{1099}')
    || ('\U{17e0}' <= c <= '\U{17e9}')
    || ('\U{1810}' <= c <= '\U{1819}')
    || ('\U{1946}' <= c <= '\U{194f}')
    || ('\U{19d0}' <= c <= '\U{19d9}')
    || ('\U{1a80}' <= c <= '\U{1a89}')
    || ('\U{1a90}' <= c <= '\U{1a99}')
    || ('\U{1b50}' <= c <= '\U{1b59}')
    || ('\U{1bb0}' <= c <= '\U{1bb9}')
    || ('\U{1c40}' <= c <= '\U{1c49}')
    || ('\U{1c50}' <= c <= '\U{1c59}')
    || ('\U{a620}' <= c <= '\U{a629}')
    || ('\U{a8d0}' <= c <= '\U{a8d9}')
    || ('\U{a900}' <= c <= '\U{a909}')
    || ('\U{a9d0}' <= c <= '\U{a9d9}')
    || ('\U{a9f0}' <= c <= '\U{a9f9}')
    || ('\U{aa50}' <= c <= '\U{aa59}')
    || ('\U{abf0}' <= c <= '\U{abf9}')
    || ('\U{ff10}' <= c <= '\U{ff19}')
    || ('\U{104a0}' <= c <= '\U{104a9}')
    || ('\U{10d30}' <= c <= '\U{10d39}')
    || ('\U{11066}' <= c <= '\U{1106f}')
    || ('\U{110f0}' <= c <= '\U{110f9}')
    || ('\U{11136}' <= c <= '\U{1113f}')
    || ('\U{111d0}' <= c <= '\U{111d9}')
    || ('\U{112f0}' <= c <= '\U{112f9}')
    || ('\U{11450}' <= c <= '\U{11459}')
    || ('\U{114d0}' <= c <= '\U{114d9}')
    || ('\U{11650}' <= c <= '\U{11659}')
    || ('\U{116c0}' <= c <= '\U{116c9}')
    || ('\U{11730}' <= c <= '\U{11739}')
    || ('\U{118e0}' <= c <= '\U{118e9}')
    || ('\U{11950}' <= c <= '\U{11959}')
    || ('\U{11c50}' <= c <= '\U{11c59}')
    || ('\U{11d50}' <= c <= '\U{11d59}')
    || ('\U{11da0}' <= c <= '\U{11da9}')
    || ('\U{11f50}' <= c <= '\U{11f59}')
    || ('\U{16a60}' <= c <= '\U{16a69}')
    || ('\U{16ac0}' <= c <= '\U{16ac9}')
    || ('\U{16b50}' <= c <= '\U{16b59}')
    || ('\U{1d7ce}' <= c <= '\U{1d7ff}')
    || ('\U{1e140}' <= c <= '\U{1e149}')
    || ('\U{1e2f0}' <= c <= '\U{1e2f9}')
    || ('\U{1e4f0}' <= c <= '\U{1e4f9}')
    || ('\U{1e950}' <= c <= '\U{1e959}')
    || ('\U{1fbf0}' <= c <= '\U{1fbf9}')
  }

  predicate AllUpper(s: string) { forall i :: 0 <= i < |s| ==> IsUpperLetter(s[i]) }
  predicate AllDigits(s: string) { forall i :: 0 <= i < |s| ==> IsDigit(s[i]) }

  /** `t` matches `[A-Z]{2,}-\d+` in full: two or more capitals, a hyphen, one or more digits. */
  ghost predicate IsTag(t: string) {
    exists u :: 2 <= u && u + 2 <= |t| && AllUpper(t[..u]) && t[u] == '-' && AllDigits(t[u + 1..])
  }

  /** No tag starts at a position in `[lo, hi)`. */
  ghost predicate NoTagStartsIn(s: string, lo: nat, hi: nat) {
    forall b', e' :: lo <= b' < hi && b' < e' <= |s| ==> !IsTag(s[b'..e'])
  }

  /** No tag starting at `b` ends after `e`. */
  ghost predicate NoLongerTag(s: string, b: nat, e: nat) {
    forall e' :: b <= e < e' <= |s| ==> !IsTag(s[b..e'])
  }

  /** The match `re.search` reports: it starts further left than any other match
      and, among the matches starting there, it is the longest. */
  ghost predicate LeftmostLongest(s: string, b: nat, e: nat) {
    b < e <= |s| && IsTag(s[b..e]) && NoTagStartsIn(s, 0, b) && NoLongerTag(s, b, e)
  }

  /** Length of the run of capitals starting at `p`. */
  function UpperRun(s: string, p: nat): (n: nat)
    requires p <= |s|
    ensures p + n <= |s| && AllUpper(s[p..p + n])
    ensures p + n == |s| || !IsUpperLetter(s[p + n])
    decreases |s| - p
  {
    if p < |s| && IsUpperLetter(s[p]) then
      var n := UpperRun(s, p + 1);
      assert s[p..p + 1 + n] == [s[p]] + s[p + 1..p + 1 + n];
      1 + n
    else 0
  }

  /** Length of the run of digits starting at `p`. */
  function DigitRun(s: string, p: nat): (n: nat)
    requires p <= |s|
    ensures p + n <= |s| && AllDigits(s[p..p + n])
    ensures p + n == |s| || !IsDigit(s[p + n])
    decreases |s| - p
  {
    if p < |s| && IsDigit(s[p]) then
      var n := DigitRun(s, p + 1);
      assert s[p..p + 1 + n] == [s[p]] + s[p + 1..p + 1 + n];
      1 + n
    else 0
  }

  /** The end of the greedy match of `[A-Z]{2,}-\d+` anchored at `p`, if there is one.
      Backtracking cannot help: a shorter run of capitals is followed by a capital, not `-`. */
  function MatchAt(s: string, p: nat): (r: Option<nat>)
    requires p <= |s|
    ensures r.Some? ==> p < r.value <= |s|
  {
    var u := UpperRun(s, p);
    if u >= 2 && p + u < |s| && s[p + u] == '-' && DigitRun(s, p + u + 1) >= 1 then
      Some(p + u + 1 + DigitRun(s, p + u + 1))
    else None
  }

  /** `re.search(r'([A-Z]{2,}-\d+)', s)` scanning start positions from `p` on:
      the span of the match, if any. */
  function Search(s: string, p: nat): (r: Option<(nat, nat)>)
    requires p <= |s|
    ensures r.Some? ==> p <= r.value.0 < r.value.1 <= |s|
    decreases |s| - p
  {
    if p == |s| then None
    else match MatchAt(s, p)
      case Some(e) => Some((p, e))
      case None => Search(s, p + 1)
  }

  /** A run of `k` capitals at `p` makes `UpperRun` at least `k`... */
  lemma {:induction false} UpperRunAtLeast(s: string, p: nat, k: nat)
    requires p + k <= |s| && AllUpper(s[p..p + k])
    ensures UpperRun(s, p) >= k
    decreases k
  {
    if k > 0 {
      assert s[p + 1..p + k] == s[p..p + k][1..];
      UpperRunAtLeast(s, p + 1, k - 1);
    }
  }

  /** ...and a non-capital right after them makes it at most `k`. */
  lemma {:induction false} UpperRunAtMost(s: string, p: nat, k: nat)
    requires p + k < |s| && AllUpper(s[p..p + k]) && !IsUpperLetter(s[p + k])
    ensures UpperRun(s, p) <= k
    decreases k
  {
    if k > 0 {
      assert s[p + 1..p + k] == s[p..p + k][1..];
      UpperRunAtMost(s, p + 1, k - 1);
    }
  }

  /** A run of `k` digits at `p` makes `DigitRun` at least `k`. */
  lemma {:induction false} DigitRunAtLeast(s: string, p: nat, k: nat)
    requires p + k <= |s| && AllDigits(s[p..p + k])
    ensures DigitRun(s, p) >= k
    decreases k
  {
    if k > 0 {
      assert s[p + 1..p + k] == s[p..p + k][1..];
      DigitRunAtLeast(s, p + 1, k - 1);
    }
  }

  /** The capitals, the hyphen and the digits of a tag found at `p`. */
  lemma TagParts(s: string, p: nat, e': nat) returns (w: nat)
    requires p < e' <= |s| && IsTag(s[p..e'])
    ensures 2 <= w && p + w + 2 <= e'
    ensures AllUpper(s[p..p + w]) && s[p + w] == '-' && AllDigits(s[p + w + 1..e'])
  {
    var t := s[p..e'];
    w :| 2 <= w && w + 2 <= |t| && AllUpper(t[..w]) && t[w] == '-' && AllDigits(t[w + 1..]);
    assert t[..w] == s[p..p + w];
    assert t[w] == s[p + w];
    assert t[w + 1..] == s[p + w + 1..e'];
  }

  /** Any tag starting at `p` uses the whole run of capitals there, a hyphen after it,
      and no more digits than the run of digits after the hyphen. */
  lemma TagStartingAt(s: string, p: nat, e': nat)
    requires p < e' <= |s| && IsTag(s[p..e'])
    ensures var u := UpperRun(s, p);
            && u >= 2 && p + u < |s| && s[p + u] == '-' && DigitRun(s, p + u + 1) >= 1
            && e' <= p + u + 1 + DigitRun(s, p + u + 1)
  {
    var w := TagParts(s, p, e');
    UpperRunAtLeast(s, p, w);
    UpperRunAtMost(s, p, w);
    DigitRunAtLeast(s, p + w + 1, e' - (p + w + 1));
  }

  /** The span `MatchAt` reports is a tag. */
  lemma MatchAtIsTag(s: string, p: nat)
    requires p <= |s| && MatchAt(s, p).Some?
    ensures IsTag(s[p..MatchAt(s, p).value])
  {
    var u := UpperRun(s, p);
    var d := DigitRun(s, p + u + 1);
    var t := s[p..p + u + 1 + d];
    assert t[..u] == s[p..p + u];
    assert t[u + 1..] == s[p + u + 1..p + u + 1 + d];
    assert 2 <= u && u + 2 <= |t| && AllUpper(t[..u]) && t[u] == '-' && AllDigits(t[u + 1..]);
  }

  /** The anchored match is exactly the longest tag starting at `p`, and no tag starts
      at `p` when it fails. */
  lemma MatchAtCorrect(s: string, p: nat)
    requires p <= |s|
    ensures MatchAt(s, p).Some? ==>
              var e := MatchAt(s, p).value;
              p < e <= |s| && IsTag(s[p..e]) && NoLongerTag(s, p, e)
    ensures MatchAt(s, p).None? ==> NoTagStartsIn(s, p, p + 1)
  {
    forall e' | p < e' <= |s| && IsTag(s[p..e'])
      ensures MatchAt(s, p).Some? && e' <= MatchAt(s, p).value
    {
      TagStartingAt(s, p, e');
    }
    if MatchAt(s, p).Some? {
      MatchAtIsTag(s, p);
    }
  }

  /** Two adjacent tag-free ranges of start positions make one. */
  lemma NoTagJoin(s: string, lo: nat, mid: nat, hi: nat)
    requires lo <= mid <= hi && NoTagStartsIn(s, lo, mid) && NoTagStartsIn(s, mid, hi)
    ensures NoTagStartsIn(s, lo, hi)
  {
    forall b', e' | lo <= b' < hi && b' < e' <= |s| ensures !IsTag(s[b'..e']) {
      if b' < mid { assert NoTagStartsIn(s, lo, mid); } else { assert NoTagStartsIn(s, mid, hi); }
    }
  }

  /** `Search` from `p` finds the leftmost, then longest, match at or after `p`. */
  lemma {:induction false} SearchCorrect(s: string, p: nat)
    requires p <= |s|
    ensures Search(s, p).Some? ==>
              var (b, e) := Search(s, p).value;
              p <= b < e <= |s| && IsTag(s[b..e]) && NoTagStartsIn(s, p, b) && NoLongerTag(s, b, e)
    ensures Search(s, p).None? ==> NoTagStartsIn(s, p, |s|)
    decreases |s| - p
  {
    if p < |s| {
      MatchAtCorrect(s, p);
      match MatchAt(s, p)
      case Some(e) =>
        assert Search(s, p) == Some((p, e));
      case None =>
        assert Search(s, p) == Search(s, p + 1);
        SearchCorrect(s, p + 1);
        match Search(s, p + 1)
        case None => NoTagJoin(s, p, p + 1, |s|);
        case Some((b, e)) => NoTagJoin(s, p, p + 1, b);
    }
  }

  /** `Project.short_id`: the project code upper-cased when it is a non-empty string, else
      the first `[A-Z]{2,}-\d+` match in the name, else the name's first four characters
      upper-cased. An empty code is falsy in Python and falls through. */
  function ShortId(p: Project): string {
    if p.projectCode.Some? && p.projectCode.value != "" then Upper(p.projectCode.value)
    else match Search(p.name, 0)
      case Some((b, e)) => Upper(p.name[b..e])
      case None => Upper(p.name[..if |p.name| < 4 then |p.name| else 4])
  }

  /** A tag is left unchanged by `upper()`. */
  lemma UpperOfTag(t: string)
    requires IsTag(t)
    ensures Upper(t) == t
  {
    assert t[0..|t|] == t;
    var u := TagParts(t, 0, |t|);
    forall i | 0 <= i < |t| ensures UpperChar(t[i]) == t[i] {
      if i < u { assert t[0..u][i] == t[i]; }
      else if i > u { assert t[u + 1..|t|][i - u - 1] == t[i]; }
    }
  }

  /** A non-empty project code wins, upper-cased. */
  lemma ShortIdFromCode(p: Project)
    requires p.projectCode.Some? && p.projectCode.value != ""
    ensures ShortId(p) == Upper(p.projectCode.value)
    ensures |ShortId(p)| == |p.projectCode.value|
  {
  }

  /** With no code (or an empty one) and a tag somewhere in the name, the short id is the
      leftmost-longest tag of the name. */
  lemma ShortIdFromName(p: Project)
    requires p.projectCode.None? || p.projectCode.value == ""
    requires exists b, e :: 0 <= b < e <= |p.name| && IsTag(p.name[b..e])
    ensures exists b: nat, e: nat :: LeftmostLongest(p.name, b, e) && ShortId(p) == p.name[b..e]
  {
    SearchCorrect(p.name, 0);
    var (b, e) := Search(p.name, 0).value;
    UpperOfTag(p.name[b..e]);
    assert LeftmostLongest(p.name, b, e);
  }

  /** With no code and no tag in the name, the short id is the first `min(4, |name|)`
      characters upper-cased, so it is at most four characters long. */
  lemma ShortIdFallback(p: Project)
    requires p.projectCode.None? || p.projectCode.value == ""
    requires forall b, e :: 0 <= b < e <= |p.name| ==> !IsTag(p.name[b..e])
    ensures |ShortId(p)| <= 4
    ensures |ShortId(p)| == if |p.name| < 4 then |p.name| else 4
    ensures forall i :: 0 <= i < |ShortId(p)| ==> ShortId(p)[i] == UpperChar(p.name[i])
  {
    SearchCorrect(p.name, 0);
  }

  /** `\d` is not confined to ASCII: a name whose only tag ends in ARABIC-INDIC DIGIT
      THREE still yields that tag. */
  lemma ShortIdNonAsciiDigit()
    ensures ShortId(Project("", "", "xAB-\U{663}", "", None, None)) == "AB-\U{663}"
  {
    var s := "xAB-\U{663}";
    NonAsciiNameSearch(s);
    UpperOfTag(s[1..5]);
  }

  lemma NonAsciiNameSearch(s: string)
    requires s == ['x', 'A', 'B', '-', '\U{663}']
    ensures Search(s, 0) == Some((1, 5)) && IsTag(s[1..5]) && s[1..5] == ['A', 'B', '-', '\U{663}']
  {
    assert UpperRun(s, 0) == 0 && UpperRun(s, 3) == 0;
    assert UpperRun(s, 2) == 1;
    assert UpperRun(s, 1) == 2;
    assert DigitRun(s, 5) == 0;
    assert DigitRun(s, 4) == 1;
    assert MatchAt(s, 1) == Some(5);
    MatchAtIsTag(s, 1);
  }
}
