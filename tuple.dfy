/**
 * The ysld `Tuple`: a pair of optional digit strings written "(first,second)", parsed with the
 * regular expression `\s*\(?\s*(\d*)\s*,\s*(\d*)\s*\)?\s*` matched against the whole value.
 */
module YsldTuple {
  import opened Wrappers
  import opened JavaStrings

  datatype Tuple = Tuple(first: Option<string>, second: Option<string>)

  predicate AllSpace(s: string, lo: int, hi: int)
    requires 0 <= lo <= hi <= |s|
  {
    forall k :: lo <= k < hi ==> IsWhitespace(s[k])
  }

  predicate AllDigits(s: string, lo: int, hi: int)
    requires 0 <= lo <= hi <= |s|
  {
    forall k :: lo <= k < hi ==> IsDigit(s[k])
  }

  /** A capture group's value: `null` for an empty match, as `parse` turns "" into null. */
  function Group(s: string, lo: int, hi: int): (r: Option<string>)
    requires 0 <= lo <= hi <= |s|
    ensures r.None? <==> lo == hi
  {
    if lo == hi then None else Some(s[lo..hi])
  }

  /**
   * One way the pattern matches the whole of `s`: the cut points between its parts, in order
   * `\s*` [0,a) `\(?` [a,b) `\s*` [b,c) `(\d*)` [c,d) `\s*` [d,e) `,` at e `\s*` [e+1,f)
   * `(\d*)` [f,g) `\s*` [g,h) `\)?` [h,i) `\s*` [i,|s|).
   */
  predicate Layout(s: string, a: int, b: int, c: int, d: int, e: int, f: int, g: int, h: int, i: int)
  {
    0 <= a <= b <= c <= d <= e < e + 1 <= f <= g <= h <= i <= |s|
    && AllSpace(s, 0, a)
    && (b == a || (b == a + 1 && s[a] == '('))
    && AllSpace(s, b, c) && AllDigits(s, c, d) && AllSpace(s, d, e)
    && s[e] == ','
    && AllSpace(s, e + 1, f) && AllDigits(s, f, g) && AllSpace(s, g, h)
    && (i == h || (i == h + 1 && s[h] == ')'))
    && AllSpace(s, i, |s|)
  }

  /** The end of the run of whitespace starting at `i`. */
  function SkipSpace(s: string, i: int): (k: int)
    requires 0 <= i <= |s|
    ensures i <= k <= |s| && AllSpace(s, i, k)
    ensures k < |s| ==> !IsWhitespace(s[k])
    decreases |s| - i
  {
    if i < |s| && IsWhitespace(s[i]) then SkipSpace(s, i + 1) else i
  }

  /** The end of the run of digits starting at `i`. */
  function SkipDigits(s: string, i: int): (k: int)
    requires 0 <= i <= |s|
    ensures i <= k <= |s| && AllDigits(s, i, k)
    ensures k < |s| ==> !IsDigit(s[k])
    decreases |s| - i
  {
    if i < |s| && IsDigit(s[i]) then SkipDigits(s, i + 1) else i
  }

  /** A maximal run of whitespace is the one `SkipSpace` finds. */
  lemma SkipSpaceIsMaximalRun(s: string, i: int, k: int)
    requires 0 <= i <= k <= |s| && AllSpace(s, i, k)
    requires k < |s| ==> !IsWhitespace(s[k])
    ensures SkipSpace(s, i) == k
  {
  }

  /** A maximal run of digits is the one `SkipDigits` finds. */
  lemma SkipDigitsIsMaximalRun(s: string, i: int, k: int)
    requires 0 <= i <= k <= |s| && AllDigits(s, i, k)
    requires k < |s| ==> !IsDigit(s[k])
    ensures SkipDigits(s, i) == k
  {
  }

  /** The part before the comma: where the first group starts and ends, and where the comma is. */
  function ScanFirst(s: string): (r: (int, int, int))
    ensures 0 <= r.0 <= r.1 <= r.2 <= |s|
  {
    var a := SkipSpace(s, 0);
    var b := if a < |s| && s[a] == '(' then a + 1 else a;
    var c := SkipSpace(s, b);
    var d := SkipDigits(s, c);
    (c, d, SkipSpace(s, d))
  }

  /** The part after the comma at `e`: the second group, and whether the rest is consumed. */
  function ScanSecond(s: string, e: int): (r: (int, int, bool))
    requires 0 <= e < |s|
    ensures e + 1 <= r.0 <= r.1 <= |s|
  {
    var f := SkipSpace(s, e + 1);
    var g := SkipDigits(s, f);
    var h := SkipSpace(s, g);
    var i := if h < |s| && s[h] == ')' then h + 1 else h;
    (f, g, SkipSpace(s, i) == |s|)
  }

  /**
   * `parse`: the tuple of the two groups when the pattern matches the whole value, otherwise
   * `None` for the `ParseException` it throws.
   */
  function Parse(s: string): (r: Option<Tuple>)
    ensures r.Some? ==> ',' in s
    ensures r.Some? ==> Printable(r.value.first) && Printable(r.value.second)
  {
    var (c, d, e) := ScanFirst(s);
    if e == |s| || s[e] != ',' then None
    else
      var (f, g, done) := ScanSecond(s, e);
      DigitsArePrintable(s, c, d);
      DigitsArePrintable(s, f, g);
      if !done then None else Some(Tuple(Group(s, c, d), Group(s, f, g)))
  }

  /** A run of digits captured as a group prints back as itself. */
  lemma DigitsArePrintable(s: string, lo: int, hi: int)
    requires 0 <= lo <= hi <= |s| && AllDigits(s, lo, hi)
    ensures Printable(Group(s, lo, hi))
  {
    if lo < hi {
      assert forall k :: 0 <= k < hi - lo ==> s[lo..hi][k] == s[lo + k];
    }
  }

  /** Everything `parse` accepts matches the pattern, and the tuple holds the match's groups. */
  lemma ParseIsSound(s: string)
    requires Parse(s).Some?
    ensures exists a, b, c, d, e, f, g, h, i ::
      (Layout(s, a, b, c, d, e, f, g, h, i) && Parse(s).value == Tuple(Group(s, c, d), Group(s, f, g)))
  {
    var a := SkipSpace(s, 0);
    var b := if a < |s| && s[a] == '(' then a + 1 else a;
    var (c, d, e) := ScanFirst(s);
    var (f, g, done) := ScanSecond(s, e);
    var h := SkipSpace(s, g);
    var i := if h < |s| && s[h] == ')' then h + 1 else h;
    assert Layout(s, a, b, c, d, e, f, g, h, i);
  }

  /** Whatever way the part before the comma matches, the scan finds the same group and comma. */
  lemma ScanFirstComplete(s: string, a: int, b: int, c: int, d: int, e: int)
    requires 0 <= a <= b <= c <= d <= e < |s|
    requires AllSpace(s, 0, a) && (b == a || (b == a + 1 && s[a] == '('))
    requires AllSpace(s, b, c) && AllDigits(s, c, d) && AllSpace(s, d, e) && s[e] == ','
    ensures ScanFirst(s).2 == e
    ensures Group(s, ScanFirst(s).0, ScanFirst(s).1) == Group(s, c, d)
  {
    if c < d {
      // the group is not empty: every scan position up to it is forced
      if b == a + 1 {
        SkipSpaceIsMaximalRun(s, 0, a);
      } else {
        SkipSpaceIsMaximalRun(s, 0, c);
      }
      SkipSpaceIsMaximalRun(s, b, c);
      SkipSpaceIsMaximalRun(s, c, c);
      SkipDigitsIsMaximalRun(s, c, d);
      SkipSpaceIsMaximalRun(s, d, e);
    } else {
      // an empty group: the scan runs over the whitespace straight to the comma
      if b == a + 1 {
        SkipSpaceIsMaximalRun(s, 0, a);
        SkipSpaceIsMaximalRun(s, b, e);
      } else {
        SkipSpaceIsMaximalRun(s, 0, e);
        SkipSpaceIsMaximalRun(s, e, e);
      }
      SkipDigitsIsMaximalRun(s, e, e);
      SkipSpaceIsMaximalRun(s, e, e);
    }
  }

  /** Whatever way the part after the comma matches, the scan finds the same group and the end. */
  lemma ScanSecondComplete(s: string, e: int, f: int, g: int, h: int, i: int)
    requires 0 <= e < e + 1 <= f <= g <= h <= i <= |s|
    requires AllSpace(s, e + 1, f) && AllDigits(s, f, g) && AllSpace(s, g, h)
    requires i == h || (i == h + 1 && s[h] == ')')
    requires AllSpace(s, i, |s|)
    ensures ScanSecond(s, e).2
    ensures Group(s, ScanSecond(s, e).0, ScanSecond(s, e).1) == Group(s, f, g)
  {
    SkipSpaceIsMaximalRun(s, |s|, |s|);
    if f < g {
      SkipSpaceIsMaximalRun(s, e + 1, f);
      SkipDigitsIsMaximalRun(s, f, g);
      if i == h + 1 {
        SkipSpaceIsMaximalRun(s, g, h);
        SkipSpaceIsMaximalRun(s, i, |s|);
      } else {
        SkipSpaceIsMaximalRun(s, g, |s|);
      }
    } else if i == h + 1 {
      SkipSpaceIsMaximalRun(s, e + 1, h);
      SkipDigitsIsMaximalRun(s, h, h);
      SkipSpaceIsMaximalRun(s, h, h);
      SkipSpaceIsMaximalRun(s, i, |s|);
    } else {
      SkipSpaceIsMaximalRun(s, e + 1, |s|);
      SkipDigitsIsMaximalRun(s, |s|, |s|);
    }
  }

  /** Every value the pattern matches is accepted, with the match's groups. */
  lemma ParseIsComplete(s: string, a: int, b: int, c: int, d: int, e: int, f: int, g: int, h: int, i: int)
    requires Layout(s, a, b, c, d, e, f, g, h, i)
    ensures Parse(s) == Some(Tuple(Group(s, c, d), Group(s, f, g)))
  {
    ScanFirstComplete(s, a, b, c, d, e);
    ScanSecondComplete(s, e, f, g, h, i);
  }

  /** `isNull`: neither part is present. */
  predicate IsNull(t: Tuple)
  {
    t.first.None? && t.second.None?
  }

  /** A parsed tuple is null exactly when both groups matched nothing, as in "," or "( , )". */
  lemma ParsedIsNullIffGroupsEmpty(s: string, a: int, b: int, c: int, d: int, e: int, f: int,
                                   g: int, h: int, i: int)
    requires Layout(s, a, b, c, d, e, f, g, h, i)
    ensures Parse(s).Some? && (IsNull(Parse(s).value) <==> c == d && f == g)
  {
    ParseIsComplete(s, a, b, c, d, e, f, g, h, i);
  }

  /** `toString`: "(", the first part if present, "," and the second part if present, ")". */
  function ToString(t: Tuple): (r: string)
    ensures |r| >= 2 && r[0] == '(' && r[|r| - 1] == ')'
  {
    "(" + t.first.Or("") + (if t.second.Some? then "," + t.second.value else "") + ")"
  }

  /** A part `toString` can print and `parse` read back: absent, or a non-empty digit string. */
  predicate Printable(part: Option<string>)
  {
    part.None? || (part.value != "" && forall k :: 0 <= k < |part.value| ==> IsDigit(part.value[k]))
  }

  /** A tuple whose second part is present reads back as itself. */
  lemma ParseToString(t: Tuple)
    requires Printable(t.first) && Printable(t.second) && t.second.Some?
    ensures Parse(ToString(t)) == Some(t)
  {
    var p := t.first.Or("");
    var q := t.second.value;
    var s := ToString(t);
    assert s == "(" + p + "," + q + ")";
    var e := 1 + |p|;
    var g := e + 1 + |q|;
    assert s[1..e] == p && s[e + 1..g] == q;
    assert AllDigits(s, 1, e) by {
      forall k | 1 <= k < e
        ensures IsDigit(s[k])
      {
        assert s[k] == p[k - 1];
      }
    }
    assert AllDigits(s, e + 1, g) by {
      forall k | e + 1 <= k < g
        ensures IsDigit(s[k])
      {
        assert s[k] == q[k - e - 1];
      }
    }
    assert Layout(s, 0, 1, 1, e, e, e + 1, g, g, g + 1);
    ParseIsComplete(s, 0, 1, 1, e, e, e + 1, g, g, g + 1);
  }

  /** Without a second part the printed form has no comma, so it does not parse: "(5)", "()". */
  lemma ToStringWithoutSecondDoesNotParse(t: Tuple)
    requires Printable(t.first) && t.second.None?
    ensures Parse(ToString(t)).None?
  {
    var s := ToString(t);
    var p := t.first.Or("");
    assert s == "(" + p + ")";
    forall k | 0 <= k < |s|
      ensures s[k] != ','
    {
      if 0 < k < |s| - 1 {
        assert s[k] == p[k - 1];
      }
    }
  }

  /** The parentheses need not balance: "(1,2" is read as the tuple of 1 and 2. */
  lemma UnbalancedParenthesisIsAccepted()
    ensures Parse("(1,2") == Some(Tuple(Some("1"), Some("2")))
  {
    var s := "(1,2";
    assert Layout(s, 0, 1, 1, 2, 2, 3, 4, 4, 4);
    ParseIsComplete(s, 0, 1, 1, 2, 2, 3, 4, 4, 4);
    assert s[1..2] == "1" && s[3..4] == "2";
  }
}
