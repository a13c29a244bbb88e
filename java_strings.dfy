/**
 * The few `java.lang.String` operations the modelled code relies on, with Java's semantics
 * written out: `trim`, ASCII `toLowerCase`, `startsWith`/`endsWith`, and `split` on a single
 * literal character, which drops trailing empty strings; and the regular-expression classes
 * `\s` and `\d`.
 */
module JavaStrings {
  /** The regular-expression class `\s`: space, tab, newline, vertical tab, form feed, return. */
  predicate IsWhitespace(c: char)
  {
    c == ' ' || c == '\t' || c == '\n' || c == '\U{000B}' || c == '\U{000C}' || c == '\r'
  }

  /** The regular-expression class `\d` without the Unicode flag: an ASCII digit. */
  predicate IsDigit(c: char)
  {
    '0' <= c <= '9'
  }

  /** `String.trim` removes every leading and trailing character whose code is at most U+0020. */
  predicate IsTrimmable(c: char) { c <= ' ' }

  /** The index of the first character of `s` from `i` on that `trim` keeps, or `|s|`. */
  function TrimStart(s: string, i: nat): (k: nat)
    requires i <= |s|
    ensures i <= k <= |s|
    ensures forall j :: i <= j < k ==> IsTrimmable(s[j])
    ensures k < |s| ==> !IsTrimmable(s[k])
    decreases |s| - i
  {
    if i < |s| && IsTrimmable(s[i]) then TrimStart(s, i + 1) else i
  }

  /** The index just past the last character of `s[..e]` that `trim` keeps, not below `lo`. */
  function TrimEnd(s: string, lo: nat, e: nat): (k: nat)
    requires lo <= e <= |s|
    ensures lo <= k <= e
    ensures forall j :: k <= j < e ==> IsTrimmable(s[j])
    ensures lo < k ==> !IsTrimmable(s[k - 1])
    decreases e
  {
    if lo < e && IsTrimmable(s[e - 1]) then TrimEnd(s, lo, e - 1) else e
  }

  /**
   * `String.trim`: the infix of `s` between its leading and its trailing trimmable characters;
   * it has no trimmable character at either end.
   */
  function Trim(s: string): (r: string)
    ensures r == [] || (!IsTrimmable(r[0]) && !IsTrimmable(r[|r| - 1]))
    ensures exists k :: 0 <= k <= |s| && r <= s[k..]
    ensures r == [] <==> forall k :: 0 <= k < |s| ==> IsTrimmable(s[k])
  {
    var lo := TrimStart(s, 0);
    var hi := TrimEnd(s, lo, |s|);
    assert s[lo..hi] <= s[lo..];
    assert forall k :: 0 <= k < |s| ==> IsTrimmable(s[k]) || lo <= k < hi;
    s[lo..hi]
  }

  /** A string with no trimmable character at either end is its own `trim`. */
  lemma TrimOfTrimmed(t: string)
    requires t == [] || (!IsTrimmable(t[0]) && !IsTrimmable(t[|t| - 1]))
    ensures Trim(t) == t
  {
    assert t[0..|t|] == t;
  }

  lemma TrimIdempotent(s: string)
    ensures Trim(Trim(s)) == Trim(s)
  {
    TrimOfTrimmed(Trim(s));
  }

  /** ASCII case folding of `String.toLowerCase` (other letters are not modelled). */
  function LowerChar(c: char): char
  {
    if 'A' <= c <= 'Z' then (c as int - 'A' as int + 'a' as int) as char else c
  }

  function ToLower(s: string): (r: string)
    ensures |r| == |s|
    ensures forall i :: 0 <= i < |s| ==> r[i] == LowerChar(s[i])
  {
    seq(|s|, i requires 0 <= i < |s| => LowerChar(s[i]))
  }

  predicate StartsWith(s: string, prefix: string)
  {
    |prefix| <= |s| && s[..|prefix|] == prefix
  }

  predicate EndsWith(s: string, suffix: string)
  {
    |suffix| <= |s| && s[|s| - |suffix|..] == suffix
  }

  /** Every piece of `s` between occurrences of `d`, empty pieces included. */
  function SplitAll(s: string, d: char): (parts: seq<string>)
    ensures |parts| >= 1
    ensures forall k :: 0 <= k < |parts| ==> d !in parts[k]
    decreases |s|
  {
    if s == [] then [""]
    else if s[0] == d then [""] + SplitAll(s[1..], d)
    else
      var rest := SplitAll(s[1..], d);
      [[s[0]] + rest[0]] + rest[1..]
  }

  /** `String.join` with a one-character separator. */
  function Join(parts: seq<string>, d: char): string
  {
    if parts == [] then ""
    else if |parts| == 1 then parts[0]
    else parts[0] + [d] + Join(parts[1..], d)
  }

  /** Joining the pieces with the delimiter gives back the original string. */
  lemma {:induction false} JoinSplitAll(s: string, d: char)
    ensures Join(SplitAll(s, d), d) == s
    decreases |s|
  {
    if s == [] {
    } else if s[0] == d {
      JoinSplitAll(s[1..], d);
      var rest := SplitAll(s[1..], d);
      assert SplitAll(s, d) == [""] + rest;
      assert ([""] + rest)[1..] == rest;
    } else {
      JoinSplitAll(s[1..], d);
      var rest := SplitAll(s[1..], d);
      var parts := [[s[0]] + rest[0]] + rest[1..];
      assert parts[1..] == rest[1..];
      if |rest| == 1 {
        assert Join(parts, d) == [s[0]] + rest[0];
      } else {
        assert Join(rest, d) == rest[0] + [d] + Join(rest[1..], d);
        assert Join(parts, d) == [s[0]] + rest[0] + [d] + Join(rest[1..], d);
      }
      assert s == [s[0]] + s[1..];
    }
  }

  /** The number of pieces is one more than the number of delimiters. */
  lemma {:induction false} SplitAllCount(s: string, d: char)
    ensures |SplitAll(s, d)| == 1 + multiset(s)[d]
    decreases |s|
  {
    if s != [] {
      SplitAllCount(s[1..], d);
      assert s == [s[0]] + s[1..];
      assert multiset(s) == multiset([s[0]]) + multiset(s[1..]);
    }
  }

  function DropTrailingEmpty(parts: seq<string>): (r: seq<string>)
    ensures |r| <= |parts| && r == parts[..|r|]
    ensures r == [] || r[|r| - 1] != ""
    ensures forall k :: |r| <= k < |parts| ==> parts[k] == ""
    decreases |parts|
  {
    if parts == [] then []
    else if parts[|parts| - 1] == "" then DropTrailingEmpty(parts[..|parts| - 1])
    else parts
  }

  /**
   * `String.split` on a one-character regular expression with the default limit: a string
   * with no delimiter gives itself, otherwise the pieces with trailing empty pieces removed.
   */
  function Split(s: string, d: char): (r: seq<string>)
    ensures forall k :: 0 <= k < |r| ==> d !in r[k]
    ensures d !in s ==> r == [s]
    ensures d in s ==> r == [] || r[|r| - 1] != ""
    ensures |r| <= |SplitAll(s, d)| && r == SplitAll(s, d)[..|r|]
  {
    if d !in s then
      assert SplitAll(s, d) == [s] by { SplitAllNoDelimiter(s, d); }
      [s]
    else DropTrailingEmpty(SplitAll(s, d))
  }

  lemma {:induction false} SplitAllNoDelimiter(s: string, d: char)
    requires d !in s
    ensures SplitAll(s, d) == [s]
    decreases |s|
  {
    if s != [] {
      assert s[0] != d && d !in s[1..];
      SplitAllNoDelimiter(s[1..], d);
      assert s == [s[0]] + s[1..];
    }
  }

  /** Splitting a join of delimiter-free, non-empty-tailed pieces gives the pieces back. */
  lemma {:induction false} SplitAllJoin(parts: seq<string>, d: char)
    requires |parts| >= 1
    requires forall k :: 0 <= k < |parts| ==> d !in parts[k]
    ensures SplitAll(Join(parts, d), d) == parts
    decreases |parts|, |parts[0]|
  {
    if |parts| == 1 {
      SplitAllNoDelimiter(parts[0], d);
    } else if parts[0] == "" {
      SplitAllJoin(parts[1..], d);
      var j := Join(parts, d);
      assert j == [d] + Join(parts[1..], d);
      assert j[1..] == Join(parts[1..], d);
      assert parts == [""] + parts[1..];
    } else {
      var p0 := parts[0];
      var shorter := [p0[1..]] + parts[1..];
      assert shorter[1..] == parts[1..];
      assert forall k :: 0 <= k < |shorter| ==> d !in shorter[k] by {
        assert d !in p0;
      }
      SplitAllJoin(shorter, d);
      var j := Join(parts, d);
      assert j == p0 + [d] + Join(parts[1..], d);
      assert Join(shorter, d) == p0[1..] + [d] + Join(parts[1..], d);
      assert j == [p0[0]] + Join(shorter, d);
      assert j[0] == p0[0] && j[0] != d;
      assert j[1..] == Join(shorter, d);
      var rest := SplitAll(j[1..], d);
      assert rest == shorter;
      assert [p0[0]] + p0[1..] == p0;
    }
  }

  /** `split` undoes a join of delimiter-free pieces whose last piece is not empty. */
  lemma SplitJoin(parts: seq<string>, d: char)
    requires |parts| >= 1 && parts[|parts| - 1] != ""
    requires forall k :: 0 <= k < |parts| ==> d !in parts[k]
    ensures Split(Join(parts, d), d) == parts
  {
    SplitAllJoin(parts, d);
    if d !in Join(parts, d) {
      SplitAllNoDelimiter(Join(parts, d), d);
    }
  }

  /** A character that is in no piece and is not the delimiter is not in their join. */
  lemma {:induction false} NotInJoin(parts: seq<string>, d: char, c: char)
    requires c != d
    requires forall k :: 0 <= k < |parts| ==> c !in parts[k]
    ensures c !in Join(parts, d)
    decreases |parts|
  {
    if |parts| > 1 {
      NotInJoin(parts[1..], d, c);
    }
  }
}
