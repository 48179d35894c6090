/**
 * The Python string built-ins the core relies on: `str.lower`, the `in`
 * substring test, `str.strip`, `str.join` and (as the inverse of `join`)
 * `str.split`.
 */
module PyStr {

  // ---------------------------------------------------------------------------
  // str.lower and `sub in s`
  // ---------------------------------------------------------------------------

  /** Lower-cases ASCII letters and leaves every other character alone. */
  function LowerChar(c: char): char {
    if 'A' <= c <= 'Z' then (c as int - 'A' as int + 'a' as int) as char else c
  }

  function Lower(s: string): (r: string)
    ensures |r| == |s|
    ensures forall i :: 0 <= i < |s| ==> r[i] == LowerChar(s[i])
  {
    seq(|s|, i requires 0 <= i < |s| => LowerChar(s[i]))
  }

  /** Python's `sub in s` for strings: `sub` occurs in `s` as a contiguous run. */
  predicate Contains(s: string, sub: string)
    decreases |s|
  {
    |sub| <= |s| && (s[..|sub|] == sub || Contains(s[1..], sub))
  }

  /** Any string that contains `sub + more` contains `sub`. */
  lemma {:induction false} ContainsLonger(s: string, sub: string, more: string)
    requires Contains(s, sub + more)
    ensures Contains(s, sub)
    decreases |s|
  {
    if s[..|sub + more|] == sub + more {
      assert s[..|sub|] == (sub + more)[..|sub|] == sub;
    } else {
      ContainsLonger(s[1..], sub, more);
    }
  }

  /** A string that contains a non-empty `sub` contains its first character. */
  lemma {:induction false} ContainsFirst(s: string, sub: string)
    requires sub != [] && Contains(s, sub)
    ensures sub[0] in s
    decreases |s|
  {
    if s[..|sub|] == sub {
      assert s[0] == sub[0];
    } else {
      ContainsFirst(s[1..], sub);
    }
  }

  // ---------------------------------------------------------------------------
  // str.strip
  // ---------------------------------------------------------------------------

  /** `c.isspace()` in Python 3: the Unicode White_Space characters plus the
      four ASCII separators 0x1C-0x1F. */
  predicate IsSpace(c: char) {
    ('\t' <= c <= '\r') || ('\U{1C}' <= c <= ' ') || c == '\U{85}' || c == '\U{A0}'
    || c == '\U{1680}' || ('\U{2000}' <= c <= '\U{200A}') || c == '\U{2028}' || c == '\U{2029}'
    || c == '\U{202F}' || c == '\U{205F}' || c == '\U{3000}'
  }

  predicate AllSpace(s: string) {
    forall k :: 0 <= k < |s| ==> IsSpace(s[k])
  }

  /** `s[lo:hi]` is all whitespace. */
  predicate SpaceBetween(s: string, lo: int, hi: int) {
    forall k :: lo <= k < hi && 0 <= k < |s| ==> IsSpace(s[k])
  }

  /** How many whitespace characters `s` starts with. */
  function LeadingSpace(s: string): (n: nat)
    ensures n <= |s| && SpaceBetween(s, 0, n)
    ensures n == |s| || !IsSpace(s[n])
    decreases |s|
  {
    if s != [] && IsSpace(s[0]) then
      var m := LeadingSpace(s[1..]);
      m + 1
    else 0
  }

  /** How many whitespace characters `s` ends with. */
  function TrailingSpace(s: string): (n: nat)
    ensures n <= |s| && SpaceBetween(s, |s| - n, |s|)
    ensures n == |s| || !IsSpace(s[|s| - n - 1])
    decreases |s|
  {
    if s != [] && IsSpace(s[|s| - 1]) then
      var m := TrailingSpace(s[..|s| - 1]);
      m + 1
    else 0
  }

  /** `s.lstrip()` */
  function TrimStart(s: string): string {
    s[LeadingSpace(s)..]
  }

  /** `s.rstrip()` */
  function TrimEnd(s: string): string {
    s[..|s| - TrailingSpace(s)]
  }

  /** `s.strip()`: `s` without its leading and trailing whitespace. */
  function Strip(s: string): (r: string)
    ensures |r| <= |s|
    ensures r == [] || (!IsSpace(r[0]) && !IsSpace(r[|r| - 1]))
  {
    var t := TrimStart(s);
    var r := TrimEnd(t);
    assert r != [] ==> r[0] == t[0] == s[LeadingSpace(s)];
    r
  }

  /** `strip` keeps the part of `s` that follows its leading whitespace,
      and what it drops in front is whitespace. */
  lemma StripKeepsMiddle(s: string)
    ensures var r := Strip(s); var lead := LeadingSpace(s);
      lead + |r| <= |s| && r == s[lead..lead + |r|] && SpaceBetween(s, 0, lead)
  {
    var lead := LeadingSpace(s);
    var t := s[lead..];
    var m := |t| - TrailingSpace(t);
    assert TrimStart(s) == t;
    assert Strip(s) == t[..m];
    DropTake(s, lead, m);
  }

  /** What `strip` drops after the part it keeps is whitespace. */
  lemma StripDropsTrailingSpace(s: string)
    ensures var r := Strip(s); var lead := LeadingSpace(s);
      lead + |r| <= |s| && SpaceBetween(s, lead + |r|, |s|)
  {
    var lead := LeadingSpace(s);
    var t := s[lead..];
    var m := |t| - TrailingSpace(t);
    assert |Strip(s)| == m;
    forall k | lead + m <= k < |s|
      ensures IsSpace(s[k])
    {
      assert s[k] == t[k - lead];
    }
  }

  lemma DropTake(s: string, i: nat, m: nat)
    requires i + m <= |s|
    ensures s[i..][..m] == s[i..i + m]
  {
  }

  /** A run of whitespace in front of a string that does not start with
      whitespace is exactly its leading whitespace. */
  lemma {:induction false} LeadingSpacePadded(pre: string, x: string)
    requires AllSpace(pre)
    requires x == [] || !IsSpace(x[0])
    ensures LeadingSpace(pre + x) == |pre|
    decreases |pre|
  {
    if pre != [] {
      assert (pre + x)[1..] == pre[1..] + x;
      LeadingSpacePadded(pre[1..], x);
    } else {
      assert pre + x == x;
    }
  }

  /** A run of whitespace after a string that does not end with whitespace
      is exactly its trailing whitespace. */
  lemma {:induction false} TrailingSpacePadded(x: string, post: string)
    requires AllSpace(post)
    requires x == [] || !IsSpace(x[|x| - 1])
    ensures TrailingSpace(x + post) == |post|
    decreases |post|
  {
    if post != [] {
      assert (x + post)[..|x + post| - 1] == x + post[..|post| - 1];
      TrailingSpacePadded(x, post[..|post| - 1]);
    } else {
      assert x + post == x;
    }
  }

  /** Stripping removes exactly the whitespace padding around a string that
      neither starts nor ends with whitespace. */
  lemma StripPadded(pre: string, x: string, post: string)
    requires AllSpace(pre) && AllSpace(post)
    requires x == [] || (!IsSpace(x[0]) && !IsSpace(x[|x| - 1]))
    ensures Strip(pre + x + post) == x
  {
    if x == [] {
      assert pre + x + post == (pre + post) + [];
      LeadingSpacePadded(pre + post, []);
    } else {
      assert pre + x + post == pre + (x + post);
      LeadingSpacePadded(pre, x + post);
      assert TrimStart(pre + x + post) == x + post;
      TrailingSpacePadded(x, post);
    }
  }

  /** `s.strip().strip() == s.strip()`. */
  lemma StripIdempotent(s: string)
    ensures Strip(Strip(s)) == Strip(s)
  {
    var r := Strip(s);
    StripPadded([], r, []);
    assert [] + r + [] == r;
  }

  // ---------------------------------------------------------------------------
  // str.join and str.split
  // ---------------------------------------------------------------------------

  /** `sep.join(parts)`. */
  function Join(sep: string, parts: seq<string>): string
    decreases |parts|
  {
    if parts == [] then ""
    else if |parts| == 1 then parts[0]
    else parts[0] + sep + Join(sep, parts[1..])
  }

  /** Joining one more part appends the separator and that part. */
  lemma {:induction false} JoinSnoc(sep: string, parts: seq<string>, p: string)
    ensures Join(sep, parts + [p]) == if parts == [] then p else Join(sep, parts) + sep + p
    decreases |parts|
  {
    if |parts| == 1 {
      assert parts + [p] == [parts[0], p];
    } else if |parts| > 1 {
      assert (parts + [p])[1..] == parts[1..] + [p];
      JoinSnoc(sep, parts[1..], p);
    }
  }

  /** Position of the first `c` in `s`. */
  function IndexOf(s: string, c: char): (i: nat)
    requires c in s
    ensures i < |s| && s[i] == c && c !in s[..i]
  {
    if s[0] == c then 0 else
      var j := IndexOf(s[1..], c);
      assert s[..j + 1] == [s[0]] + s[1..][..j];
      j + 1
  }

  /** `s.split(c)` for a one-character separator: never empty, and `""`
      splits into `[""]`. */
  function Split(s: string, c: char): (r: seq<string>)
    ensures |r| >= 1
    decreases |s|
  {
    if c !in s then [s]
    else
      var i := IndexOf(s, c);
      [s[..i]] + Split(s[i + 1..], c)
  }

  /** Splitting at the first separator of `a + [c] + b` gives `a`, then the split of `b`. */
  lemma SplitFirst(a: string, c: char, b: string)
    requires c !in a
    ensures Split(a + [c] + b, c) == [a] + Split(b, c)
  {
    var s := a + [c] + b;
    assert s[|a|] == c;
    var i := IndexOf(s, c);
    assert s[..i] == a;
    assert s[i + 1..] == b;
  }

  /** `sep.join` is undone by `split` when no part holds the separator. */
  lemma {:induction false} SplitJoin(c: char, parts: seq<string>)
    requires parts != []
    requires forall k :: 0 <= k < |parts| ==> c !in parts[k]
    ensures Split(Join([c], parts), c) == parts
    decreases |parts|
  {
    if |parts| > 1 {
      SplitFirst(parts[0], c, Join([c], parts[1..]));
      SplitJoin(c, parts[1..]);
      assert parts == [parts[0]] + parts[1..];
    }
  }
}
