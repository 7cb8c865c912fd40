/**
 * The parts of Python's `str` that the relays rely on, with Python's exact
 * semantics: `strip()` and `strip(chars)`, `split(sep, maxsplit)` on a single
 * separator character, `sep.join(parts)` and `startswith`.
 */
module PyStr {

  /** `c.isspace()` for a Python 3 string: the characters `str.strip()` removes. */
  predicate IsSpace(c: char) {
    || c == ' '
    || ('\t' <= c <= '\r')
    || ('\U{1C}' <= c <= '\U{1F}')
    || c == '\U{85}' || c == '\U{A0}' || c == '\U{1680}'
    || ('\U{2000}' <= c <= '\U{200A}')
    || c == '\U{2028}' || c == '\U{2029}' || c == '\U{202F}' || c == '\U{205F}' || c == '\U{3000}'
  }

  /** The two characters named by `strip('"\'')`. */
  predicate IsQuote(c: char) {
    c == '"' || c == '\''
  }

  /** Every character of `s` is one that `drop` selects. */
  ghost predicate All(s: string, drop: char -> bool) {
    forall k :: 0 <= k < |s| ==> drop(s[k])
  }

  /** `s.lstrip(...)`: the longest suffix of `s` that does not start with a dropped character. */
  function TrimLeft(s: string, drop: char -> bool): (r: string)
    ensures |r| <= |s| && r == s[|s| - |r|..]
    ensures All(s[..|s| - |r|], drop)
    ensures r != [] ==> !drop(r[0])
  {
    if s != [] && drop(s[0]) then
      var r := TrimLeft(s[1..], drop);
      DropFirst(s, r, drop);
      r
    else s
  }

  /** A dropped first character followed by a run of dropped characters is a longer run. */
  lemma DropFirst(s: string, r: string, drop: char -> bool)
    requires s != [] && drop(s[0])
    requires |r| <= |s[1..]| && r == s[1..][|s[1..]| - |r|..] && All(s[1..][..|s[1..]| - |r|], drop)
    ensures |r| <= |s| && r == s[|s| - |r|..] && All(s[..|s| - |r|], drop)
  {
    var n := |s| - |r|;
    assert forall k :: 1 <= k < n ==> s[..n][k] == s[1..][..n - 1][k - 1];
  }

  /** `s.rstrip(...)`: the longest prefix of `s` that does not end with a dropped character. */
  function TrimRight(s: string, drop: char -> bool): (r: string)
    ensures |r| <= |s| && r == s[..|r|]
    ensures All(s[|r|..], drop)
    ensures r != [] ==> !drop(r[|r| - 1])
  {
    if s != [] && drop(s[|s| - 1]) then TrimRight(s[..|s| - 1], drop) else s
  }

  /**
   * `s.strip(chars)`: every leading and every trailing dropped character goes,
   * however many layers there are, so what remains neither starts nor ends
   * with one (`StripByMiddle` shows it is the middle of `s`).
   */
  function StripBy(s: string, drop: char -> bool): (r: string)
    ensures |r| <= |s|
    ensures r != [] ==> !drop(r[0]) && !drop(r[|r| - 1])
  {
    TrimRight(TrimLeft(s, drop), drop)
  }

  /**
   * What `strip` keeps is the middle of `s`: `s` is a run of dropped
   * characters, the result, and another run of dropped characters.
   */
  lemma StripByMiddle(s: string, drop: char -> bool)
    ensures var left := TrimLeft(s, drop); var r := StripBy(s, drop);
      && s == s[..|s| - |left|] + r + left[|r|..]
      && All(s[..|s| - |left|], drop) && All(left[|r|..], drop)
  {
    var left := TrimLeft(s, drop);
    var r := TrimRight(left, drop);
    SplitAt(s, |s| - |left|);
    SplitAt(left, |r|);
    Regroup3(s[..|s| - |left|], r, left[|r|..]);
  }

  lemma SplitAt(s: string, n: nat)
    requires n <= |s|
    ensures s == s[..n] + s[n..]
  {
  }

  lemma Regroup3(a: string, b: string, c: string)
    ensures a + (b + c) == a + b + c
  {
  }

  lemma {:induction false} TrimLeftSkips(p: string, rest: string, drop: char -> bool)
    requires All(p, drop)
    requires rest != [] ==> !drop(rest[0])
    ensures TrimLeft(p + rest, drop) == rest
  {
    if p == [] {
      assert p + rest == rest;
    } else {
      assert (p + rest)[0] == p[0] && (p + rest)[1..] == p[1..] + rest;
      TrimLeftSkips(p[1..], rest, drop);
    }
  }

  lemma {:induction false} TrimRightSkips(rest: string, q: string, drop: char -> bool)
    requires All(q, drop)
    requires rest != [] ==> !drop(rest[|rest| - 1])
    ensures TrimRight(rest + q, drop) == rest
  {
    if q == [] {
      assert rest + q == rest;
    } else {
      var k := rest + q;
      assert k[|k| - 1] == q[|q| - 1] && k[..|k| - 1] == rest + q[..|q| - 1];
      TrimRightSkips(rest, q[..|q| - 1], drop);
    }
  }

  /**
   * `strip` keeps exactly the middle: when `m` neither starts nor ends with a
   * dropped character and is surrounded only by dropped ones, stripping gives `m`.
   */
  lemma StripByExact(p: string, m: string, q: string, drop: char -> bool)
    requires All(p, drop) && All(q, drop)
    requires m != [] && !drop(m[0]) && !drop(m[|m| - 1])
    ensures StripBy(p + m + q, drop) == m
  {
    assert p + m + q == p + (m + q);
    TrimLeftSkips(p, m + q, drop);
    TrimRightSkips(m, q, drop);
  }

  /** `s.strip()`. */
  function Strip(s: string): string {
    StripBy(s, IsSpace)
  }

  /** `s.strip('"\'')`. */
  function StripQuotes(s: string): string {
    StripBy(s, IsQuote)
  }

  /** `s.startswith(prefix)`. */
  predicate StartsWith(s: string, prefix: string) {
    |prefix| <= |s| && s[..|prefix|] == prefix
  }

  /** `s.endswith(suffix)`. */
  predicate EndsWith(s: string, suffix: string) {
    |suffix| <= |s| && s[|s| - |suffix|..] == suffix
  }

  /** A three-part concatenation starts with its first part and ends with its last. */
  lemma Framed(a: string, b: string, c: string)
    ensures StartsWith(a + b + c, a) && EndsWith(a + b + c, c)
  {
    assert (a + b + c)[..|a|] == a;
    assert (a + b + c)[|a + b|..] == c;
  }

  /** The index of the first `c` in `s` (`s.index(c)`). */
  function IndexOf(s: string, c: char): (i: nat)
    requires c in s
    ensures i < |s| && s[i] == c && c !in s[..i]
  {
    if s[0] == c then 0
    else
      var j := IndexOf(s[1..], c);
      assert s[..j + 1] == [s[0]] + s[1..][..j];
      j + 1
  }

  /** `sep.join(parts)`. */
  function Join(parts: seq<string>, sep: char): string {
    if |parts| == 0 then ""
    else if |parts| == 1 then parts[0]
    else parts[0] + [sep] + Join(parts[1..], sep)
  }

  /**
   * `s.split(sep, maxsplit)` with a one-character separator; a negative
   * `maxsplit` is Python's default (no limit). Consecutive separators give
   * empty parts and the last part keeps the unsplit remainder.
   */
  function Split(s: string, sep: char, maxsplit: int): (parts: seq<string>)
    ensures |parts| >= 1
    ensures maxsplit >= 0 ==> |parts| <= maxsplit + 1
    ensures forall k :: 0 <= k < |parts| - 1 ==> sep !in parts[k]
    ensures maxsplit < 0 ==> sep !in parts[|parts| - 1]
    decreases |s|
  {
    if maxsplit == 0 || sep !in s then [s]
    else
      var i := IndexOf(s, sep);
      var rest := Split(s[i + 1..], sep, if maxsplit < 0 then maxsplit else maxsplit - 1);
      assert forall k :: 1 <= k < |rest| + 1 ==> ([s[..i]] + rest)[k] == rest[k - 1];
      [s[..i]] + rest
  }

  /** One split step: the text before the first separator, then the split of what follows it. */
  lemma SplitStep(s: string, sep: char, maxsplit: int)
    requires maxsplit != 0 && sep in s
    ensures var i := IndexOf(s, sep);
      Split(s, sep, maxsplit) == [s[..i]] + Split(s[i + 1..], sep, if maxsplit < 0 then maxsplit else maxsplit - 1)
  {
  }

  /** Splitting loses nothing: joining the parts back with the separator gives the text again. */
  lemma {:induction false} SplitJoin(s: string, sep: char, maxsplit: int)
    ensures Join(Split(s, sep, maxsplit), sep) == s
    decreases |s|
  {
    if maxsplit != 0 && sep in s {
      var i := IndexOf(s, sep);
      var m := if maxsplit < 0 then maxsplit else maxsplit - 1;
      var rest := Split(s[i + 1..], sep, m);
      SplitStep(s, sep, maxsplit);
      SplitJoin(s[i + 1..], sep, m);
      assert ([s[..i]] + rest)[1..] == rest;
      assert s == s[..i] + [sep] + s[i + 1..];
    }
  }

  /** Number of occurrences of `c` in `s` (`s.count(c)`). */
  function Count(s: string, c: char): nat {
    if s == [] then 0 else (if s[0] == c then 1 else 0) + Count(s[1..], c)
  }

  lemma {:induction false} CountAppend(a: string, b: string, c: char)
    ensures Count(a + b, c) == Count(a, c) + Count(b, c)
  {
    if a == [] {
      assert a + b == b;
    } else {
      assert (a + b)[1..] == a[1..] + b;
      CountAppend(a[1..], b, c);
    }
  }

  lemma {:induction false} CountZero(s: string, c: char)
    ensures Count(s, c) == 0 <==> c !in s
  {
    if s != [] {
      CountZero(s[1..], c);
      assert s == [s[0]] + s[1..];
    }
  }

  function Min(a: int, b: int): int {
    if a <= b then a else b
  }

  /** The first separator accounts for one occurrence; the rest lie after it. */
  lemma CountAfterFirst(s: string, c: char)
    requires c in s
    ensures Count(s, c) == Count(s[IndexOf(s, c) + 1..], c) + 1
  {
    var i := IndexOf(s, c);
    var tail := s[i + 1..];
    assert s == s[..i] + ([c] + tail);
    CountAppend(s[..i], [c] + tail, c);
    CountAppend([c], tail, c);
    CountZero(s[..i], c);
  }

  /**
   * `split(sep, maxsplit)` makes exactly as many splits as it can: the number
   * of parts is one more than the smaller of `maxsplit` and the number of
   * separators in `s`.
   */
  lemma {:induction false} SplitLength(s: string, sep: char, maxsplit: nat)
    ensures |Split(s, sep, maxsplit)| == Min(maxsplit, Count(s, sep)) + 1
    decreases maxsplit
  {
    if maxsplit == 0 || sep !in s {
      SplitLengthBase(s, sep, maxsplit);
    } else {
      var tail := s[IndexOf(s, sep) + 1..];
      SplitLength(tail, sep, maxsplit - 1);
      SplitLengthStep(s, tail, sep, maxsplit);
    }
  }

  /** No split at all: one part, and the smaller of `maxsplit` and the separator count is zero. */
  lemma SplitLengthBase(s: string, sep: char, maxsplit: nat)
    requires maxsplit == 0 || sep !in s
    ensures |Split(s, sep, maxsplit)| == Min(maxsplit, Count(s, sep)) + 1
  {
    CountZero(s, sep);
  }

  /** One split: the first part, then the split of what follows the first separator. */
  lemma SplitLengthStep(s: string, tail: string, sep: char, maxsplit: nat)
    requires maxsplit != 0 && sep in s && tail == s[IndexOf(s, sep) + 1..]
    requires |Split(tail, sep, maxsplit - 1)| == Min(maxsplit - 1, Count(tail, sep)) + 1
    ensures |Split(s, sep, maxsplit)| == Min(maxsplit, Count(s, sep)) + 1
  {
    CountAfterFirst(s, sep);
    SplitStep(s, sep, maxsplit);
  }

  /** `s.find(c)` is the length of `a` when `a` has no `c`. */
  lemma IndexAfterPrefix(a: string, b: string, c: char)
    requires c !in a
    ensures c in a + [c] + b && IndexOf(a + [c] + b, c) == |a|
  {
    var s := a + [c] + b;
    assert s[|a|] == c;
    var i := IndexOf(s, c);
    assert forall k :: 0 <= k < |a| ==> s[k] == a[k] && a[k] in a;
    if i < |a| {
      assert false;
    } else if i > |a| {
      assert false;
    }
  }

  /** Cutting `a + [c] + b` at its first `c` gives back `a` and `b`. */
  lemma CutAtFirst(a: string, b: string, a': string, b': string, c: char)
    requires c !in a && c !in a'
    requires a + [c] + b == a' + [c] + b'
    ensures a == a' && b == b'
  {
    var k := a + [c] + b;
    assert k[|a|] == c && k[|a'|] == c;
    assert forall i :: 0 <= i < |a| ==> k[i] == a[i] && a[i] in a;
    assert forall i :: 0 <= i < |a'| ==> k[i] == a'[i] && a'[i] in a';
    if |a| < |a'| {
      assert false;
    } else if |a'| < |a| {
      assert false;
    }
    assert a == k[..|a|] == a';
    assert b == k[|a| + 1..] == b';
  }

  /** The part of `s` before its first `c` (all of `s` when there is none). */
  function Before(s: string, c: char): string {
    if c in s then s[..IndexOf(s, c)] else s
  }

  /** The part of `s` after its first `c` (empty when there is none). */
  function After(s: string, c: char): string {
    if c in s then s[IndexOf(s, c) + 1..] else ""
  }

  /**
   * `lines = s.split(c)`: `lines[0]` is the text before the first `c`, and
   * `c.join(lines[1:])` is exactly the text after it.
   */
  lemma FirstAndRest(s: string, c: char)
    ensures Split(s, c, -1)[0] == Before(s, c)
    ensures Join(Split(s, c, -1)[1..], c) == After(s, c)
  {
    if c in s {
      var i := IndexOf(s, c);
      SplitStep(s, c, -1);
      SplitJoin(s[i + 1..], c, -1);
      assert Split(s, c, -1)[1..] == Split(s[i + 1..], c, -1);
    }
  }
}
