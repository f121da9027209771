/** Text helpers shared by the models: widths, chunks, white space, searching. */
module Text {
  import opened Wrappers

  /** Number of bytes that UTF-8 needs for one scalar value (section 3 of RFC 3629). */
  function Utf8Width(c: char): (w: nat)
    ensures 1 <= w <= 4
  {
    if c as int < 0x80 then 1
    else if c as int < 0x800 then 2
    else if c as int < 0x10000 then 3
    else 4
  }

  /** The length in bytes of a string, as Rust's `str::len` reports it. */
  function ByteLen(s: string): (n: nat)
    ensures |s| <= n
  {
    if s == "" then 0 else Utf8Width(s[0]) + ByteLen(s[1..])
  }

  lemma ByteLenConcat(a: string, b: string)
    ensures ByteLen(a + b) == ByteLen(a) + ByteLen(b)
  {
    if a == "" {
      assert a + b == b;
    } else {
      assert (a + b)[1..] == a[1..] + b;
      ByteLenConcat(a[1..], b);
    }
  }

  lemma ByteLenSnoc(a: string, c: char)
    ensures ByteLen(a + [c]) == ByteLen(a) + Utf8Width(c)
  {
    ByteLenConcat(a, [c]);
    assert [c][1..] == "";
  }

  /** The chunks glued together in order. */
  function Flatten<T>(chunks: seq<seq<T>>): seq<T> {
    if chunks == [] then [] else chunks[0] + Flatten(chunks[1..])
  }

  lemma FlattenConcat<T>(a: seq<seq<T>>, b: seq<seq<T>>)
    ensures Flatten(a + b) == Flatten(a) + Flatten(b)
  {
    if a == [] {
      assert a + b == b;
    } else {
      assert (a + b)[1..] == a[1..] + b;
      FlattenConcat(a[1..], b);
    }
  }

  lemma FlattenSnoc<T>(a: seq<seq<T>>, x: seq<T>)
    ensures Flatten(a + [x]) == Flatten(a) + x
  {
    FlattenConcat(a, [x]);
    assert Flatten([x]) == x + Flatten<T>([x][1..]);
    assert [x][1..] == [];
  }

  /** What `f` gives for each element, glued together in order. */
  function FlatMap<A, B>(f: A -> seq<B>, xs: seq<A>): seq<B> {
    if xs == [] then [] else f(xs[0]) + FlatMap(f, xs[1..])
  }

  lemma {:induction false} FlatMapSnoc<A, B>(f: A -> seq<B>, xs: seq<A>, x: A)
    ensures FlatMap(f, xs + [x]) == FlatMap(f, xs) + f(x)
  {
    var all := xs + [x];
    if xs == [] {
      assert all == [x] && FlatMap(f, all[1..]) == [];
    } else {
      assert all[0] == xs[0] && all[1..] == xs[1..] + [x];
      FlatMapSnoc(f, xs[1..], x);
      Associates(f(xs[0]), FlatMap(f, xs[1..]), f(x));
    }
  }

  lemma FlatMapCons<A, B>(f: A -> seq<B>, x: A, xs: seq<A>)
    ensures FlatMap(f, [x] + xs) == f(x) + FlatMap(f, xs)
  {
    assert ([x] + xs)[1..] == xs;
  }

  lemma Associates<T>(a: seq<T>, b: seq<T>, c: seq<T>)
    ensures (a + b) + c == a + (b + c)
  {
  }

  /** The first `n` elements, or all of them. */
  function Take<T>(s: seq<T>, n: nat): seq<T> {
    if |s| <= n then s else s[..n]
  }

  /** `n` copies of one character. */
  function Repeat(c: char, n: nat): (s: string)
    ensures |s| == n
    ensures forall i :: 0 <= i < n ==> s[i] == c
  {
    seq(n, _ => c)
  }

  lemma ByteLenRepeat(c: char, n: nat)
    requires Utf8Width(c) == 1
    ensures ByteLen(Repeat(c, n)) == n
  {
    if n > 0 {
      assert Repeat(c, n)[1..] == Repeat(c, n - 1);
      ByteLenRepeat(c, n - 1);
    }
  }

  /** Unicode `White_Space`, which is what Rust's `trim` removes. */
  predicate IsWhitespace(c: char) {
    var n := c as int;
    || 0x09 <= n <= 0x0D || n == 0x20 || n == 0x85 || n == 0xA0 || n == 0x1680
    || 0x2000 <= n <= 0x200A || n == 0x2028 || n == 0x2029 || n == 0x202F || n == 0x205F || n == 0x3000
  }

  function TrimStart(s: string): string {
    if s != "" && IsWhitespace(s[0]) then TrimStart(s[1..]) else s
  }

  function TrimEnd(s: string): string {
    if s != "" && IsWhitespace(s[|s| - 1]) then TrimEnd(s[..|s| - 1]) else s
  }

  /** Trimming at the start keeps an end of the text, from its first visible character. */
  lemma {:induction false} TrimStartKeeps(s: string)
    ensures var r := TrimStart(s);
            && |r| <= |s| && r == s[|s| - |r|..] && (forall i :: 0 <= i < |s| - |r| ==> IsWhitespace(s[i]))
            && (r != "" ==> !IsWhitespace(r[0]))
  {
    hide IsWhitespace;
    if s != "" && IsWhitespace(s[0]) {
      var rest, r := s[1..], TrimStart(s[1..]);
      TrimStartKeeps(rest);
      hide TrimStart;
      Tails(s, |rest| - |r|);
      forall i | 0 <= i < |s| - |r| ensures IsWhitespace(s[i]) {
        if i > 0 {
          assert s[i] == rest[i - 1];
        }
      }
    } else {
      assert s[0..] == s;
    }
  }

  lemma Tails(s: string, n: nat)
    requires n < |s|
    ensures s[1..][n..] == s[n + 1..]
  {
  }

  lemma {:induction false} TrimEndKeeps(s: string)
    ensures var r := TrimEnd(s);
            && |r| <= |s| && r == s[..|r|] && (forall i :: |r| <= i < |s| ==> IsWhitespace(s[i]))
            && (r != "" ==> !IsWhitespace(r[|r| - 1]))
  {
    hide IsWhitespace;
    if s != "" && IsWhitespace(s[|s| - 1]) {
      var front := s[..|s| - 1];
      TrimEndKeeps(front);
      hide TrimEnd;
      assert forall i :: 0 <= i < |front| ==> front[i] == s[i];
    } else {
      assert s[..|s|] == s;
    }
  }

  function Trim(s: string): string {
    TrimEnd(TrimStart(s))
  }

  lemma TrimStartOfTrimmed(s: string)
    requires Trimmed(s)
    ensures TrimStart(s) == s
  {
  }

  predicate Trimmed(s: string) {
    s != "" ==> !IsWhitespace(s[0]) && !IsWhitespace(s[|s| - 1])
  }

  lemma {:induction false} TrimmedStays(s: string)
    requires Trimmed(s)
    ensures TrimStart(s) == s && TrimEnd(s) == s
  {
  }

  lemma {:induction false} TrimIsTrimmed(s: string)
    ensures Trimmed(Trim(s))
    ensures Trimmed(s) ==> Trim(s) == s
  {
    var start := TrimStart(s);
    TrimStartKeeps(s);
    TrimEndKeeps(start);
    if Trimmed(s) {
      TrimmedStays(s);
    }
    hide TrimStart, TrimEnd, IsWhitespace;
  }

  /** Trimming takes white space off both ends, and nothing else. */
  lemma TrimTakesMargins(s: string) returns (from: nat, to: nat)
    ensures from <= to <= |s| && Trim(s) == s[from..to]
    ensures forall i :: 0 <= i < from || to <= i < |s| ==> IsWhitespace(s[i])
  {
    TrimStartKeeps(s);
    TrimEndKeeps(TrimStart(s));
    from := |s| - |TrimStart(s)|;
    to := from + |Trim(s)|;
    var start := TrimStart(s);
    assert forall i :: 0 <= i < |start| ==> start[i] == s[from + i];
    forall i | to <= i < |s| ensures IsWhitespace(s[i]) {
      assert s[i] == start[i - from];
    }
  }

  // ------------------------------------------------------------------------------------------
  // Searching.

  /** Where a pattern first occurs. */
  function FirstIndex(s: string, pattern: string): (r: Option<nat>)
    ensures r.Some? ==> r.value + |pattern| <= |s| && s[r.value..r.value + |pattern|] == pattern
  {
    if |s| < |pattern| then None
    else if pattern <= s then Some(0)
    else
      var later := FirstIndex(s[1..], pattern);
      if later.Some? then Some(later.value + 1) else None
  }

  /** What stands before and after the first occurrence of a pattern. */
  function SplitOnce(s: string, pattern: string): (r: Option<(string, string)>)
    ensures r.Some? ==> s == r.value.0 + pattern + r.value.1
  {
    var at := FirstIndex(s, pattern);
    if at.None? then None else Some((s[..at.value], s[at.value + |pattern|..]))
  }

  predicate Lacks(s: string, c: char) {
    forall i :: 0 <= i < |s| ==> s[i] != c
  }

  lemma {:induction false} FirstIndexAfter(before: string, pattern: string, rest: string)
    requires pattern != "" && Lacks(before, pattern[0])
    ensures FirstIndex(before + pattern + rest, pattern) == Some(|before|)
  {
    var s := before + pattern + rest;
    if before == "" {
      assert s == pattern + rest;
    } else {
      assert s[0] == before[0];
      assert s[1..] == before[1..] + pattern + rest;
      FirstIndexAfter(before[1..], pattern, rest);
    }
  }

  lemma SplitOnceAfter(before: string, pattern: string, rest: string)
    requires pattern != "" && Lacks(before, pattern[0])
    ensures SplitOnce(before + pattern + rest, pattern) == Some((before, rest))
  {
    FirstIndexAfter(before, pattern, rest);
    assert (before + pattern + rest)[..|before|] == before;
  }

  predicate Contains(s: string, pattern: string) {
    FirstIndex(s, pattern).Some?
  }

  /** A part of a text, wherever it stands. */
  ghost predicate Within(part: string, s: string) {
    exists i, j :: 0 <= i <= j <= |s| && s[i..j] == part
  }

  lemma Shifted(s: string, i: nat, j: nat)
    requires 0 < i <= j <= |s|
    ensures s[1..][i - 1..j - 1] == s[i..j]
  {
  }

  lemma WithinTail(s: string, pattern: string)
    requires s != "" && !(pattern <= s)
    ensures Within(pattern, s) <==> Within(pattern, s[1..])
  {
    if Within(pattern, s) {
      var i, j :| 0 <= i <= j <= |s| && s[i..j] == pattern;
      NotAtStart(s, pattern, j);
      Shifted(s, i, j);
    }
    if Within(pattern, s[1..]) {
      var i, j :| 0 <= i <= j <= |s[1..]| && s[1..][i..j] == pattern;
      Shifted(s, i + 1, j + 1);
    }
  }

  lemma NotAtStart(s: string, pattern: string, j: nat)
    requires !(pattern <= s) && j <= |s|
    ensures s[0..j] != pattern
  {
  }

  lemma {:induction false} ContainsIff(s: string, pattern: string)
    ensures Contains(s, pattern) <==> Within(pattern, s)
  {
    if pattern <= s {
      assert s[0..|pattern|] == pattern;
    } else if |s| < |pattern| {
      TooShort(s, pattern);
    } else {
      WithinTail(s, pattern);
      hide Within;
      ContainsIff(s[1..], pattern);
    }
  }

  lemma TooShort(s: string, pattern: string)
    requires |s| < |pattern|
    ensures !Within(pattern, s)
  {
    assert forall i, j :: 0 <= i <= j <= |s| ==> |s[i..j]| < |pattern|;
  }
}
