/** The file picker: the best hundred matches out of any number of entries, kept in a bounded heap. */
module FilePrompt {
  import opened Text
  import opened Wrappers

  const MAX_FILE_PROMPT_MATCH_CANDIDATES: nat := 100

  // ------------------------------------------------------------------------------------------
  // Scores.

  function AsciiLower(s: string): (r: string)
    ensures |r| == |s|
  {
    seq(|s|, i requires 0 <= i < |s| => if 'A' <= s[i] <= 'Z' then (s[i] as int + 32) as char else s[i])
  }

  function Split(s: string, separator: char): seq<string>
    decreases |s|
  {
    var split := SplitOnce(s, [separator]);
    if split.None? then [s] else [split.value.0] + Split(split.value.1, separator)
  }

  /** The shortest of the segments that start with the needle, in bytes. */
  function SegmentPrefixLength(segments: seq<string>, needle: string): Option<nat> {
    if segments == [] then None
    else
      var rest := SegmentPrefixLength(segments[1..], needle);
      if !(needle <= segments[0]) then rest
      else if rest.None? || ByteLen(segments[0]) <= rest.value then Some(ByteLen(segments[0]))
      else rest
  }

  /** `fileName` gives the last component of a path, if there is one. */
  function Score(display: string, needle: string, fileName: string -> Option<string>): Option<(nat, nat)> {
    if needle == "" then Some((0, 0))
    else
      var displayLower := AsciiLower(display);
      var basename := fileName(display);
      var basenameLower := AsciiLower(if basename.Some? then basename.value else display);
      var segment := SegmentPrefixLength(Split(displayLower, '/'), needle);
      if basenameLower == needle then Some((0, ByteLen(basenameLower)))
      else if displayLower == needle then Some((1, ByteLen(displayLower)))
      else if needle <= basenameLower then Some((2, ByteLen(basenameLower)))
      else if segment.Some? then Some((3, segment.value))
      else if needle <= displayLower then Some((4, ByteLen(displayLower)))
      else if Contains(basenameLower, needle) then Some((5, ByteLen(basenameLower)))
      else if Contains(displayLower, needle) then Some((6, ByteLen(displayLower)))
      else None
  }

  lemma SliceOfSlice(s: string, k: nat, l: nat, i: nat, j: nat)
    requires k <= l <= |s| && i <= j <= l - k
    ensures s[k..l][i..j] == s[k + i..k + j]
  {
    assert forall m :: 0 <= m < j - i ==> s[k..l][i..j][m] == s[k + i..k + j][m];
  }

  lemma WithinTrans(a: string, b: string, c: string)
    requires Within(a, b) && Within(b, c)
    ensures Within(a, c)
  {
    var i, j :| 0 <= i <= j <= |b| && b[i..j] == a;
    var k, l :| 0 <= k <= l <= |c| && c[k..l] == b;
    SliceOfSlice(c, k, l, i, j);
  }

  lemma PrefixWithin(a: string, s: string)
    requires a <= s
    ensures Within(a, s)
  {
    assert s[0..|a|] == a;
  }

  lemma SuffixWithin(s: string, n: nat)
    requires n <= |s|
    ensures Within(s[n..], s) && Within(s[..n], s)
  {
    assert s[n..|s|] == s[n..] && s[0..n] == s[..n];
  }

  lemma {:induction false} SegmentsWithin(s: string, separator: char, needle: string)
    requires SegmentPrefixLength(Split(s, separator), needle).Some?
    ensures Within(needle, s)
    decreases |s|
  {
    var split := SplitOnce(s, [separator]);
    var segments := Split(s, separator);
    assert split.None? ==> segments[1..] == [];
    if needle <= segments[0] {
      PrefixWithin(needle, segments[0]);
      if split.Some? {
        SuffixWithin(s, |split.value.0|);
      } else {
        SuffixWithin(s, |s|);
      }
      WithinTrans(needle, segments[0], s);
    } else if split.Some? {
      assert segments[1..] == Split(split.value.1, separator);
      SegmentsWithin(split.value.1, separator, needle);
      SuffixWithin(s, |split.value.0| + 1);
      assert s[|split.value.0| + 1..] == split.value.1;
      WithinTrans(needle, split.value.1, s);
    }
  }

  lemma LowerWithin(part: string, s: string)
    requires Within(part, s)
    ensures Within(AsciiLower(part), AsciiLower(s))
  {
    var i, j :| 0 <= i <= j <= |s| && s[i..j] == part;
    var lower := AsciiLower(s);
    assert forall k :: 0 <= k < j - i ==> part[k] == s[i + k];
    assert lower[i..j] == AsciiLower(part);
  }

  /** An entry is offered exactly when its path, whatever the case, contains the needle somewhere. */
  lemma OfferedIff(display: string, needle: string, fileName: string -> Option<string>)
    requires fileName(display).Some? ==> Within(fileName(display).value, display)
    ensures Score(display, needle, fileName).Some? <==> Within(needle, AsciiLower(display))
  {
    hide AsciiLower, Contains, Split, SegmentPrefixLength, Within, ByteLen;
    var displayLower := AsciiLower(display);
    var basename := if fileName(display).Some? then fileName(display).value else display;
    SuffixWithin(display, |display|);
    assert display[..|display|] == display;
    LowerWithin(basename, display);
    var basenameLower := AsciiLower(basename);
    ContainsIff(displayLower, needle);
    ContainsIff(basenameLower, needle);
    if needle <= basenameLower {
      PrefixWithin(needle, basenameLower);
    }
    if Within(needle, basenameLower) {
      WithinTrans(needle, basenameLower, displayLower);
    }
    if needle <= displayLower {
      PrefixWithin(needle, displayLower);
    }
    if SegmentPrefixLength(Split(displayLower, '/'), needle).Some? {
      SegmentsWithin(displayLower, '/', needle);
    }
  }

  /** The file name of a path, or the path itself. */
  function Basename(display: string, fileName: string -> Option<string>): string {
    if fileName(display).Some? then fileName(display).value else display
  }

  /** A part of a path between two slashes, or between one and an end. */
  predicate Segment(path: string, i: nat, j: nat)
    requires i <= j <= |path|
  {
    Lacks(path[i..j], '/') && (i == 0 || path[i - 1] == '/') && (j == |path| || path[j] == '/')
  }

  ghost predicate StartsSegment(path: string, needle: string) {
    exists i, j :: 0 <= i <= j <= |path| && Segment(path, i, j) && needle <= path[i..j]
  }

  /** The ways in which an entry can match, the best first. */
  ghost predicate Matches(rank: nat, path: string, name: string, needle: string) {
    match rank
    case 0 => name == needle
    case 1 => path == needle
    case 2 => needle <= name
    case 3 => StartsSegment(path, needle)
    case 4 => needle <= path
    case 5 => Within(needle, name)
    case 6 => Within(needle, path)
    case _ => false
  }

  /** The length that counts: that of the shortest segment in question, of the name, or of the path. */
  ghost predicate MatchedLength(rank: nat, path: string, name: string, needle: string, length: nat) {
    if rank == 3 then
      && (exists i, j :: 0 <= i <= j <= |path| && Segment(path, i, j) && needle <= path[i..j] &&
                         ByteLen(path[i..j]) == length)
      && forall i, j :: 0 <= i <= j <= |path| && Segment(path, i, j) && needle <= path[i..j] ==>
                          length <= ByteLen(path[i..j])
    else length == ByteLen(if rank in {0, 2, 5} then name else path)
  }

  ghost predicate HasSegment(path: string, part: string) {
    exists i, j :: 0 <= i <= j <= |path| && Segment(path, i, j) && path[i..j] == part
  }

  lemma WholeSegment(path: string, part: string)
    requires Lacks(path, '/')
    ensures HasSegment(path, part) <==> part == path
  {
    assert Segment(path, 0, |path|) && path[0..|path|] == path;
  }

  /** Behind its first slash a path goes on with the segments of the rest. */
  lemma FirstSegment(path: string, n: nat, part: string)
    requires n < |path| && path[n] == '/' && Lacks(path[..n], '/')
    ensures HasSegment(path, part) <==> part == path[..n] || HasSegment(path[n + 1..], part)
  {
    var rest := path[n + 1..];
    assert Segment(path, 0, n) && path[0..n] == path[..n];
    if HasSegment(rest, part) {
      var i, j :| 0 <= i <= j <= |rest| && Segment(rest, i, j) && rest[i..j] == part;
      LaterSegment(path, n, i, j);
    }
    if HasSegment(path, part) && part != path[..n] {
      var i, j :| 0 <= i <= j <= |path| && Segment(path, i, j) && path[i..j] == part;
      if i <= n && (i != 0 || j != n) {
        BehindFirst(path, n, i, j);
      } else if n < i {
        EarlierSegment(path, n, i, j);
      }
    }
  }

  lemma LaterSegment(path: string, n: nat, i: nat, j: nat)
    requires n < |path| && path[n] == '/' && i <= j <= |path| - n - 1 && Segment(path[n + 1..], i, j)
    ensures Segment(path, i + n + 1, j + n + 1) && path[i + n + 1..j + n + 1] == path[n + 1..][i..j]
  {
    assert path[i + n + 1..j + n + 1] == path[n + 1..][i..j];
  }

  lemma BehindFirst(path: string, n: nat, i: nat, j: nat)
    requires n < |path| && path[n] == '/' && Lacks(path[..n], '/') && i <= n && i <= j <= |path| && (i != 0 || j != n)
    ensures !Segment(path, i, j)
  {
    assert i > 0 ==> path[i - 1] == path[..n][i - 1];
    assert j > n ==> path[i..j][n - i] == path[n];
    assert j < n ==> path[j] == path[..n][j];
  }

  lemma EarlierSegment(path: string, n: nat, i: nat, j: nat)
    requires n < i <= j <= |path| && path[n] == '/' && Segment(path, i, j)
    ensures Segment(path[n + 1..], i - n - 1, j - n - 1) && path[n + 1..][i - n - 1..j - n - 1] == path[i..j]
  {
    assert path[n + 1..][i - n - 1..j - n - 1] == path[i..j];
  }

  /** The segments of a path are the parts it is split into. */
  lemma {:induction false} SplitIs(path: string, part: string)
    ensures part in Split(path, '/') <==> HasSegment(path, part)
    decreases |path|
  {
    hide HasSegment, Lacks;
    var split := SplitOnce(path, "/");
    if split.None? {
      NoSlash(path);
      WholeSegment(path, part);
    } else {
      FirstSlash(path);
      FirstSegment(path, |split.value.0|, part);
      assert path[|split.value.0| + 1..] == split.value.1;
      SplitIs(split.value.1, part);
    }
  }

  lemma NoSlash(path: string)
    requires SplitOnce(path, "/").None?
    ensures Lacks(path, '/')
  {
    FirstIs(path);
  }

  lemma {:induction false} FirstIs(path: string)
    ensures FirstIndex(path, "/").None? ==> Lacks(path, '/')
    ensures FirstIndex(path, "/").Some? ==>
              path[FirstIndex(path, "/").value] == '/' && Lacks(path[..FirstIndex(path, "/").value], '/')
  {
    if path != "" && path[0] != '/' {
      FirstIs(path[1..]);
      var later := FirstIndex(path[1..], "/");
      if later.Some? {
        assert path[..later.value + 1] == [path[0]] + path[1..][..later.value];
      } else {
        assert path == [path[0]] + path[1..];
      }
    }
  }

  lemma FirstSlash(path: string)
    requires SplitOnce(path, "/").Some?
    ensures var first := SplitOnce(path, "/").value.0;
            |first| < |path| && path[|first|] == '/' && Lacks(first, '/') && path[..|first|] == first
  {
    FirstIs(path);
  }

  lemma {:induction false} ShortestPrefixed(segments: seq<string>, needle: string)
    ensures var r := SegmentPrefixLength(segments, needle);
            && (r.None? <==> forall k :: 0 <= k < |segments| ==> !(needle <= segments[k]))
            && (r.Some? ==> (exists k :: 0 <= k < |segments| && needle <= segments[k] && ByteLen(segments[k]) == r.value) &&
                            forall k :: 0 <= k < |segments| && needle <= segments[k] ==> r.value <= ByteLen(segments[k]))
  {
    hide ByteLen;
    if segments != [] {
      ShortestPrefixed(segments[1..], needle);
      assert forall k :: 0 < k < |segments| ==> segments[k] == segments[1..][k - 1];
      var rest := SegmentPrefixLength(segments[1..], needle);
      if rest.Some? {
        var k :| 0 <= k < |segments[1..]| && needle <= segments[1..][k] && ByteLen(segments[1..][k]) == rest.value;
        assert segments[k + 1] == segments[1..][k];
      }
    }
  }

  lemma SegmentsAre(path: string, needle: string)
    ensures SegmentPrefixLength(Split(path, '/'), needle).Some? <==> StartsSegment(path, needle)
    ensures SegmentPrefixLength(Split(path, '/'), needle).Some? ==>
              MatchedLength(3, path, "", needle, SegmentPrefixLength(Split(path, '/'), needle).value)
  {
    hide Split, SegmentPrefixLength, Segment, ByteLen;
    var segments := Split(path, '/');
    ShortestPrefixed(segments, needle);
    forall i, j | 0 <= i <= j <= |path| && Segment(path, i, j) ensures path[i..j] in segments {
      SplitIs(path, path[i..j]);
      assert HasSegment(path, path[i..j]);
    }
    forall k | 0 <= k < |segments|
      ensures exists i, j :: 0 <= i <= j <= |path| && Segment(path, i, j) && path[i..j] == segments[k]
    {
      SplitIs(path, segments[k]);
    }
  }

  /** The rank of an entry is the best way in which it matches, whatever the case, and its length is that of
      what matches. */
  lemma RankIsBest(display: string, needle: string, fileName: string -> Option<string>)
    requires needle != ""
    ensures var path, name := AsciiLower(display), AsciiLower(Basename(display, fileName));
            var score := Score(display, needle, fileName);
            if score.None? then forall rank :: !Matches(rank, path, name, needle)
            else
              && Matches(score.value.0, path, name, needle)
              && (forall rank :: 0 <= rank < score.value.0 ==> !Matches(rank, path, name, needle))
              && MatchedLength(score.value.0, path, name, needle, score.value.1)
  {
    hide AsciiLower, Split, SegmentPrefixLength, StartsSegment, ByteLen, Contains;
    var path, name := AsciiLower(display), AsciiLower(Basename(display, fileName));
    SegmentsAre(path, needle);
    ContainsIff(path, needle);
    ContainsIff(name, needle);
    hide Within;
  }

  /** Without a needle every entry is as good as any other. */
  lemma NoNeedle(display: string, fileName: string -> Option<string>)
    ensures Score(display, "", fileName) == Some((0, 0))
  {
  }

  // ------------------------------------------------------------------------------------------
  // The order of entries.

  datatype Entry = Entry(rank: nat, length: nat, path: string)

  predicate PathLeq(a: string, b: string) {
    a == "" || (b != "" && (a[0] < b[0] || (a[0] == b[0] && PathLeq(a[1..], b[1..]))))
  }

  predicate Leq(a: Entry, b: Entry) {
    || a.rank < b.rank
    || (a.rank == b.rank && (a.length < b.length || (a.length == b.length && PathLeq(a.path, b.path))))
  }

  lemma {:induction false} PathOrder(a: string, b: string, c: string)
    ensures PathLeq(a, b) || PathLeq(b, a)
    ensures PathLeq(a, b) && PathLeq(b, a) ==> a == b
    ensures PathLeq(a, b) && PathLeq(b, c) ==> PathLeq(a, c)
  {
    if a != "" && b != "" {
      PathOrder(a[1..], b[1..], if c == "" then "" else c[1..]);
      assert a == [a[0]] + a[1..] && b == [b[0]] + b[1..];
    }
  }

  lemma EntryOrder(a: Entry, b: Entry, c: Entry)
    ensures Leq(a, b) || Leq(b, a)
    ensures Leq(a, b) && Leq(b, a) ==> a == b
    ensures Leq(a, b) && Leq(b, c) ==> Leq(a, c)
  {
    hide PathLeq;
    PathOrder(a.path, b.path, c.path);
  }

  /** Paths are ordered letter by letter, a path before those it begins. */
  lemma {:induction false} PathLeqIff(a: string, b: string)
    ensures PathLeq(a, b) <==> a <= b || exists k :: 0 <= k < |a| && k < |b| && a[..k] == b[..k] && a[k] < b[k]
  {
    if a != "" && b != "" && a[0] == b[0] {
      var c, d := a[1..], b[1..];
      PathLeqIff(c, d);
      assert a == [a[0]] + c && b == [b[0]] + d;
      forall k | 0 <= k < |c| && k < |d| ensures c[..k] == d[..k] <==> a[..k + 1] == b[..k + 1] {
        assert a[..k + 1] == [a[0]] + c[..k] && b[..k + 1] == [b[0]] + d[..k];
        assert c[..k] == a[..k + 1][1..] && d[..k] == b[..k + 1][1..];
      }
      if k :| 0 <= k < |c| && k < |d| && c[..k] == d[..k] && c[k] < d[k] {
        assert a[k + 1] < b[k + 1] && a[..k + 1] == b[..k + 1];
      }
      if k :| 0 <= k < |a| && k < |b| && a[..k] == b[..k] && a[k] < b[k] {
        assert k > 0 && a[..k] == a[..k - 1 + 1];
        assert c[k - 1] < d[k - 1];
      }
    } else if a != "" && b != "" {
      assert a[..0] == b[..0];
    }
  }

  /** The rank decides first, then the length, then the path. */
  lemma LeqIs(a: Entry, b: Entry)
    ensures a.rank < b.rank ==> Leq(a, b) && !Leq(b, a)
    ensures a.rank == b.rank && a.length < b.length ==> Leq(a, b) && !Leq(b, a)
    ensures a.rank == b.rank && a.length == b.length ==> (Leq(a, b) <==> PathLeq(a.path, b.path))
  {
    hide PathLeq;
  }

  predicate Ordered(s: seq<Entry>) {
    forall i, j :: 0 <= i < j < |s| ==> Leq(s[i], s[j])
  }

  function Insert(s: seq<Entry>, x: Entry): (r: seq<Entry>)
    ensures |r| == |s| + 1 && multiset(r) == multiset(s) + multiset{x}
  {
    if s == [] then [x]
    else if Leq(x, s[0]) then [x] + s
    else
      assert s == [s[0]] + s[1..];
      [s[0]] + Insert(s[1..], x)
  }

  function Sorted(s: seq<Entry>): (r: seq<Entry>)
    ensures |r| == |s| && multiset(r) == multiset(s)
  {
    if s == [] then []
    else
      assert s == s[..|s| - 1] + [s[|s| - 1]];
      Insert(Sorted(s[..|s| - 1]), s[|s| - 1])
  }

  lemma {:induction false} InsertOrdered(s: seq<Entry>, x: Entry)
    requires Ordered(s)
    ensures Ordered(Insert(s, x))
    ensures forall i :: 0 <= i <= |s| ==> Insert(s, x)[i] == x || Insert(s, x)[i] in s
  {
    hide Leq;
    if s != [] {
      if Leq(x, s[0]) {
        forall j | 0 <= j < |s| ensures Leq(x, s[j]) {
          EntryOrder(x, s[0], s[j]);
        }
      } else {
        InsertOrdered(s[1..], x);
        EntryOrder(x, s[0], x);
      }
    }
  }

  lemma {:induction false} SortedOrdered(s: seq<Entry>)
    ensures Ordered(Sorted(s))
  {
    hide Ordered, Insert;
    if s != [] {
      SortedOrdered(s[..|s| - 1]);
      InsertOrdered(Sorted(s[..|s| - 1]), s[|s| - 1]);
    } else {
      NothingOrdered();
    }
  }

  lemma NothingOrdered()
    ensures Ordered([])
  {
  }

  lemma LeastFirst(s: seq<Entry>, x: Entry)
    requires Ordered(s) && x in multiset(s)
    ensures s != [] && Leq(s[0], x)
  {
    hide Leq;
    var i :| 0 <= i < |s| && s[i] == x;
    EntryOrder(x, x, x);
  }

  lemma GreatestLast(s: seq<Entry>, x: Entry)
    requires Ordered(s) && x in multiset(s)
    ensures s != [] && Leq(x, s[|s| - 1])
  {
    hide Leq;
    var i :| 0 <= i < |s| && s[i] == x;
    EntryOrder(x, x, x);
  }

  lemma WithoutFirst(s: seq<Entry>)
    requires s != []
    ensures multiset(s) == multiset(s[1..]) + multiset{s[0]}
  {
    assert s == [s[0]] + s[1..];
  }

  lemma WithoutLast(s: seq<Entry>)
    requires s != []
    ensures multiset(s) == multiset(s[..|s| - 1]) + multiset{s[|s| - 1]}
  {
    assert s == s[..|s| - 1] + [s[|s| - 1]];
  }

  lemma Cancel(a: multiset<Entry>, b: multiset<Entry>, x: Entry)
    requires a + multiset{x} == b + multiset{x}
    ensures a == b
  {
    assert a == (a + multiset{x}) - multiset{x};
    assert b == (b + multiset{x}) - multiset{x};
  }

  /** There is one way to put the same entries in order. */
  lemma {:induction false} OrderedUnique(s: seq<Entry>, t: seq<Entry>)
    requires Ordered(s) && Ordered(t) && multiset(s) == multiset(t)
    ensures s == t
  {
    hide Leq;
    if s == [] {
      assert |t| == |multiset(t)| == 0;
    } else {
      WithoutFirst(s);
      LeastFirst(t, s[0]);
      WithoutFirst(t);
      LeastFirst(s, t[0]);
      EntryOrder(s[0], t[0], s[0]);
      Cancel(multiset(s[1..]), multiset(t[1..]), s[0]);
      OrderedUnique(s[1..], t[1..]);
      assert s == [s[0]] + s[1..] && t == [t[0]] + t[1..];
    }
  }

  // ------------------------------------------------------------------------------------------
  // The bounded heap.

  lemma TakeCons(first: Entry, rest: seq<Entry>, n: nat)
    requires n > 0
    ensures Take([first] + rest, n) == [first] + Take(rest, n - 1)
  {
  }

  /** The first `n` after an insertion depend only on the first `n` before it. */
  lemma {:induction false} TakeInsert(s: seq<Entry>, x: Entry, n: nat)
    ensures Take(Insert(s, x), n) == Take(Insert(Take(s, n), x), n)
  {
    hide Leq;
    if |s| > n {
      var t := s[..n];
      if n > 0 && !Leq(x, s[0]) {
        TakeInsert(s[1..], x, n - 1);
        assert t[0] == s[0] && t[1..] == s[1..][..n - 1];
        TakeCons(s[0], Insert(s[1..], x), n);
        TakeCons(s[0], Insert(t[1..], x), n);
      } else if n > 0 {
        assert Insert(s, x) == [x] + s && Insert(t, x) == [x] + t;
        assert ([x] + s)[..n] == [x] + s[..n - 1] && ([x] + t)[..n] == [x] + t[..n - 1];
        assert t[..n - 1] == s[..n - 1];
      }
    }
  }

  /** Popping the heap removes a greatest element; where it stands is of no account. */
  method PopLargest(heap: seq<Entry>) returns (rest: seq<Entry>, largest: Entry)
    requires heap != []
    ensures multiset(heap) == multiset(rest) + multiset{largest}
    ensures forall i :: 0 <= i < |heap| ==> Leq(heap[i], largest)
  {
    hide Leq;
    var at := 0;
    EntryOrder(heap[0], heap[0], heap[0]);
    for i := 1 to |heap|
      invariant 0 <= at < |heap|
      invariant forall j :: 0 <= j < i ==> Leq(heap[j], heap[at])
    {
      EntryOrder(heap[at], heap[i], heap[i]);
      if !Leq(heap[i], heap[at]) {
        forall j | 0 <= j < i ensures Leq(heap[j], heap[i]) {
          EntryOrder(heap[j], heap[at], heap[i]);
        }
        EntryOrder(heap[i], heap[i], heap[i]);
        at := i;
      }
    }
    largest := heap[at];
    rest := heap[..at] + heap[at + 1..];
    assert heap == heap[..at] + [largest] + heap[at + 1..];
  }

  /** Without its greatest element, a heap that holds one entry too many holds the first ones in order. */
  lemma {:induction false} WithoutLargest(best: seq<Entry>, x: Entry, heap: seq<Entry>, rest: seq<Entry>, largest: Entry)
    requires Ordered(best) && multiset(heap) == multiset(best) + multiset{x}
    requires multiset(heap) == multiset(rest) + multiset{largest}
    requires forall i :: 0 <= i < |heap| ==> Leq(heap[i], largest)
    ensures multiset(rest) == multiset(Insert(best, x)[..|best|])
  {
    hide Leq, Insert, Ordered;
    var all := Insert(best, x);
    InsertOrdered(best, x);
    WithoutLast(all);
    assert largest in multiset(heap) && all[|best|] in multiset(heap);
    GreatestLast(all, largest);
    IsAmong(heap, all[|best|]);
    EntryOrder(all[|best|], largest, largest);
    Cancel(multiset(rest), multiset(all[..|best|]), largest);
  }

  lemma IsAmong(s: seq<Entry>, x: Entry)
    requires x in multiset(s)
    ensures exists i :: 0 <= i < |s| && s[i] == x
  {
  }

  /** All entries that match, with their scores. */
  function Scored(entries: seq<string>, needle: string, fileName: string -> Option<string>): seq<Entry> {
    if entries == [] then []
    else
      var front, last := Scored(entries[..|entries| - 1], needle, fileName), entries[|entries| - 1];
      var score := Score(last, needle, fileName);
      if score.None? then front else front + [Entry(score.value.0, score.value.1, last)]
  }

  function Paths(s: seq<Entry>): seq<string> {
    seq(|s|, i requires 0 <= i < |s| => s[i].path)
  }

  /** One round of the loop: push, and pop if there is one too many. */
  method Offer(heap: seq<Entry>, entry: Entry, ghost best: seq<Entry>) returns (bounded: seq<Entry>)
    requires Ordered(best) && multiset(heap) == multiset(best) && |best| <= MAX_FILE_PROMPT_MATCH_CANDIDATES
    ensures multiset(bounded) == multiset(Take(Insert(best, entry), MAX_FILE_PROMPT_MATCH_CANDIDATES))
  {
    hide Leq, Ordered, Insert;
    bounded := heap + [entry];
    assert |heap| == |multiset(heap)| == |multiset(best)| == |best|;
    if |bounded| > MAX_FILE_PROMPT_MATCH_CANDIDATES {
      ghost var pushed := bounded;
      var largest;
      bounded, largest := PopLargest(bounded);
      WithoutLargest(best, entry, pushed, bounded, largest);
    }
  }

  ghost function Best(entries: seq<string>, needle: string, fileName: string -> Option<string>): seq<Entry> {
    Take(Sorted(Scored(entries, needle, fileName)), MAX_FILE_PROMPT_MATCH_CANDIDATES)
  }

  /** The picker for a needle without a slash: the first hundred of all matches in order. */
  method FilePromptMatches(entries: seq<string>, needle: string, fileName: string -> Option<string>)
    returns (matches: seq<string>, total: nat)
    ensures matches == Paths(Best(entries, AsciiLower(needle), fileName))
    ensures total == |entries|
  {
    hide Score, AsciiLower, Insert, Ordered, Best;
    total := |entries|;
    var needleLower := AsciiLower(needle);
    var heap: seq<Entry> := [];
    NoneBest(needleLower, fileName);
    for i := 0 to |entries|
      invariant multiset(heap) == multiset(Best(entries[..i], needleLower, fileName))
    {
      BestStep(entries, i, needleLower, fileName);
      var score := Score(entries[i], needleLower, fileName);
      if score.None? {
        continue;
      }
      heap := Offer(heap, Entry(score.value.0, score.value.1, entries[i]), Best(entries[..i], needleLower, fileName));
    }
    assert entries[..|entries|] == entries;
    var ranked := Sorted(heap);
    SortedOrdered(heap);
    BestOrdered(Scored(entries, needleLower, fileName));
    BestIs(entries, needleLower, fileName);
    OrderedUnique(ranked, Best(entries, needleLower, fileName));
    matches := Paths(ranked);
  }

  lemma BestIs(entries: seq<string>, needle: string, fileName: string -> Option<string>)
    ensures Best(entries, needle, fileName) ==
            Take(Sorted(Scored(entries, needle, fileName)), MAX_FILE_PROMPT_MATCH_CANDIDATES)
  {
  }

  lemma NoneBest(needle: string, fileName: string -> Option<string>)
    ensures Best([], needle, fileName) == []
  {
  }

  lemma BestStep(entries: seq<string>, i: nat, needle: string, fileName: string -> Option<string>)
    requires i < |entries|
    ensures var before, after := Best(entries[..i], needle, fileName), Best(entries[..i + 1], needle, fileName);
            var score := Score(entries[i], needle, fileName);
            && Ordered(before) && |before| <= MAX_FILE_PROMPT_MATCH_CANDIDATES
            && after == if score.None? then before
                        else Take(Insert(before, Entry(score.value.0, score.value.1, entries[i])),
                                  MAX_FILE_PROMPT_MATCH_CANDIDATES)
  {
    hide Score, Insert, Ordered, Sorted;
    assert entries[..i + 1][..i] == entries[..i];
    BestOrdered(Scored(entries[..i], needle, fileName));
    var score := Score(entries[i], needle, fileName);
    if score.Some? {
      NextBest(Scored(entries[..i], needle, fileName), Entry(score.value.0, score.value.1, entries[i]));
    }
  }

  lemma NextBest(before: seq<Entry>, entry: Entry)
    ensures Take(Sorted(before + [entry]), MAX_FILE_PROMPT_MATCH_CANDIDATES) ==
            Take(Insert(Take(Sorted(before), MAX_FILE_PROMPT_MATCH_CANDIDATES), entry), MAX_FILE_PROMPT_MATCH_CANDIDATES)
  {
    hide Insert;
    assert (before + [entry])[..|before|] == before;
    TakeInsert(Sorted(before), entry, MAX_FILE_PROMPT_MATCH_CANDIDATES);
  }

  lemma BestOrdered(s: seq<Entry>)
    ensures Ordered(Take(Sorted(s), MAX_FILE_PROMPT_MATCH_CANDIDATES))
  {
    hide Leq, Sorted;
    SortedOrdered(s);
  }

  /** Whatever is left out ranks no better than anything that is offered. */
  lemma {:induction false} LeftOutRanksBehind(s: seq<Entry>, offered: nat, leftOut: nat)
    requires offered < MAX_FILE_PROMPT_MATCH_CANDIDATES <= leftOut < |s|
    ensures Leq(Sorted(s)[offered], Sorted(s)[leftOut])
  {
    hide Leq, Sorted;
    SortedOrdered(s);
  }
}
