/** The abstract file cache: a list of slots from least to most recently used. */
module RecencyList {
  import opened Text
  import opened Maps
  import opened Wrappers

  type Path = string

  const MAX_CACHE_ENTRIES: nat := 64
  const MAX_CACHE_TOTAL_BYTES: nat := 2 * 1024 * 1024
  const MAX_CACHE_FILE_BYTES: nat := 64 * 1024

  datatype FileFingerprint = FileFingerprint(len: nat, modified: int)

  datatype Slot = Slot(path: Path, content: string, fingerprint: FileFingerprint)

  predicate Distinct(l: seq<Slot>) {
    forall i, j :: 0 <= i < j < |l| ==> l[i].path != l[j].path
  }

  function Bytes(l: seq<Slot>): nat {
    if l == [] then 0 else ByteLen(l[0].content) + Bytes(l[1..])
  }

  predicate Fits(l: seq<Slot>) {
    |l| <= MAX_CACHE_ENTRIES && Bytes(l) <= MAX_CACHE_TOTAL_BYTES
  }

  function Shrink(l: seq<Slot>): seq<Slot> {
    if Fits(l) then l else Shrink(l[1..])
  }

  /** The position of a path, or the length of the list when it is not resident. */
  function IndexOf(l: seq<Slot>, path: Path): (i: nat)
    ensures i <= |l|
    ensures i < |l| ==> l[i].path == path
    ensures forall j :: 0 <= j < i ==> l[j].path != path
  {
    if l == [] || l[0].path == path then 0 else 1 + IndexOf(l[1..], path)
  }

  function Without(l: seq<Slot>, path: Path): (r: seq<Slot>) {
    var i := IndexOf(l, path);
    if i < |l| then l[..i] + l[i + 1..] else l
  }

  /** A lookup: a hit moves the slot to the newest end, a stale fingerprint forgets it. */
  function Lookup(l: seq<Slot>, path: Path, fingerprint: FileFingerprint): (seq<Slot>, Option<string>) {
    var i := IndexOf(l, path);
    if i < |l| && l[i].fingerprint == fingerprint then (Without(l, path) + [l[i]], Some(l[i].content))
    else (Without(l, path), None)
  }

  function Insert(l: seq<Slot>, slot: Slot): seq<Slot> {
    Shrink(Without(l, slot.path) + [slot])
  }

  // ------------------------------------------------------------------------------------------

  lemma WithoutAt(l: seq<Slot>, path: Path)
    ensures Without(l, path) == if IndexOf(l, path) < |l| then l[..IndexOf(l, path)] + l[IndexOf(l, path) + 1..] else l
  {
  }

  lemma ShrinkStep(l: seq<Slot>)
    ensures |l| <= MAX_CACHE_ENTRIES && Bytes(l) <= MAX_CACHE_TOTAL_BYTES ==> Shrink(l) == l
    ensures |l| > MAX_CACHE_ENTRIES || Bytes(l) > MAX_CACHE_TOTAL_BYTES ==> l != [] && Shrink(l) == Shrink(l[1..])
  {
  }

  lemma BytesConcat(a: seq<Slot>, b: seq<Slot>)
    ensures Bytes(a + b) == Bytes(a) + Bytes(b)
  {
    if a == [] {
      assert a + b == b;
    } else {
      assert (a + b)[1..] == a[1..] + b;
      BytesConcat(a[1..], b);
    }
  }

  /** Eviction drops exactly the shortest oldest part whose removal restores both limits. */
  lemma {:induction false} ShrinkDropsShortestPrefix(l: seq<Slot>) returns (k: nat)
    ensures k <= |l| && Shrink(l) == l[k..] && Fits(l[k..])
    ensures forall j :: 0 <= j < k ==> !Fits(l[j..])
    decreases |l|
  {
    if Fits(l) {
      k := 0;
      assert l[0..] == l;
    } else {
      var m := ShrinkDropsShortestPrefix(l[1..]);
      k := m + 1;
      assert l[1..][m..] == l[k..];
      assert l[0..] == l;
      forall j | 0 <= j < k ensures !Fits(l[j..]) {
        if j > 0 { assert l[1..][j - 1..] == l[j..]; }
      }
    }
  }

  /** A newest part that fits is never touched by eviction. */
  lemma {:induction false} ShrinkKeepsFittingSuffix(l: seq<Slot>, k: nat)
    requires k <= |l| && Fits(l[k..])
    ensures exists j :: 0 <= j <= k && Shrink(l) == l[j..]
  {
    var j := ShrinkDropsShortestPrefix(l);
    assert j <= k;
  }

  lemma IndexOfDistinct(l: seq<Slot>, i: nat)
    requires Distinct(l) && i < |l|
    ensures IndexOf(l, l[i].path) == i
  {
  }

  lemma RemoveAtStaysDistinct(l: seq<Slot>, k: nat)
    requires Distinct(l) && k < |l|
    ensures Distinct(l[..k] + l[k + 1..])
  {
    var rest := l[..k] + l[k + 1..];
    forall i, j | 0 <= i < j < |rest| ensures rest[i].path != rest[j].path {
      var m, n := if i < k then i else i + 1, if j < k then j else j + 1;
      assert rest[i] == l[m] && rest[j] == l[n] && m < n;
    }
  }

  lemma RemoveAtMember(l: seq<Slot>, k: nat, s: Slot)
    requires Distinct(l) && k < |l|
    ensures s in l[..k] + l[k + 1..] <==> s in l && s.path != l[k].path
  {
    var rest := l[..k] + l[k + 1..];
    if s in rest {
      var m :| 0 <= m < |rest| && rest[m] == s;
      assert s == l[if m < k then m else m + 1];
    }
    if s in l && s.path != l[k].path {
      var m :| 0 <= m < |l| && l[m] == s;
      assert s == rest[if m < k then m else m - 1];
    }
  }

  lemma RemoveAtDistinct(l: seq<Slot>, k: nat)
    requires Distinct(l) && k < |l|
    ensures var rest := l[..k] + l[k + 1..];
            Distinct(rest) && forall s :: s in rest <==> s in l && s.path != l[k].path
  {
    hide Distinct;
    RemoveAtStaysDistinct(l, k);
    forall s ensures s in l[..k] + l[k + 1..] <==> s in l && s.path != l[k].path {
      RemoveAtMember(l, k, s);
    }
  }

  lemma WithoutDistinct(l: seq<Slot>, path: Path)
    requires Distinct(l)
    ensures Distinct(Without(l, path))
    ensures forall s :: s in Without(l, path) <==> s in l && s.path != path
  {
    WithoutAt(l, path);
    var k := IndexOf(l, path);
    if k < |l| {
      hide IndexOf, Without, Distinct;
      RemoveAtDistinct(l, k);
    } else {
      forall s | s in l ensures s.path != path {
        var m :| 0 <= m < |l| && l[m] == s;
      }
    }
  }

  lemma WithoutStaysDistinct(l: seq<Slot>, path: Path)
    requires Distinct(l)
    ensures Distinct(Without(l, path))
  {
    WithoutDistinct(l, path);
  }

  lemma LookupDistinct(l: seq<Slot>, path: Path, fingerprint: FileFingerprint)
    requires Distinct(l)
    ensures Distinct(Lookup(l, path, fingerprint).0)
  {
    WithoutDistinct(l, path);
  }

  lemma InsertDistinct(l: seq<Slot>, slot: Slot)
    requires Distinct(l)
    ensures Distinct(Insert(l, slot)) && Fits(Insert(l, slot))
  {
    WithoutDistinct(l, slot.path);
    var grown := Without(l, slot.path) + [slot];
    assert Distinct(grown);
    var k := ShrinkDropsShortestPrefix(grown);
  }

  // ------------------------------------------------------------------------------------------
  // What one cached read sees of the file system, and what it does.

  /** The answers one read gets: the resolved path, the kind, the metadata and the plain read. */
  datatype FileView = FileView(
    existing: Result<Option<Path>>,
    isDir: bool,
    fingerprint: Option<FileFingerprint>,
    contents: Result<string>)

  datatype CachedFileRead = CachedFileRead(content: string, cacheHit: bool)

  predicate Cacheable(v: FileView) {
    && v.existing.Ok? && v.existing.value.Some?
    && !v.isDir
    && v.fingerprint.Some?
    && v.fingerprint.value.len <= MAX_CACHE_FILE_BYTES
  }

  function Uncached(contents: Result<string>): Result<CachedFileRead> {
    if contents.Ok? then Ok(CachedFileRead(contents.value, false)) else Err(contents.message)
  }

  function Read(l: seq<Slot>, v: FileView): (seq<Slot>, Result<CachedFileRead>) {
    if v.existing.Err? then (l, Err(v.existing.message))
    else if !Cacheable(v) then (l, Uncached(v.contents))
    else
      var path, fingerprint := v.existing.value.value, v.fingerprint.value;
      var (looked, hit) := Lookup(l, path, fingerprint);
      if hit.Some? then (looked, Ok(CachedFileRead(hit.value, true)))
      else if v.contents.Err? then (looked, Err(v.contents.message))
      else (Insert(looked, Slot(path, v.contents.value, fingerprint)), Uncached(v.contents))
  }

  lemma ReadDistinct(l: seq<Slot>, v: FileView)
    requires Distinct(l)
    ensures Distinct(Read(l, v).0)
  {
    if v.existing.Ok? && Cacheable(v) {
      var path, fingerprint := v.existing.value.value, v.fingerprint.value;
      LookupDistinct(l, path, fingerprint);
      if v.contents.Ok? {
        InsertDistinct(Lookup(l, path, fingerprint).0, Slot(path, v.contents.value, fingerprint));
      }
    }
  }

  function RunReads(l: seq<Slot>, views: seq<FileView>): seq<Slot>
    decreases |views|
  {
    if views == [] then l else RunReads(Read(l, views[0]).0, views[1..])
  }

  // ------------------------------------------------------------------------------------------
  // The limits.

  lemma BytesCons(slot: Slot, rest: seq<Slot>)
    ensures Bytes([slot] + rest) == ByteLen(slot.content) + Bytes(rest)
  {
    hide ByteLen;
    assert ([slot] + rest)[1..] == rest;
  }

  lemma {:induction false} RemoveAtBytes(l: seq<Slot>, k: nat)
    requires k < |l|
    ensures Bytes(l[..k] + l[k + 1..]) == Bytes(l) - ByteLen(l[k].content)
  {
    hide Bytes, ByteLen;
    var before, after := l[..k], l[k + 1..];
    BytesCons(l[k], after);
    BytesConcat(before, after);
    BytesConcat(before, [l[k]] + after);
    assert l == before + ([l[k]] + after);
  }

  lemma WithoutFits(l: seq<Slot>, path: Path)
    requires Fits(l)
    ensures Fits(Without(l, path))
    ensures IndexOf(l, path) < |l| ==> Fits(Without(l, path) + [l[IndexOf(l, path)]])
  {
    hide IndexOf, Without, Bytes, ByteLen;
    WithoutAt(l, path);
    var k := IndexOf(l, path);
    if k < |l| {
      var rest := l[..k] + l[k + 1..];
      RemoveAtBytes(l, k);
      BytesConcat(rest, [l[k]]);
      BytesOne(l[k]);
    }
  }

  lemma BytesOne(slot: Slot)
    ensures Bytes([slot]) == ByteLen(slot.content)
  {
    BytesCons(slot, []);
    assert [slot] + [] == [slot];
  }

  lemma ReadFits(l: seq<Slot>, v: FileView)
    requires Fits(l)
    ensures Fits(Read(l, v).0)
  {
    hide IndexOf, Without, Bytes, ByteLen;
    if v.existing.Ok? && Cacheable(v) {
      var path := v.existing.value.value;
      WithoutFits(l, path);
      if v.contents.Ok? {
        var looked := Lookup(l, path, v.fingerprint.value).0;
        var k := ShrinkDropsShortestPrefix(Without(looked, path) + [Slot(path, v.contents.value, v.fingerprint.value)]);
      }
    }
  }

  /** After every read of every run at most 64 paths are resident, each once, in at most 2 MiB. */
  lemma {:induction false} LimitsOverEveryRun(l: seq<Slot>, views: seq<FileView>)
    requires Distinct(l) && Fits(l)
    ensures Distinct(RunReads(l, views)) && Fits(RunReads(l, views))
    decreases |views|
  {
    hide Distinct, Fits, Read;
    if views != [] {
      ReadDistinct(l, views[0]);
      ReadFits(l, views[0]);
      LimitsOverEveryRun(Read(l, views[0]).0, views[1..]);
    }
  }

  // ------------------------------------------------------------------------------------------
  // Transparency.

  /** What a file holds is decided by its path, length and modification time. */
  type Disk = (Path, FileFingerprint) -> Result<string>

  ghost predicate Consistent(v: FileView, disk: Disk) {
    && (v.existing.Err? ==> v.contents == Err(v.existing.message))
    && (Cacheable(v) ==> v.contents == disk(v.existing.value.value, v.fingerprint.value))
  }

  ghost predicate Faithful(l: seq<Slot>, disk: Disk) {
    forall s :: s in l ==> disk(s.path, s.fingerprint) == Ok(s.content)
  }

  function Content(r: Result<CachedFileRead>): Result<string> {
    if r.Ok? then Ok(r.value.content) else Err(r.message)
  }

  lemma ReadTransparent(l: seq<Slot>, v: FileView, disk: Disk)
    requires Distinct(l) && Faithful(l, disk) && Consistent(v, disk)
    ensures Content(Read(l, v).1) == v.contents
    ensures Faithful(Read(l, v).0, disk)
  {
    if v.existing.Ok? && Cacheable(v) {
      var path, fingerprint := v.existing.value.value, v.fingerprint.value;
      var looked := Lookup(l, path, fingerprint).0;
      var i := IndexOf(l, path);
      WithoutDistinct(l, path);
      assert i < |l| ==> l[i] in l;
      LookupDistinct(l, path, fingerprint);
      if v.contents.Ok? {
        WithoutDistinct(looked, path);
        var k := ShrinkDropsShortestPrefix(Without(looked, path) + [Slot(path, v.contents.value, fingerprint)]);
      }
    }
  }

  /** However files are rewritten between the reads, every read answers what the plain read would. */
  lemma {:induction false} ReadsTransparent(l: seq<Slot>, views: seq<FileView>, disk: Disk, n: nat)
    requires Distinct(l) && Faithful(l, disk)
    requires forall v :: v in views ==> Consistent(v, disk)
    requires n < |views|
    ensures Content(Read(RunReads(l, views[..n]), views[n]).1) == views[n].contents
    decreases n
  {
    assert views[0] in views;
    ReadTransparent(l, views[0], disk);
    ReadDistinct(l, views[0]);
    if n > 0 {
      assert views[..n][1..] == views[1..][..n - 1];
      ReadsTransparent(Read(l, views[0]).0, views[1..], disk, n - 1);
    } else {
      assert views[..0] == [];
    }
  }

  // ------------------------------------------------------------------------------------------
  // Residency.

  /** A read that leaves the watched slot alone: it concerns another path within `bound`, or the
      watched path itself with its fingerprint unchanged, or it does not use the cache at all. */
  predicate Harmless(v: FileView, watched: Slot, bound: map<Path, nat>) {
    Cacheable(v) ==>
      var path := v.existing.value.value;
      if path == watched.path then v.fingerprint.value == watched.fingerprint
      else path in bound && (v.contents.Ok? ==> ByteLen(v.contents.value) <= bound[path])
  }

  ghost predicate SlotWithin(s: Slot, bound: map<Path, nat>) {
    s.path in bound ==> ByteLen(s.content) <= bound[s.path]
  }

  ghost predicate WithinBound(l: seq<Slot>, bound: map<Path, nat>) {
    forall i :: 0 <= i < |l| ==> SlotWithin(l[i], bound)
  }

  ghost predicate NewerBounded(l: seq<Slot>, bound: map<Path, nat>, i: nat) {
    forall j :: i < j < |l| ==> l[j].path in bound
  }

  /** The watched slot sits at `i`, and everything newer is one of the bounded paths. */
  ghost predicate Sheltered(l: seq<Slot>, watched: Slot, bound: map<Path, nat>, i: nat) {
    && Distinct(l)
    && i < |l| && l[i] == watched
    && NewerBounded(l, bound, i)
    && WithinBound(l, bound)
  }

  ghost predicate BoundOk(watched: Slot, bound: map<Path, nat>) {
    && watched.path !in bound
    && |bound| + 1 <= MAX_CACHE_ENTRIES
    && Sum(bound) + ByteLen(watched.content) <= MAX_CACHE_TOTAL_BYTES
  }

  lemma {:induction false} BoundedBytes(l: seq<Slot>, bound: map<Path, nat>)
    requires Distinct(l)
    requires forall s :: s in l ==> s.path in bound && ByteLen(s.content) <= bound[s.path]
    ensures |l| <= |bound| && Bytes(l) <= Sum(bound)
    decreases |l|
  {
    if l != [] {
      var p := l[0].path;
      assert l[0] in l;
      forall s | s in l[1..] ensures s in l && s.path in bound - {p} {
        var k :| 0 <= k < |l[1..]| && l[1..][k] == s;
        assert l[k + 1] == s;
      }
      SumRemove(bound, p);
      assert |bound - {p}| == |bound| - 1 by {
        assert (bound - {p}).Keys == bound.Keys - {p};
        assert |bound| == |bound.Keys| && |bound - {p}| == |(bound - {p}).Keys|;
      }
      BoundedBytes(l[1..], bound - {p});
    }
  }

  lemma ShelteredFits(l: seq<Slot>, watched: Slot, bound: map<Path, nat>, i: nat)
    requires Sheltered(l, watched, bound, i) && BoundOk(watched, bound)
    ensures Fits(l[i..])
  {
    var newer := l[i + 1..];
    forall s | s in newer ensures s.path in bound && ByteLen(s.content) <= bound[s.path] {
      var k :| 0 <= k < |newer| && newer[k] == s;
      assert s == l[i + 1 + k] && SlotWithin(l[i + 1 + k], bound);
    }
    DistinctDrop(l, i + 1);
    hide Distinct;
    BoundedBytes(newer, bound);
    assert l[i..][1..] == newer;
  }

  lemma DistinctDrop(l: seq<Slot>, d: nat)
    requires Distinct(l) && d <= |l|
    ensures Distinct(l[d..])
  {
  }

  /** Taking another path out keeps the watched slot sheltered. */
  lemma ShelteredWithout(l: seq<Slot>, watched: Slot, bound: map<Path, nat>, i: nat, path: Path) returns (j: nat)
    requires Sheltered(l, watched, bound, i) && path != watched.path
    ensures Sheltered(Without(l, path), watched, bound, j)
  {
    hide IndexOf, Distinct, Without, NewerBounded, WithinBound;
    var k := IndexOf(l, path);
    j := if k < i then i - 1 else i;
    WithoutStaysDistinct(l, path);
    WithoutAt(l, path);
    if k < |l| {
      RemoveAtBounded(l, bound, i, k);
    }
  }

  lemma RemoveAtBounded(l: seq<Slot>, bound: map<Path, nat>, i: nat, k: nat)
    requires k < |l| && i < |l| && k != i
    requires NewerBounded(l, bound, i) && WithinBound(l, bound)
    ensures var rest, j := l[..k] + l[k + 1..], if k < i then i - 1 else i;
            rest[j] == l[i] && NewerBounded(rest, bound, j) && WithinBound(rest, bound)
  {
    hide SlotWithin;
    var rest, j := l[..k] + l[k + 1..], if k < i then i - 1 else i;
    forall m | j < m < |rest| ensures rest[m].path in bound {
      assert rest[m] == l[if m < k then m else m + 1];
    }
    forall m | 0 <= m < |rest| ensures SlotWithin(rest[m], bound) {
      assert rest[m] == l[if m < k then m else m + 1];
    }
  }

  /** So does appending a bounded slot for it. */
  lemma ShelteredAppend(l: seq<Slot>, watched: Slot, bound: map<Path, nat>, i: nat, slot: Slot)
    requires Sheltered(l, watched, bound, i)
    requires forall s :: s in l ==> s.path != slot.path
    requires slot.path in bound && ByteLen(slot.content) <= bound[slot.path]
    ensures Sheltered(l + [slot], watched, bound, i)
  {
    var grown := l + [slot];
    assert Distinct(grown) by {
      assert forall n :: 0 <= n < |l| ==> l[n] in l;
    }
  }

  lemma ShelteredMove(l: seq<Slot>, watched: Slot, bound: map<Path, nat>, i: nat, slot: Slot) returns (j: nat)
    requires Sheltered(l, watched, bound, i)
    requires slot.path in bound && slot.path != watched.path && ByteLen(slot.content) <= bound[slot.path]
    ensures Sheltered(Without(l, slot.path) + [slot], watched, bound, j)
  {
    j := ShelteredWithout(l, watched, bound, i, slot.path);
    WithoutDistinct(l, slot.path);
    ShelteredAppend(Without(l, slot.path), watched, bound, j, slot);
  }

  lemma ShelteredShrink(l: seq<Slot>, watched: Slot, bound: map<Path, nat>, i: nat) returns (j: nat)
    requires Sheltered(l, watched, bound, i) && BoundOk(watched, bound)
    ensures Sheltered(Shrink(l), watched, bound, j)
  {
    ShelteredFits(l, watched, bound, i);
    hide BoundOk, Fits, Shrink, Distinct, NewerBounded, WithinBound;
    ShrinkKeepsFittingSuffix(l, i);
    var d :| 0 <= d <= i && Shrink(l) == l[d..];
    j := i - d;
    DistinctDrop(l, d);
    DropBounded(l, bound, i, d);
  }

  lemma DropBounded(l: seq<Slot>, bound: map<Path, nat>, i: nat, d: nat)
    requires d <= i < |l| && NewerBounded(l, bound, i) && WithinBound(l, bound)
    ensures NewerBounded(l[d..], bound, i - d) && WithinBound(l[d..], bound)
  {
    hide SlotWithin;
    var kept := l[d..];
    forall m | i - d < m < |kept| ensures kept[m].path in bound {
      assert kept[m] == l[d + m];
    }
    forall m | 0 <= m < |kept| ensures SlotWithin(kept[m], bound) {
      assert kept[m] == l[d + m];
    }
  }

  /** A hit on the watched slot itself makes it the newest. */
  lemma ShelteredTouch(l: seq<Slot>, watched: Slot, bound: map<Path, nat>, i: nat) returns (j: nat)
    requires Sheltered(l, watched, bound, i)
    ensures Sheltered(Lookup(l, watched.path, watched.fingerprint).0, watched, bound, j)
  {
    IndexOfDistinct(l, i);
    WithoutAt(l, watched.path);
    hide IndexOf, Without, SlotWithin, NewerBounded, WithinBound, Distinct;
    RotateAt(l, bound, i);
    j := |l| - 1;
  }

  lemma RotateAt(l: seq<Slot>, bound: map<Path, nat>, i: nat)
    requires i < |l| && Distinct(l) && WithinBound(l, bound)
    ensures var touched := l[..i] + l[i + 1..] + [l[i]];
            Distinct(touched) && WithinBound(touched, bound) && NewerBounded(touched, bound, |l| - 1)
  {
    hide SlotWithin;
    var touched := l[..i] + l[i + 1..] + [l[i]];
    forall m, n | 0 <= m < n < |touched| ensures touched[m].path != touched[n].path {
      var m', n' := if m < i then m else m + 1, if n < i then n else if n < |l| - 1 then n + 1 else i;
      assert touched[m] == l[m'] && touched[n] == l[n'] && m' != n';
    }
    forall m | 0 <= m < |touched| ensures SlotWithin(touched[m], bound) {
      assert touched[m] == l[if m < i then m else if m < |l| - 1 then m + 1 else i];
    }
  }

  /** A stale or missing entry is forgotten and, if the file can be read, replaced. */
  lemma ShelteredMiss(l: seq<Slot>, watched: Slot, bound: map<Path, nat>, i: nat, slot: Slot) returns (j: nat)
    requires Sheltered(l, watched, bound, i) && BoundOk(watched, bound)
    requires slot.path in bound && slot.path != watched.path && ByteLen(slot.content) <= bound[slot.path]
    ensures Sheltered(Insert(Without(l, slot.path), slot), watched, bound, j)
  {
    hide Sheltered, Without, Shrink, BoundOk;
    j := ShelteredWithout(l, watched, bound, i, slot.path);
    j := ShelteredMove(Without(l, slot.path), watched, bound, j, slot);
    j := ShelteredShrink(Without(Without(l, slot.path), slot.path) + [slot], watched, bound, j);
  }

  /** One harmless read keeps the watched slot sheltered. */
  lemma ShelteredRead(l: seq<Slot>, watched: Slot, bound: map<Path, nat>, i: nat, v: FileView) returns (j: nat)
    requires Sheltered(l, watched, bound, i) && BoundOk(watched, bound) && Harmless(v, watched, bound)
    ensures Sheltered(Read(l, v).0, watched, bound, j)
  {
    j := i;
    if v.existing.Ok? && Cacheable(v) {
      var path, fingerprint := v.existing.value.value, v.fingerprint.value;
      var k := IndexOf(l, path);
      if path == watched.path {
        IndexOfDistinct(l, i);
        hide IndexOf, Without, Distinct, NewerBounded, WithinBound;
        j := ShelteredTouch(l, watched, bound, i);
      } else if k < |l| && l[k].fingerprint == fingerprint {
        hide IndexOf, Without, Distinct, NewerBounded;
        assert SlotWithin(l[k], bound);
        j := ShelteredMove(l, watched, bound, i, l[k]);
      } else if v.contents.Ok? {
        hide IndexOf, Without, Sheltered, Insert;
        j := ShelteredMiss(l, watched, bound, i, Slot(path, v.contents.value, fingerprint));
      } else {
        hide IndexOf, Without, Sheltered;
        j := ShelteredWithout(l, watched, bound, i, path);
      }
    }
  }

  lemma {:induction false} ShelteredReads(l: seq<Slot>, watched: Slot, bound: map<Path, nat>, i: nat, views: seq<FileView>)
    returns (j: nat)
    requires Sheltered(l, watched, bound, i) && BoundOk(watched, bound)
    requires forall v :: v in views ==> Harmless(v, watched, bound)
    ensures Sheltered(RunReads(l, views), watched, bound, j)
    decreases |views|
  {
    j := i;
    if views != [] {
      assert views[0] in views;
      j := ShelteredRead(l, watched, bound, i, views[0]);
      j := ShelteredReads(Read(l, views[0]).0, watched, bound, j, views[1..]);
    }
  }

  /** A slot newer than all others is still resident after any reads of at most 63 other paths whose largest
      contents fit, together with its own, in the byte limit. */
  lemma NewestStaysResident(older: seq<Slot>, watched: Slot, bound: map<Path, nat>, views: seq<FileView>)
    requires Distinct(older + [watched]) && WithinBound(older, bound) && BoundOk(watched, bound)
    requires forall v :: v in views ==> Harmless(v, watched, bound)
    ensures Lookup(RunReads(older + [watched], views), watched.path, watched.fingerprint).1
            == Some(watched.content)
  {
    var l := older + [watched];
    var j := ShelteredReads(l, watched, bound, |older|, views);
    var r := RunReads(l, views);
    assert IndexOf(r, watched.path) == j;
  }

  /** What a good read of a cacheable file leaves behind: its slot is the newest, whether it was a hit or not. */
  lemma JustUsedIsNewest(l: seq<Slot>, v: FileView)
    requires Distinct(l) && Cacheable(v) && Read(l, v).1.Ok?
    requires ByteLen(Read(l, v).1.value.content) <= MAX_CACHE_TOTAL_BYTES
    ensures var after := Read(l, v).0;
            && after != [] && Distinct(after)
            && after[|after| - 1] == Slot(v.existing.value.value, Read(l, v).1.value.content, v.fingerprint.value)
            && forall s :: s in after[..|after| - 1] ==> s in l
  {
    hide Bytes, ByteLen;
    var path, fingerprint := v.existing.value.value, v.fingerprint.value;
    var (looked, hit) := Lookup(l, path, fingerprint);
    ReadDistinct(l, v);
    WithoutDistinct(l, path);
    if hit.None? {
      WithoutDistinct(looked, path);
      var slot := Slot(path, v.contents.value, fingerprint);
      var grown := Without(looked, path) + [slot];
      BytesOne(slot);
      assert grown[|grown| - 1..] == [slot];
      ShrinkKeepsFittingSuffix(grown, |grown| - 1);
      var j :| 0 <= j <= |grown| - 1 && Shrink(grown) == grown[j..];
    }
  }

  /** A file that was just used, hit or not, is still answered from the cache after any reads of at most 63
      other paths whose largest contents fit, together with its own, in the byte limit. */
  lemma StillResident(l: seq<Slot>, used: FileView, bound: map<Path, nat>, views: seq<FileView>)
    requires Distinct(l) && WithinBound(l, bound) && Cacheable(used) && Read(l, used).1.Ok?
    requires var watched := Slot(used.existing.value.value, Read(l, used).1.value.content, used.fingerprint.value);
             BoundOk(watched, bound) && forall v :: v in views ==> Harmless(v, watched, bound)
    ensures Lookup(RunReads(Read(l, used).0, views), used.existing.value.value, used.fingerprint.value).1 ==
            Some(Read(l, used).1.value.content)
  {
    hide Read, Bytes, ByteLen, RunReads, Lookup, Harmless, SlotWithin;
    JustUsedIsNewest(l, used);
    var after := Read(l, used).0;
    var older, watched := after[..|after| - 1], after[|after| - 1];
    assert after == older + [watched];
    forall i | 0 <= i < |older| ensures SlotWithin(older[i], bound) {
      assert older[i] in l;
      var k :| 0 <= k < |l| && l[k] == older[i];
      assert SlotWithin(l[k], bound);
    }
    NewestStaysResident(older, watched, bound, views);
  }

  // ------------------------------------------------------------------------------------------
  // What is cached, and when a read is a hit.

  /** A read is answered from the cache exactly when a slot for the path has the file's fingerprint. */
  lemma HitIff(l: seq<Slot>, v: FileView)
    requires Distinct(l)
    ensures Read(l, v).1.Ok? && Read(l, v).1.value.cacheHit <==>
            Cacheable(v) && exists s :: s in l && s.path == v.existing.value.value && s.fingerprint == v.fingerprint.value
  {
    if Cacheable(v) {
      var path := v.existing.value.value;
      var i := IndexOf(l, path);
      if i < |l| {
        assert l[i] in l;
        forall s | s in l && s.path == path ensures s == l[i] {
          var k :| 0 <= k < |l| && l[k] == s;
        }
      } else {
        assert forall s :: s in l ==> s.path != path;
      }
    }
  }

  /** Nothing is put into the cache but what was just read of a file of at most 64 KiB, and a read of anything
      else leaves the cache as it is. */
  lemma NewSlotIsJustRead(l: seq<Slot>, v: FileView)
    requires Distinct(l)
    ensures forall s :: s in Read(l, v).0 && s !in l ==>
              && v.existing == Ok(Some(s.path)) && !v.isDir && v.fingerprint == Some(s.fingerprint)
              && s.fingerprint.len <= 64 * 1024 && v.contents == Ok(s.content)
    ensures (v.existing.Ok? ==> v.existing.value.None?) || v.isDir || v.fingerprint.None? ||
            v.fingerprint.value.len > 64 * 1024 ==>
              Read(l, v).0 == l
  {
    hide Bytes, ByteLen;
    if v.existing.Ok? && Cacheable(v) {
      var path, fingerprint := v.existing.value.value, v.fingerprint.value;
      var looked := Lookup(l, path, fingerprint).0;
      WithoutDistinct(l, path);
      assert IndexOf(l, path) < |l| ==> l[IndexOf(l, path)] in l;
      LookupDistinct(l, path, fingerprint);
      if v.contents.Ok? {
        WithoutDistinct(looked, path);
        var grown := Without(looked, path) + [Slot(path, v.contents.value, fingerprint)];
        var k := ShrinkDropsShortestPrefix(grown);
      }
    }
  }

  ghost predicate AllSmall(l: seq<Slot>) {
    forall s :: s in l ==> s.fingerprint.len <= 64 * 1024
  }

  /** Over every run no file longer than 64 KiB is resident. */
  lemma {:induction false} SmallOverEveryRun(l: seq<Slot>, views: seq<FileView>)
    requires Distinct(l) && AllSmall(l)
    ensures AllSmall(RunReads(l, views))
    decreases |views|
  {
    hide Read, Distinct;
    if views != [] {
      NewSlotIsJustRead(l, views[0]);
      ReadDistinct(l, views[0]);
      SmallOverEveryRun(Read(l, views[0]).0, views[1..]);
    }
  }

  /** A stale slot is forgotten even when the file can no longer be read. */
  lemma StaleIsForgotten(l: seq<Slot>, v: FileView)
    requires Distinct(l) && Cacheable(v) && v.contents.Err?
    ensures forall s :: s in Read(l, v).0 && s.path == v.existing.value.value ==> s.fingerprint == v.fingerprint.value
  {
    WithoutDistinct(l, v.existing.value.value);
  }
}
