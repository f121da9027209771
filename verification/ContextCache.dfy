/** The context file cache as the program keeps it: a hash map of entries stamped with access ticks,
    a running byte total and a tick counter. It refines the recency list. */
module ContextCache {
  import opened Text
  import opened RecencyList
  import opened Wrappers

  const U64_MAX: nat := 0xFFFF_FFFF_FFFF_FFFF

  datatype CacheEntry = CacheEntry(content: string, fingerprint: FileFingerprint, lastAccess: nat)

  type Entries = map<Path, CacheEntry>

  ghost function Paths(l: seq<Slot>): set<Path> {
    set s | s in l :: s.path
  }

  lemma {:induction false} PathsSize(l: seq<Slot>)
    requires Distinct(l)
    ensures |Paths(l)| == |l|
    decreases |l|
  {
    if l != [] {
      PathsSize(l[1..]);
      assert l == [l[0]] + l[1..];
      assert Paths(l) == {l[0].path} + Paths(l[1..]);
    } else {
      assert Paths(l) == {};
    }
  }

  ghost predicate Covered(entries: Entries, l: seq<Slot>) {
    forall p :: p in entries ==> exists i :: 0 <= i < |l| && l[i].path == p
  }

  ghost predicate Stored(entries: Entries, tick: nat, slot: Slot) {
    && slot.path in entries
    && entries[slot.path].content == slot.content
    && entries[slot.path].fingerprint == slot.fingerprint
    && entries[slot.path].lastAccess <= tick
  }

  ghost predicate AllStored(entries: Entries, tick: nat, l: seq<Slot>) {
    forall i :: 0 <= i < |l| ==> Stored(entries, tick, l[i])
  }

  ghost predicate Ordered(entries: Entries, tick: nat, l: seq<Slot>)
    requires AllStored(entries, tick, l)
  {
    forall i, j :: 0 <= i < j < |l| ==> entries[l[i].path].lastAccess < entries[l[j].path].lastAccess
  }

  /** The entries stand for the list: same paths and contents, ticks growing from old to new. */
  ghost predicate Represents(entries: Entries, tick: nat, l: seq<Slot>) {
    Distinct(l) && Covered(entries, l) && AllStored(entries, tick, l) && Ordered(entries, tick, l)
  }

  lemma RepresentsSize(entries: Entries, tick: nat, l: seq<Slot>)
    requires Represents(entries, tick, l)
    ensures |entries| == |l|
  {
    PathsSize(l);
    assert entries.Keys == Paths(l);
    assert |entries| == |entries.Keys|;
  }

  lemma RepresentsFind(entries: Entries, tick: nat, l: seq<Slot>, path: Path)
    requires Represents(entries, tick, l)
    ensures path in entries <==> IndexOf(l, path) < |l|
    ensures path in entries ==>
              var slot := l[IndexOf(l, path)];
              slot == Slot(path, entries[path].content, entries[path].fingerprint)
  {
  }

  lemma RemoveAtStored(entries: Entries, tick: nat, l: seq<Slot>, k: nat)
    requires k < |l| && Distinct(l) && AllStored(entries, tick, l)
    ensures AllStored(entries - {l[k].path}, tick, l[..k] + l[k + 1..])
    ensures Distinct(l[..k] + l[k + 1..])
  {
    var rest, fewer := l[..k] + l[k + 1..], entries - {l[k].path};
    forall i | 0 <= i < |rest| ensures Stored(fewer, tick, rest[i]) {
      var j := if i < k then i else i + 1;
      assert rest[i] == l[j] && Stored(entries, tick, l[j]) && l[j].path != l[k].path;
    }
  }

  lemma RemoveAtCovered(entries: Entries, l: seq<Slot>, k: nat)
    requires k < |l| && Covered(entries, l)
    ensures Covered(entries - {l[k].path}, l[..k] + l[k + 1..])
  {
    var rest, fewer := l[..k] + l[k + 1..], entries - {l[k].path};
    forall p | p in fewer ensures exists i :: 0 <= i < |rest| && rest[i].path == p {
      var i :| 0 <= i < |l| && l[i].path == p;
      assert rest[if i < k then i else i - 1].path == p;
    }
  }

  lemma RemoveAtOrdered(entries: Entries, tick: nat, l: seq<Slot>, k: nat)
    requires k < |l| && Distinct(l) && AllStored(entries, tick, l) && Ordered(entries, tick, l)
    requires AllStored(entries - {l[k].path}, tick, l[..k] + l[k + 1..])
    ensures Ordered(entries - {l[k].path}, tick, l[..k] + l[k + 1..])
  {
    var rest, fewer := l[..k] + l[k + 1..], entries - {l[k].path};
    forall i, j | 0 <= i < j < |rest|
      ensures fewer[rest[i].path].lastAccess < fewer[rest[j].path].lastAccess
    {
      assert Stored(fewer, tick, rest[i]) && Stored(fewer, tick, rest[j]);
      var m, n := if i < k then i else i + 1, if j < k then j else j + 1;
      assert rest[i] == l[m] && rest[j] == l[n] && m < n;
      assert entries[l[m].path].lastAccess < entries[l[n].path].lastAccess;
    }
  }

  lemma RemoveAt(entries: Entries, tick: nat, l: seq<Slot>, k: nat)
    requires Represents(entries, tick, l) && k < |l|
    ensures Represents(entries - {l[k].path}, tick, l[..k] + l[k + 1..])
    ensures Bytes(l[..k] + l[k + 1..]) == Bytes(l) - ByteLen(l[k].content)
  {
    hide Distinct, Covered, AllStored, Ordered, Bytes;
    RemoveAtBytes(l, k);
    RemoveAtStored(entries, tick, l, k);
    RemoveAtCovered(entries, l, k);
    RemoveAtOrdered(entries, tick, l, k);
  }

  lemma RepresentsRemove(entries: Entries, tick: nat, l: seq<Slot>, path: Path)
    requires Represents(entries, tick, l)
    ensures Represents(entries - {path}, tick, Without(l, path))
    ensures Bytes(Without(l, path)) == Bytes(l) - if path in entries then ByteLen(entries[path].content) else 0
  {
    hide Represents, Bytes, IndexOf, Without, ByteLen;
    RepresentsFind(entries, tick, l, path);
    var k := IndexOf(l, path);
    WithoutAt(l, path);
    if k < |l| {
      RemoveAt(entries, tick, l, k);
    } else {
      assert entries - {path} == entries;
    }
  }

  lemma AppendStored(entries: Entries, tick: nat, l: seq<Slot>, slot: Slot)
    requires Distinct(l) && AllStored(entries, tick, l) && Ordered(entries, tick, l) && slot.path !in entries
    ensures var more := entries[slot.path := CacheEntry(slot.content, slot.fingerprint, tick + 1)];
            AllStored(more, tick + 1, l + [slot]) && Ordered(more, tick + 1, l + [slot]) && Distinct(l + [slot])
  {
    var more := entries[slot.path := CacheEntry(slot.content, slot.fingerprint, tick + 1)];
    var grown := l + [slot];
    assert forall i :: 0 <= i < |l| ==> Stored(entries, tick, l[i]);
    forall i | 0 <= i < |grown| ensures Stored(more, tick + 1, grown[i]) {
      assert i < |l| ==> Stored(entries, tick, l[i]);
    }
    forall i, j | 0 <= i < j < |grown|
      ensures more[grown[i].path].lastAccess < more[grown[j].path].lastAccess
    {
      assert Stored(entries, tick, l[i]);
      assert j < |l| ==> Stored(entries, tick, l[j]) && entries[l[i].path].lastAccess < entries[l[j].path].lastAccess;
    }
  }

  lemma AppendCovered(entries: Entries, l: seq<Slot>, slot: Slot, entry: CacheEntry)
    requires Covered(entries, l)
    ensures Covered(entries[slot.path := entry], l + [slot])
  {
    var grown, more := l + [slot], entries[slot.path := entry];
    forall p | p in more ensures exists i :: 0 <= i < |grown| && grown[i].path == p {
      if p == slot.path {
        assert grown[|l|].path == p;
      } else {
        var i :| 0 <= i < |l| && l[i].path == p;
        assert grown[i].path == p;
      }
    }
  }

  lemma RepresentsAppend(entries: Entries, tick: nat, l: seq<Slot>, slot: Slot)
    requires Represents(entries, tick, l) && slot.path !in entries
    ensures Represents(entries[slot.path := CacheEntry(slot.content, slot.fingerprint, tick + 1)], tick + 1, l + [slot])
    ensures Bytes(l + [slot]) == Bytes(l) + ByteLen(slot.content)
  {
    BytesConcat(l, [slot]);
    assert [slot][1..] == [];
    AppendStored(entries, tick, l, slot);
    AppendCovered(entries, l, slot, CacheEntry(slot.content, slot.fingerprint, tick + 1));
    hide Distinct, Covered, AllStored, Ordered;
  }

  /** The entry with the smallest tick is the head of the list. */
  lemma OldestIsHead(entries: Entries, tick: nat, l: seq<Slot>, path: Path)
    requires Represents(entries, tick, l) && path in entries
    requires forall p :: p in entries ==> entries[path].lastAccess <= entries[p].lastAccess
    ensures l != [] && l[0].path == path && Without(l, path) == l[1..]
  {
    hide Represents, IndexOf, Without;
    RepresentsFind(entries, tick, l, path);
    var i := IndexOf(l, path);
    if i > 0 {
      HeadIsOlder(entries, tick, l, i);
      assert false;
    }
    WithoutAt(l, path);
    assert l[..0] + l[1..] == l[1..];
  }

  lemma HeadIsOlder(entries: Entries, tick: nat, l: seq<Slot>, i: nat)
    requires Represents(entries, tick, l) && 0 < i < |l|
    ensures l[0].path in entries && l[i].path in entries
    ensures entries[l[0].path].lastAccess < entries[l[i].path].lastAccess
  {
    assert Stored(entries, tick, l[0]) && Stored(entries, tick, l[i]);
  }

  /** One turn of the eviction loop, on values. */
  lemma {:induction false} EvictStep(entries: Entries, tick: nat, l: seq<Slot>, path: Path)
    requires Represents(entries, tick, l) && path in entries
    requires |l| > MAX_CACHE_ENTRIES || Bytes(l) > MAX_CACHE_TOTAL_BYTES
    requires forall p :: p in entries ==> entries[path].lastAccess <= entries[p].lastAccess
    ensures l != [] && Shrink(l) == Shrink(l[1..])
    ensures Represents(entries - {path}, tick, l[1..])
    ensures Bytes(l[1..]) == Bytes(l) - ByteLen(entries[path].content)
    ensures |l[1..]| == |entries - {path}|
  {
    hide Represents, Bytes, Shrink, Without;
    ShrinkStep(l);
    OldestIsHead(entries, tick, l, path);
    RepresentsRemove(entries, tick, l, path);
    RepresentsSize(entries - {path}, tick, l[1..]);
  }

  class ContextCache {
    var entries: Entries
    var totalBytes: nat
    var nextAccess: nat
    /** The list these fields stand for. */
    ghost var recency: seq<Slot>

    ghost predicate Valid()
      reads this
    {
      Represents(entries, nextAccess, recency) && totalBytes == Bytes(recency) && nextAccess <= U64_MAX
    }

    constructor ()
      ensures Valid() && recency == [] && nextAccess == 0
    {
      entries, totalBytes, nextAccess, recency := map[], 0, 0, [];
    }

    method NextAccessTick() returns (tick: nat)
      modifies `nextAccess
      ensures nextAccess == tick == if old(nextAccess) < U64_MAX then old(nextAccess) + 1 else U64_MAX
    {
      nextAccess := if nextAccess < U64_MAX then nextAccess + 1 else U64_MAX;
      tick := nextAccess;
    }

    /** Drops oldest entries until both limits hold; the number of entries goes down every time. */
    method EvictToFit()
      requires Valid()
      modifies `entries, `totalBytes, `recency
      ensures Valid() && recency == Shrink(old(recency))
    {
      hide Represents, Bytes, ByteLen, Shrink, Fits;
      RepresentsSize(entries, nextAccess, recency);
      while |entries| > MAX_CACHE_ENTRIES || totalBytes > MAX_CACHE_TOTAL_BYTES
        invariant Valid() && |entries| == |recency|
        invariant Shrink(recency) == Shrink(old(recency))
        decreases |entries|
      {
        ShrinkStep(recency);
        var oldest := OldestPath();
        EvictStep(entries, nextAccess, recency, oldest);
        totalBytes := totalBytes - ByteLen(entries[oldest].content);
        entries := entries - {oldest};
        recency := recency[1..];
      }
      ShrinkStep(recency);
    }

    /** `min_by_key` over the entries. */
    method OldestPath() returns (oldest: Path)
      requires entries != map[]
      ensures oldest in entries
      ensures forall p :: p in entries ==> entries[oldest].lastAccess <= entries[p].lastAccess
    {
      oldest :| oldest in entries;
      var left := entries.Keys - {oldest};
      while left != {}
        invariant left <= entries.Keys && oldest in entries
        invariant forall p :: p in entries && p !in left ==> entries[oldest].lastAccess <= entries[p].lastAccess
        decreases left
      {
        var p :| p in left;
        left := left - {p};
        if entries[p].lastAccess < entries[oldest].lastAccess {
          oldest := p;
        }
      }
    }

    method TryReadFromCache(path: Path, fingerprint: FileFingerprint) returns (hit: Option<string>)
      requires Valid() && nextAccess < U64_MAX
      modifies this
      ensures Valid() && nextAccess <= old(nextAccess) + 1
      ensures (recency, hit) == Lookup(old(recency), path, fingerprint)
      ensures hit.None? ==> nextAccess == old(nextAccess)
    {
      hide Represents;
      RepresentsFind(entries, nextAccess, recency, path);
      RepresentsRemove(entries, nextAccess, recency, path);
      var isHit := path in entries && entries[path].fingerprint == fingerprint;
      if !isHit {
        if path in entries {
          totalBytes := totalBytes - ByteLen(entries[path].content);
          entries := entries - {path};
        } else {
          assert entries - {path} == entries;
        }
        recency := Without(recency, path);
        return None;
      }
      ghost var slot := recency[IndexOf(recency, path)];
      RepresentsAppend(entries - {path}, nextAccess, Without(recency, path), slot);
      var accessTick := NextAccessTick();
      var entry := entries[path].(lastAccess := accessTick);
      assert entries[path := entry] == (entries - {path})[path := entry];
      entries := entries[path := entry];
      recency := Without(recency, path) + [slot];
      return Some(entry.content);
    }

    method InsertIntoCache(path: Path, fingerprint: FileFingerprint, content: string)
      requires Valid() && nextAccess < U64_MAX
      modifies this
      ensures Valid() && nextAccess == old(nextAccess) + 1
      ensures recency == Insert(old(recency), Slot(path, content, fingerprint))
    {
      hide Represents;
      RepresentsFind(entries, nextAccess, recency, path);
      RepresentsRemove(entries, nextAccess, recency, path);
      if path in entries {
        totalBytes := totalBytes - ByteLen(entries[path].content);
        entries := entries - {path};
      } else {
        assert entries - {path} == entries;
      }
      recency := Without(recency, path);
      RepresentsAppend(entries, nextAccess, recency, Slot(path, content, fingerprint));
      var accessTick := NextAccessTick();
      totalBytes := totalBytes + ByteLen(content);
      entries := entries[path := CacheEntry(content, fingerprint, accessTick)];
      recency := recency + [Slot(path, content, fingerprint)];
      EvictToFit();
    }

    method ReadCachedFile(view: FileView) returns (r: Result<CachedFileRead>)
      requires Valid() && nextAccess < U64_MAX
      modifies this
      ensures Valid() && nextAccess <= old(nextAccess) + 1
      ensures (recency, r) == Read(old(recency), view)
    {
      hide Represents, Lookup, Insert, Bytes;
      if view.existing.Err? {
        return Err(view.existing.message);
      }
      if view.existing.value.None? {
        return Uncached(view.contents);
      }
      if view.isDir {
        return Uncached(view.contents);
      }
      if view.fingerprint.None? {
        return Uncached(view.contents);
      }
      var resolved, fingerprint := view.existing.value.value, view.fingerprint.value;
      if fingerprint.len > MAX_CACHE_FILE_BYTES {
        return Uncached(view.contents);
      }
      var hit := TryReadFromCache(resolved, fingerprint);
      if hit.Some? {
        return Ok(CachedFileRead(hit.value, true));
      }
      if view.contents.Err? {
        return Err(view.contents.message);
      }
      InsertIntoCache(resolved, fingerprint, view.contents.value);
      return Ok(CachedFileRead(view.contents.value, false));
    }
  }

  lemma NothingResident()
    ensures Distinct([]) && Fits([])
  {
  }

  /** Any sequence of reads on a fresh cache, over any rewriting of the files in between: every answer
      is the plain one, and both limits hold. */
  method Session(views: seq<FileView>, ghost disk: Disk)
    returns (answers: seq<Result<string>>, resident: nat, residentBytes: nat)
    requires |views| < U64_MAX
    requires forall v :: v in views ==> Consistent(v, disk)
    ensures |answers| == |views|
    ensures forall i :: 0 <= i < |views| ==> answers[i] == views[i].contents
    ensures resident <= MAX_CACHE_ENTRIES && residentBytes <= MAX_CACHE_TOTAL_BYTES
  {
    hide Represents, Read, Bytes;
    var cache := new ContextCache();
    answers := [];
    assert Distinct([]) && Fits([]) by { NothingResident(); }
    for i := 0 to |views|
      invariant cache.Valid() && fresh(cache) && cache.nextAccess <= i
      invariant Distinct(cache.recency) && Faithful(cache.recency, disk) && Fits(cache.recency)
      invariant |answers| == i
      invariant forall j :: 0 <= j < i ==> answers[j] == views[j].contents
    {
      assert views[i] in views;
      ReadTransparent(cache.recency, views[i], disk);
      ReadDistinct(cache.recency, views[i]);
      ReadFits(cache.recency, views[i]);
      var r := cache.ReadCachedFile(views[i]);
      answers := answers + [Content(r)];
    }
    RepresentsSize(cache.entries, cache.nextAccess, cache.recency);
    return answers, |cache.entries|, cache.totalBytes;
  }
}
