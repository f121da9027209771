/** The accumulator of streamed tool arguments: a shared table of tools under a byte cap per tool, a
    bounded queue per tool and a memory watermark over all tools. */
module DeltaAccumulator {
  import opened Text
  import opened Wrappers
  import opened Maps
  import opened JsonPrefix
  import opened ToolArguments

  type ToolCallId = string

  datatype PeerDelta =
    | ToolStart(toolCallId: ToolCallId, taskId: string, name: string)
    | ToolDelta(toolCallId: ToolCallId, taskId: string, partialJson: string)
    | ToolFinish(toolCallId: ToolCallId, taskId: string)
    | PartialArgsTruncated(toolCallId: ToolCallId, taskId: string, storedBytes: nat)

  datatype ToolState = ToolState(
    id: ToolCallId,
    taskId: string,
    name: string,
    partialArgs: string,
    partialArgsTruncated: bool,
    finished: bool,
    deltaQueue: seq<string>,
    lastActivity: nat)

  datatype AccumulationError =
    | UnknownId(id: ToolCallId)
    | DuplicateId(id: ToolCallId)
    | MalformedPartial
    | MemoryPressure

  datatype Outcome = Done | Failed(error: AccumulationError)

  type Table = map<ToolCallId, ToolState>

  const ENTRY_OVERHEAD_BYTES: nat := 128

  function QueueBytes(queue: seq<string>): nat {
    if queue == [] then 0 else ByteLen(queue[0]) + QueueBytes(queue[1..])
  }

  function EntryBytes(state: ToolState): nat {
    ByteLen(state.id) + ByteLen(state.taskId) + ByteLen(state.name) + ByteLen(state.partialArgs)
    + QueueBytes(state.deltaQueue) + ENTRY_OVERHEAD_BYTES
  }

  ghost function Sizes(table: Table): map<ToolCallId, nat> {
    map id | id in table :: EntryBytes(table[id])
  }

  ghost function Bytes(table: Table): nat {
    Sum(Sizes(table))
  }

  lemma BytesEmpty()
    ensures Bytes(map[]) == 0
  {
    assert Sizes(map[]) == map[];
  }

  lemma BytesInsert(table: Table, id: ToolCallId, state: ToolState)
    requires id !in table
    ensures Bytes(table[id := state]) == Bytes(table) + EntryBytes(state)
  {
    hide EntryBytes, Sum;
    SumInsert(Sizes(table), id, EntryBytes(state));
    assert Sizes(table[id := state]) == Sizes(table)[id := EntryBytes(state)];
  }

  lemma BytesRemove(table: Table, id: ToolCallId)
    requires id in table
    ensures Bytes(table) == EntryBytes(table[id]) + Bytes(table - {id})
  {
    hide EntryBytes, Sum;
    SumRemove(Sizes(table), id);
    assert Sizes(table - {id}) == Sizes(table) - {id};
  }

  /** The least recently active tool among those still running. */
  ghost predicate OldestPending(table: Table, id: ToolCallId) {
    && id in table && !table[id].finished
    && forall other :: other in table && !table[other].finished ==>
                         table[id].lastActivity <= table[other].lastActivity
  }

  /** `after` is `before` without its least recently active running tool, if there is one. */
  ghost predicate DropsOldest(before: Table, after: Table) {
    if forall id :: id in before ==> before[id].finished
    then after == before
    else exists id :: OldestPending(before, id) && after == before - {id}
  }

  /** No activity is stamped later than the clock. */
  ghost predicate Stamped(table: Table, clock: nat) {
    forall id :: id in table ==> table[id].lastActivity <= clock
  }

  /** Where activity stamps are distinct, which tool is dropped is not a matter of iteration order. They stay
      distinct as long as the clock moves on between two of them. */
  ghost predicate DistinctStamps(table: Table) {
    forall a, b :: a in table && b in table && a != b ==> table[a].lastActivity != table[b].lastActivity
  }

  lemma StampKeepsDistinct(table: Table, rest: Table, clock: nat, id: ToolCallId, next: ToolState)
    requires Stamped(table, clock) && DistinctStamps(table) && next.lastActivity > clock
    requires forall other :: other in rest ==> other in table && rest[other] == table[other]
    ensures DistinctStamps(rest) && DistinctStamps(rest[id := next])
  {
  }

  lemma DropKeepsDistinct(before: Table, after: Table)
    requires DropsOldest(before, after) && DistinctStamps(before)
    ensures DistinctStamps(after)
  {
  }

  lemma OldestPendingUnique(table: Table, a: ToolCallId, b: ToolCallId)
    requires DistinctStamps(table) && OldestPending(table, a) && OldestPending(table, b)
    ensures a == b
  {
    assert table[a].lastActivity == table[b].lastActivity;
  }

  function NewTool(id: ToolCallId, taskId: string, name: string, now: nat): ToolState {
    ToolState(id, taskId, name, "", false, false, [], now)
  }

  /** One accepted chunk: the queue keeps the newest, the text keeps what fits. */
  function Absorb(state: ToolState, partialJson: string, now: nat): ToolState
    requires ByteLen(state.partialArgs) <= MAX_STORED_PARTIAL_BYTES
  {
    state.(
      lastActivity := now,
      deltaQueue := LastN(state.deltaQueue + [partialJson], MAX_TOOL_DELTA_QUEUE_DEPTH),
      partialArgs := Store(state.partialArgs, partialJson),
      partialArgsTruncated := state.partialArgsTruncated || Overflows(state.partialArgs, partialJson))
  }

  /** What holds of a resident tool whose accepted chunks so far are `accepted`. */
  ghost predicate ToolOk(state: ToolState, accepted: seq<string>) {
    && ByteLen(state.partialArgs) <= MAX_STORED_PARTIAL_BYTES
    && Accepts(state.partialArgs)
    && state.deltaQueue == LastN(accepted, MAX_TOOL_DELTA_QUEUE_DEPTH)
    && (state.partialArgsTruncated <==> ByteLen(state.partialArgs) < ByteLen(Flatten(accepted)))
    && (!state.partialArgsTruncated ==> state.partialArgs == Flatten(accepted))
  }

  lemma AbsorbKeepsToolOk(state: ToolState, accepted: seq<string>, partialJson: string, now: nat)
    requires ToolOk(state, accepted) && Accepts(state.partialArgs + partialJson)
    ensures ToolOk(Absorb(state, partialJson, now), accepted + [partialJson])
    ensures var next := Absorb(state, partialJson, now);
            && next.id == state.id && next.taskId == state.taskId && next.name == state.name
            && next.finished == state.finished && next.lastActivity == now
            && (state.partialArgsTruncated ==> next.partialArgsTruncated)
  {
    hide Accepts, ByteLen, Store, Flatten, Overflows, LastN;
    StoreAccepted(state.partialArgs, partialJson);
    FlattenSnoc(accepted, partialJson);
    QueueSnoc(accepted, partialJson);
    var k := StoreIsLongestFit(state.partialArgs, partialJson);
    var kept, lost := partialJson[..k], partialJson[k..];
    assert partialJson == kept + lost;
    ByteLenConcat(state.partialArgs, kept);
    ByteLenConcat(kept, lost);
    ByteLenConcat(Flatten(accepted), partialJson);
    LengthPositive(lost);
  }

  lemma LengthPositive(s: string)
    ensures s == "" <==> ByteLen(s) == 0
  {
  }

  lemma QueueSnoc(accepted: seq<string>, chunk: string)
    ensures LastN(LastN(accepted, MAX_TOOL_DELTA_QUEUE_DEPTH) + [chunk], MAX_TOOL_DELTA_QUEUE_DEPTH) ==
            LastN(accepted + [chunk], MAX_TOOL_DELTA_QUEUE_DEPTH)
  {
  }

  lemma FinishKeepsToolOk(state: ToolState, accepted: seq<string>, now: nat)
    requires ToolOk(state, accepted)
    ensures ToolOk(state.(finished := true, lastActivity := now), accepted)
  {
  }

  function Starts(signals: seq<PeerDelta>, id: ToolCallId): nat {
    if signals == [] then 0
    else Starts(signals[..|signals| - 1], id) +
         (if signals[|signals| - 1].ToolStart? && signals[|signals| - 1].toolCallId == id then 1 else 0)
  }

  function Truncations(signals: seq<PeerDelta>, id: ToolCallId): nat {
    if signals == [] then 0
    else Truncations(signals[..|signals| - 1], id) +
         (if signals[|signals| - 1].PartialArgsTruncated? && signals[|signals| - 1].toolCallId == id then 1 else 0)
  }

  /** No more truncation signals than starts, with one still to spare for each unflagged resident tool. */
  ghost predicate TruncationsPaidFor(signals: seq<PeerDelta>, table: Table) {
    forall id: ToolCallId ::
      Truncations(signals, id) + (if id in table && !table[id].partialArgsTruncated then 1 else 0)
      <= Starts(signals, id)
  }

  /** The task and the name given to the last start of a tool; none if it was never started. */
  function LastStart(signals: seq<PeerDelta>, id: ToolCallId): Option<(string, string)> {
    if signals == [] then None
    else
      var last := signals[|signals| - 1];
      if last.ToolStart? && last.toolCallId == id then Some((last.taskId, last.name))
      else LastStart(signals[..|signals| - 1], id)
  }

  /** A finish of the tool was signalled since its last start. */
  function FinishedSinceStart(signals: seq<PeerDelta>, id: ToolCallId): bool {
    if signals == [] then false
    else
      var last := signals[|signals| - 1];
      if last.toolCallId == id && last.ToolStart? then false
      else if last.toolCallId == id && last.ToolFinish? then true
      else FinishedSinceStart(signals[..|signals| - 1], id)
  }

  /** Whose a resident tool is, what it is called, and whether it is finished, is what was signalled. */
  ghost predicate Known(signals: seq<PeerDelta>, table: Table) {
    forall id :: id in table ==>
      LastStart(signals, id) == Some((table[id].taskId, table[id].name)) &&
      table[id].finished == FinishedSinceStart(signals, id)
  }

  lemma Appended(signals: seq<PeerDelta>, signal: PeerDelta, id: ToolCallId)
    ensures Starts(signals + [signal], id) ==
            Starts(signals, id) + (if signal.ToolStart? && signal.toolCallId == id then 1 else 0)
    ensures Truncations(signals + [signal], id) ==
            Truncations(signals, id) + (if signal.PartialArgsTruncated? && signal.toolCallId == id then 1 else 0)
    ensures LastStart(signals + [signal], id) ==
            if signal.ToolStart? && signal.toolCallId == id then Some((signal.taskId, signal.name))
            else LastStart(signals, id)
    ensures FinishedSinceStart(signals + [signal], id) ==
            if signal.toolCallId == id && (signal.ToolStart? || signal.ToolFinish?) then signal.ToolFinish?
            else FinishedSinceStart(signals, id)
  {
    var all := signals + [signal];
    assert all[..|all| - 1] == signals;
  }

  type History = map<ToolCallId, seq<string>>

  /** The invariant of the accumulator, on values. */
  ghost predicate Inv(table: Table, clock: nat, raised: seq<PeerDelta>, accepted: History) {
    && table.Keys == accepted.Keys
    && Stamped(table, clock)
    && (forall id :: id in table ==> table[id].id == id && ToolOk(table[id], accepted[id]))
    && TruncationsPaidFor(raised, table)
    && Known(raised, table)
  }

  function Restrict<K, V>(m: map<K, V>, keep: set<K>): (r: map<K, V>)
    requires keep <= m.Keys
    ensures r.Keys == keep
  {
    map k | k in keep :: m[k]
  }

  lemma InvRestrict(table: Table, clock: nat, raised: seq<PeerDelta>, accepted: History, keep: set<ToolCallId>)
    requires Inv(table, clock, raised, accepted) && keep <= table.Keys
    ensures keep <= accepted.Keys
    ensures Inv(Restrict(table, keep), clock, raised, Restrict(accepted, keep))
  {
    hide ToolOk, Truncations, Starts, LastStart, FinishedSinceStart;
  }

  lemma InvDrop(table: Table, clock: nat, raised: seq<PeerDelta>, accepted: History, id: ToolCallId)
    requires Inv(table, clock, raised, accepted)
    ensures Inv(table - {id}, clock, raised, accepted - {id})
  {
    InvRestrict(table, clock, raised, accepted, table.Keys - {id});
    hide ToolOk, Inv;
    assert table - {id} == Restrict(table, table.Keys - {id});
    assert accepted - {id} == Restrict(accepted, table.Keys - {id}) by { InvKeys(table, clock, raised, accepted); }
  }

  lemma InvStamped(table: Table, clock: nat, raised: seq<PeerDelta>, accepted: History)
    requires Inv(table, clock, raised, accepted)
    ensures Stamped(table, clock)
  {
  }

  lemma InvKeys(table: Table, clock: nat, raised: seq<PeerDelta>, accepted: History)
    requires Inv(table, clock, raised, accepted)
    ensures table.Keys == accepted.Keys
  {
  }

  lemma NewToolOk(id: ToolCallId, taskId: string, name: string, now: nat)
    ensures ToolOk(NewTool(id, taskId, name, now), [])
  {
  }

  lemma InvStart(table: Table, clock: nat, raised: seq<PeerDelta>, accepted: History,
                 id: ToolCallId, taskId: string, name: string, now: nat)
    requires Inv(table, clock, raised, accepted) && id !in table && now >= clock
    ensures Inv(table[id := NewTool(id, taskId, name, now)], now,
                raised + [ToolStart(id, taskId, name)], accepted[id := []])
  {
    var signal := ToolStart(id, taskId, name);
    NewToolOk(id, taskId, name, now);
    hide ToolOk, Truncations, Starts;
    var after := table[id := NewTool(id, taskId, name, now)];
    forall other: ToolCallId
      ensures Truncations(raised + [signal], other)
              + (if other in after && !after[other].partialArgsTruncated then 1 else 0)
              <= Starts(raised + [signal], other)
    {
      Appended(raised, signal, other);
      assert Truncations(raised, other)
             + (if other in table && !table[other].partialArgsTruncated then 1 else 0)
             <= Starts(raised, other);
    }
    assert TruncationsPaidFor(raised + [signal], after);
    hide TruncationsPaidFor, LastStart, FinishedSinceStart;
    assert Stamped(after, now);
    assert Known(raised + [signal], after) by {
      forall other { Appended(raised, signal, other); }
    }
  }

  /** One resident tool moves on; its truncation flag may rise but never falls. */
  lemma InvReplace(table: Table, clock: nat, raised: seq<PeerDelta>, accepted: History,
                   id: ToolCallId, next: ToolState, chunks: seq<string>)
    requires Inv(table, clock, raised, accepted) && id in table
    requires next.id == id && next.lastActivity >= clock && ToolOk(next, chunks)
    requires table[id].partialArgsTruncated ==> next.partialArgsTruncated
    requires next.taskId == table[id].taskId && next.name == table[id].name && next.finished == table[id].finished
    ensures Inv(table[id := next], next.lastActivity, raised, accepted[id := chunks])
  {
    hide ToolOk, Truncations, Starts, LastStart, FinishedSinceStart;
  }

  lemma KnownFinish(signals: seq<PeerDelta>, table: Table, id: ToolCallId, now: nat)
    requires Known(signals, table) && id in table
    ensures Known(signals + [ToolFinish(id, table[id].taskId)],
                  table[id := table[id].(finished := true, lastActivity := now)])
  {
    var signal := ToolFinish(id, table[id].taskId);
    forall other { Appended(signals, signal, other); }
    hide LastStart, FinishedSinceStart;
  }

  lemma PaidForFinish(signals: seq<PeerDelta>, table: Table, id: ToolCallId, now: nat)
    requires TruncationsPaidFor(signals, table) && id in table
    ensures TruncationsPaidFor(signals + [ToolFinish(id, table[id].taskId)],
                               table[id := table[id].(finished := true, lastActivity := now)])
  {
    var signal := ToolFinish(id, table[id].taskId);
    var after := table[id := table[id].(finished := true, lastActivity := now)];
    hide Truncations, Starts;
    forall other: ToolCallId
      ensures Truncations(signals + [signal], other)
              + (if other in after && !after[other].partialArgsTruncated then 1 else 0)
              <= Starts(signals + [signal], other)
    {
      Appended(signals, signal, other);
      assert Truncations(signals, other)
             + (if other in table && !table[other].partialArgsTruncated then 1 else 0)
             <= Starts(signals, other);
    }
  }

  /** A finish is signalled as the tool is marked. */
  lemma InvFinish(table: Table, clock: nat, raised: seq<PeerDelta>, accepted: History, id: ToolCallId, now: nat)
    requires Inv(table, clock, raised, accepted) && id in table && now >= clock
    ensures Inv(table[id := table[id].(finished := true, lastActivity := now)], now,
                raised + [ToolFinish(id, table[id].taskId)], accepted)
  {
    KnownFinish(raised, table, id, now);
    PaidForFinish(raised, table, id, now);
    FinishKeepsToolOk(table[id], accepted[id], now);
    hide ToolOk, Known, TruncationsPaidFor;
  }

  lemma InvOtherSignal(table: Table, clock: nat, raised: seq<PeerDelta>, accepted: History, signal: PeerDelta)
    requires Inv(table, clock, raised, accepted) && signal.ToolDelta?
    ensures Inv(table, clock, raised + [signal], accepted)
    ensures forall id: ToolCallId :: Starts(raised + [signal], id) == Starts(raised, id)
    ensures forall id: ToolCallId :: Truncations(raised + [signal], id) == Truncations(raised, id)
  {
    forall id: ToolCallId
      ensures Starts(raised + [signal], id) == Starts(raised, id)
      ensures Truncations(raised + [signal], id) == Truncations(raised, id)
      ensures LastStart(raised + [signal], id) == LastStart(raised, id)
      ensures FinishedSinceStart(raised + [signal], id) == FinishedSinceStart(raised, id)
    {
      Appended(raised, signal, id);
    }
  }

  lemma InvTruncation(table: Table, clock: nat, raised: seq<PeerDelta>, accepted: History,
                      id: ToolCallId, taskId: string)
    requires Inv(table, clock, raised, accepted)
    requires id in table ==> table[id].partialArgsTruncated
    requires Truncations(raised, id) < Starts(raised, id)
    ensures Inv(table, clock, raised + [PartialArgsTruncated(id, taskId, MAX_STORED_PARTIAL_BYTES)], accepted)
  {
    var signal := PartialArgsTruncated(id, taskId, MAX_STORED_PARTIAL_BYTES);
    forall other: ToolCallId
      ensures Starts(raised + [signal], other) == Starts(raised, other)
      ensures Truncations(raised + [signal], other) == Truncations(raised, other) + if other == id then 1 else 0
      ensures LastStart(raised + [signal], other) == LastStart(raised, other)
      ensures FinishedSinceStart(raised + [signal], other) == FinishedSinceStart(raised, other)
    {
      Appended(raised, signal, other);
    }
  }

  /** The bounds a client sees in every reachable state. */
  lemma TruncatedAtMostOncePerStart(table: Table, clock: nat, raised: seq<PeerDelta>, accepted: History, id: ToolCallId)
    requires Inv(table, clock, raised, accepted)
    ensures Truncations(raised, id) <= Starts(raised, id)
    ensures id in table ==>
              && ByteLen(table[id].partialArgs) <= MAX_STORED_PARTIAL_BYTES
              && |table[id].deltaQueue| <= MAX_TOOL_DELTA_QUEUE_DEPTH
              && Accepts(table[id].partialArgs)
  {
    assert Truncations(raised, id) + (if id in table && !table[id].partialArgsTruncated then 1 else 0)
           <= Starts(raised, id);
  }

  lemma InvResident(table: Table, clock: nat, raised: seq<PeerDelta>, accepted: History, id: ToolCallId)
    requires Inv(table, clock, raised, accepted) && id in table
    ensures id in accepted && table[id].id == id && ToolOk(table[id], accepted[id])
    ensures ByteLen(table[id].partialArgs) <= MAX_STORED_PARTIAL_BYTES
    ensures |table[id].deltaQueue| <= MAX_TOOL_DELTA_QUEUE_DEPTH
    ensures !table[id].partialArgsTruncated ==> Truncations(raised, id) < Starts(raised, id)
  {
    assert Truncations(raised, id) + (if id in table && !table[id].partialArgsTruncated then 1 else 0)
           <= Starts(raised, id);
  }

  method SumQueue(queue: seq<string>) returns (queued: nat)
    ensures queued == QueueBytes(queue)
  {
    queued := 0;
    for i := 0 to |queue|
      invariant queued + QueueBytes(queue[i..]) == QueueBytes(queue)
    {
      queued := queued + ByteLen(queue[i]);
    }
  }

  /** The statements that change one tool's entry when a chunk is accepted: stamp, queue, then the
      text one character at a time until the cap is hit. */
  method AbsorbInPlace(before: ToolState, partialJson: string, now: nat)
    returns (entry: ToolState, truncationSignal: bool)
    requires ByteLen(before.partialArgs) <= MAX_STORED_PARTIAL_BYTES
    requires |before.deltaQueue| <= MAX_TOOL_DELTA_QUEUE_DEPTH
    ensures entry == Absorb(before, partialJson, now)
    ensures truncationSignal <==> entry.partialArgsTruncated && !before.partialArgsTruncated
  {
    entry := before.(lastActivity := now);
    if |entry.deltaQueue| == MAX_TOOL_DELTA_QUEUE_DEPTH {
      entry := entry.(deltaQueue := entry.deltaQueue[1..]);
    }
    entry := entry.(deltaQueue := entry.deltaQueue + [partialJson]);
    truncationSignal := false;
    var i := 0;
    assert partialJson[0..] == partialJson;
    while i < |partialJson|
      invariant 0 <= i <= |partialJson|
      invariant ByteLen(entry.partialArgs) <= MAX_STORED_PARTIAL_BYTES
      invariant Store(entry.partialArgs, partialJson[i..]) == Store(before.partialArgs, partialJson)
      invariant ByteLen(entry.partialArgs) + ByteLen(partialJson[i..]) ==
                ByteLen(before.partialArgs) + ByteLen(partialJson)
      invariant entry == Absorb(before, partialJson, now).(
                           partialArgs := entry.partialArgs,
                           partialArgsTruncated := before.partialArgsTruncated)
    {
      var ch := partialJson[i];
      assert partialJson[i..][1..] == partialJson[i + 1..];
      if ByteLen(entry.partialArgs) + Utf8Width(ch) > MAX_STORED_PARTIAL_BYTES {
        if !entry.partialArgsTruncated {
          entry := entry.(partialArgsTruncated := true);
          truncationSignal := true;
        }
        break;
      }
      ByteLenSnoc(entry.partialArgs, ch);
      entry := entry.(partialArgs := entry.partialArgs + [ch]);
      i := i + 1;
    }
  }

  class Accumulator {
    var state: Table
    const memoryWatermarkBytes: nat
    const peerAttached: bool
    /** What was handed to the peer channel, which may still drop a signal when it is full. */
    var offered: seq<PeerDelta>
    /** Every signal raised, whether or not a channel is attached. */
    ghost var raised: seq<PeerDelta>
    /** The chunks accepted so far for each resident tool. */
    ghost var accepted: History
    /** When an activity was last stamped; time never runs backwards. */
    ghost var clock: nat

    ghost predicate Valid()
      reads this
    {
      Inv(state, clock, raised, accepted) && offered == (if peerAttached then raised else [])
    }

    constructor (watermark: nat, peers: bool)
      ensures Valid() && state == map[] && raised == [] && clock == 0
      ensures memoryWatermarkBytes == watermark && peerAttached == peers
    {
      state, clock, offered, raised, accepted := map[], 0, [], [], map[];
      memoryWatermarkBytes, peerAttached := watermark, peers;
    }

    method EstimateMemoryUsage() returns (total: nat)
      requires Valid()
      ensures total == Bytes(state)
    {
      forall id | id in state ensures state[id].id == id { InvResident(state, clock, raised, accepted, id); }
      hide Inv, Bytes;
      total := 0;
      var left := state;
      assert state - {} == state;
      while left != map[]
        invariant left.Keys <= state.Keys
        invariant forall id :: id in left ==> left[id] == state[id]
        invariant total + Bytes(left) == Bytes(state)
        decreases |left|
      {
        var id :| id in left;
        var entry := left[id];
        var queued := SumQueue(entry.deltaQueue);
        BytesRemove(left, id);
        total := total + ByteLen(id) + ByteLen(entry.taskId) + ByteLen(entry.name)
                 + ByteLen(entry.partialArgs) + queued + ENTRY_OVERHEAD_BYTES;
        left := left - {id};
      }
      BytesEmpty();
    }

    method DropOldestPending()
      requires Valid()
      modifies `state, `accepted
      ensures Valid()
      ensures DropsOldest(old(state), state)
      ensures forall id :: id in state ==>
                id in old(state) && state[id] == old(state)[id] && accepted[id] == old(accepted)[id]
    {
      hide Inv;
      var oldest: ToolCallId := "";
      var found := false;
      var left := state.Keys;
      while left != {}
        invariant left <= state.Keys
        invariant found ==> oldest in state && !state[oldest].finished
        invariant forall id :: id in state && id !in left && !state[id].finished ==>
                                 found && state[oldest].lastActivity <= state[id].lastActivity
        decreases left
      {
        var id :| id in left;
        left := left - {id};
        if !state[id].finished && (!found || state[id].lastActivity < state[oldest].lastActivity) {
          oldest, found := id, true;
        }
      }
      if !found {
        return;
      }
      assert OldestPending(state, oldest);
      InvDrop(state, clock, raised, accepted, oldest);
      InvKeys(state, clock, raised, accepted);
      state := state - {oldest};
      accepted := accepted - {oldest};
    }

    method PublishSignal(signal: PeerDelta)
      modifies `offered, `raised
      ensures raised == old(raised) + [signal]
      ensures offered == if peerAttached then old(offered) + [signal] else old(offered)
    {
      raised := raised + [signal];
      if !peerAttached {
        return;
      }
      offered := offered + [signal];
    }

    method StartTool(id: ToolCallId, taskId: string, name: string, now: nat) returns (r: Outcome)
      requires Valid() && now >= clock
      modifies this
      ensures Valid()
      ensures id in old(state) ==>
                r == Failed(DuplicateId(id)) && state == old(state) && raised == old(raised)
      // below the watermark nothing is evicted
      ensures id !in old(state) && Bytes(old(state)) <= memoryWatermarkBytes ==>
                r == Done && state == old(state)[id := NewTool(id, taskId, name, now)]
      // above it at most one tool goes, the least recently active running one
      ensures id !in old(state) && Bytes(old(state)) > memoryWatermarkBytes ==>
                exists rest: Table :: DropsOldest(old(state), rest) &&
                  if Bytes(rest) > memoryWatermarkBytes
                  then r == Failed(MemoryPressure) && state == rest
                  else r == Done && state == rest[id := NewTool(id, taskId, name, now)]
      ensures r == Done ==> Bytes(state) <= memoryWatermarkBytes + EntryBytes(NewTool(id, taskId, name, now))
      ensures clock == if r == Done then now else old(clock)
      ensures old(DistinctStamps(state)) && now > old(clock) ==> DistinctStamps(state)
      ensures raised == if r == Done then old(raised) + [ToolStart(id, taskId, name)] else old(raised)
    {
      hide Inv, Bytes, EntryBytes, DropsOldest, DistinctStamps;
      ghost var before := state;
      InvStamped(state, clock, raised, accepted);
      if id in state {
        return Failed(DuplicateId(id));
      }
      var used := EstimateMemoryUsage();
      if used > memoryWatermarkBytes {
        DropOldestPending();
        if DistinctStamps(before) { DropKeepsDistinct(before, state); }
        used := EstimateMemoryUsage();
        if used > memoryWatermarkBytes {
          return Failed(MemoryPressure);
        }
      }
      assert id !in state;
      BytesInsert(state, id, NewTool(id, taskId, name, now));
      InvStart(state, clock, raised, accepted, id, taskId, name, now);
      if DistinctStamps(before) && now > clock {
        StampKeepsDistinct(before, state, clock, id, NewTool(id, taskId, name, now));
      }
      clock := now;
      state := state[id := ToolState(id, taskId, name, "", false, false, [], now)];
      accepted := accepted[id := []];
      PublishSignal(ToolStart(id, taskId, name));
      return Done;
    }

    method Accumulate(id: ToolCallId, partialJson: string, now: nat) returns (r: Outcome)
      requires Valid() && now >= clock
      modifies this
      ensures Valid()
      ensures id !in old(state) ==>
                r == Failed(UnknownId(id)) && state == old(state) && raised == old(raised)
      ensures id in old(state) && !Accepts(old(state)[id].partialArgs + partialJson) ==>
                r == Failed(MalformedPartial) && state == old(state) && raised == old(raised)
      ensures id in old(state) && Accepts(old(state)[id].partialArgs + partialJson) ==>
                && r == Done
                && var absorbed := old(state)[id := Absorb(old(state)[id], partialJson, now)];
                   && (if Bytes(absorbed) > memoryWatermarkBytes
                       then DropsOldest(absorbed, state) else state == absorbed)
                   && raised == old(raised)
                      + [ToolDelta(id, if id in state then state[id].taskId else "", partialJson)]
                      + if absorbed[id].partialArgsTruncated && !old(state)[id].partialArgsTruncated
                        then [PartialArgsTruncated(id, absorbed[id].taskId, MAX_STORED_PARTIAL_BYTES)] else []
      ensures clock == if r == Done then now else old(clock)
      ensures old(DistinctStamps(state)) && now > old(clock) ==> DistinctStamps(state)
      ensures id in state && r == Done ==> accepted[id] == old(accepted)[id] + [partialJson]
    {
      hide Inv, Bytes, EntryBytes, ToolOk, DropsOldest, Absorb, Accepts, Truncations, Starts, ByteLen, DistinctStamps;
      hide Sizes, Store, LastN, OldestPending;
      if id !in state {
        return Failed(UnknownId(id));
      }
      var ok := IsValidJsonPrefix(state[id].partialArgs, partialJson);
      if !ok {
        return Failed(MalformedPartial);
      }
      InvResident(state, clock, raised, accepted, id);
      var entry, truncationSignal := AbsorbChunk(id, partialJson, now);
      KeepWatermark();
      var taskId := if id in state then state[id].taskId else "";
      InvOtherSignal(state, clock, raised, accepted, ToolDelta(id, taskId, partialJson));
      PublishSignal(ToolDelta(id, taskId, partialJson));
      if truncationSignal {
        InvTruncation(state, clock, raised, accepted, id, entry.taskId);
        PublishSignal(PartialArgsTruncated(id, entry.taskId, MAX_STORED_PARTIAL_BYTES));
      }
      return Done;
    }

    /** The entry of one tool moves on. */
    method AbsorbChunk(id: ToolCallId, partialJson: string, now: nat) returns (entry: ToolState, truncationSignal: bool)
      requires Valid() && now >= clock && id in state
      requires ByteLen(state[id].partialArgs) <= MAX_STORED_PARTIAL_BYTES
      requires Accepts(state[id].partialArgs + partialJson)
      modifies `state, `clock, `accepted
      ensures Valid() && clock == now
      ensures entry == Absorb(old(state)[id], partialJson, now) && state == old(state)[id := entry]
      ensures truncationSignal <==> entry.partialArgsTruncated && !old(state)[id].partialArgsTruncated
      ensures id in accepted && id in old(accepted) && accepted[id] == old(accepted)[id] + [partialJson]
      ensures old(DistinctStamps(state)) && now > old(clock) ==> DistinctStamps(state)
    {
      hide Inv, ToolOk, Absorb, Accepts, Truncations, Starts, ByteLen, DistinctStamps;
      InvResident(state, clock, raised, accepted, id);
      AbsorbKeepsToolOk(state[id], accepted[id], partialJson, now);
      entry, truncationSignal := AbsorbInPlace(state[id], partialJson, now);
      InvReplace(state, clock, raised, accepted, id, entry, accepted[id] + [partialJson]);
      InvStamped(state, clock, raised, accepted);
      if DistinctStamps(state) && now > clock {
        StampKeepsDistinct(state, state, clock, id, entry);
      }
      clock := now;
      state := state[id := entry];
      accepted := accepted[id := accepted[id] + [partialJson]];
    }

    /** Above the watermark one tool has to go. */
    method KeepWatermark()
      requires Valid()
      modifies `state, `accepted
      ensures Valid()
      ensures if old(Bytes(state)) > memoryWatermarkBytes then DropsOldest(old(state), state) else state == old(state)
      ensures forall id :: id in state ==> id in old(state) && state[id] == old(state)[id]
      ensures forall id :: id in state && id in accepted ==> id in old(accepted) && accepted[id] == old(accepted)[id]
      ensures old(DistinctStamps(state)) ==> DistinctStamps(state)
    {
      hide Inv, Bytes, DropsOldest, DistinctStamps;
      ghost var before := state;
      InvKeys(state, clock, raised, accepted);
      var used := EstimateMemoryUsage();
      if used > memoryWatermarkBytes {
        DropOldestPending();
        if DistinctStamps(before) { DropKeepsDistinct(before, state); }
      }
      InvKeys(state, clock, raised, accepted);
    }

    method Finish(id: ToolCallId, now: nat)
      requires Valid() && now >= clock
      modifies this
      ensures Valid() && accepted == old(accepted)
      ensures id !in old(state) ==> state == old(state) && raised == old(raised) && clock == old(clock)
      ensures id in old(state) ==>
                && clock == now
                && state == old(state)[id := old(state)[id].(finished := true, lastActivity := now)]
                && raised == old(raised) + [ToolFinish(id, state[id].taskId)]
      ensures old(DistinctStamps(state)) && now > old(clock) ==> DistinctStamps(state)
    {
      hide Inv, ToolOk, DistinctStamps;
      if id in state {
        InvResident(state, clock, raised, accepted, id);
        InvStamped(state, clock, raised, accepted);
        InvFinish(state, clock, raised, accepted, id, now);
        var entry := state[id].(finished := true, lastActivity := now);
        if DistinctStamps(state) && now > clock {
          StampKeepsDistinct(state, state, clock, id, entry);
        }
        clock := now;
        state := state[id := entry];
        PublishSignal(ToolFinish(id, entry.taskId));
      }
    }

    /** Forgets the finished tools that have been quiet for `olderThan`; running tools stay. */
    method CleanupFinished(olderThan: nat, now: nat) returns (removed: nat)
      requires Valid() && now >= clock
      modifies `state, `accepted
      ensures Valid()
      ensures state == map id | id in old(state) &&
                (!old(state)[id].finished || now - old(state)[id].lastActivity < olderThan) :: old(state)[id]
      ensures removed == |old(state)| - |state|
    {
      var cutoff := now - olderThan;
      var before := |state|;
      Retain(set id | id in state && (!state[id].finished || state[id].lastActivity > cutoff));
      removed := before - |state|;
    }

    /** Forgets every tool of one task. */
    method CleanupTask(taskId: string) returns (removed: nat)
      requires Valid()
      modifies `state, `accepted
      ensures Valid()
      ensures state == map id | id in old(state) && old(state)[id].taskId != taskId :: old(state)[id]
      ensures removed == |old(state)| - |state|
    {
      var before := |state|;
      Retain(set id | id in state && state[id].taskId != taskId);
      removed := before - |state|;
    }

    method Retain(keep: set<ToolCallId>)
      requires Valid() && keep <= state.Keys
      modifies `state, `accepted
      ensures Valid()
      ensures state == Restrict(old(state), keep)
      ensures |state| <= |old(state)|
    {
      hide Inv;
      InvRestrict(state, clock, raised, accepted, keep);
      SubsetSize(keep, state.Keys);
      accepted := Restrict(accepted, keep);
      state := Restrict(state, keep);
      assert |state| == |state.Keys| && |old(state)| == |old(state).Keys|;
    }
  }

  /** One thing a client does, and when. */
  datatype Call =
    | Start(id: ToolCallId, taskId: string, name: string, now: nat)
    | Stream(id: ToolCallId, partialJson: string, now: nat)
    | End(id: ToolCallId, now: nat)
    | ForgetFinished(olderThan: nat, now: nat)
    | ForgetTask(taskId: string, now: nat)

  /** Whatever is done to a fresh accumulator, in any order: a resident tool has the task and the name of its
      last start, is finished if and only if that was signalled since, and its text and signals are in bounds. */
  method RunCalls(watermark: nat, peers: bool, calls: seq<Call>) returns (acc: Accumulator)
    requires forall i, j :: 0 <= i < j < |calls| ==> calls[i].now <= calls[j].now
    ensures fresh(acc) && acc.Valid() && acc.offered == if peers then acc.raised else []
    ensures forall id :: id in acc.state ==>
              && LastStart(acc.raised, id) == Some((acc.state[id].taskId, acc.state[id].name))
              && (acc.state[id].finished <==> FinishedSinceStart(acc.raised, id))
              && ByteLen(acc.state[id].partialArgs) <= MAX_STORED_PARTIAL_BYTES
              && |acc.state[id].deltaQueue| <= MAX_TOOL_DELTA_QUEUE_DEPTH
    ensures forall id :: Truncations(acc.raised, id) <= Starts(acc.raised, id)
  {
    acc := new Accumulator(watermark, peers);
    var n := |calls|;
    for i := 0 to n
      invariant fresh(acc) && acc.Valid() && acc.peerAttached == peers
      invariant forall j :: i <= j < |calls| ==> acc.clock <= calls[j].now
    {
      hide Accumulator.Valid, Bytes, EntryBytes, DropsOldest, DistinctStamps, Absorb, Accepts;
      match calls[i] {
        case Start(id, taskId, name, now) => var _ := acc.StartTool(id, taskId, name, now);
        case Stream(id, partialJson, now) => var _ := acc.Accumulate(id, partialJson, now);
        case End(id, now) => acc.Finish(id, now);
        case ForgetFinished(olderThan, now) => var _ := acc.CleanupFinished(olderThan, now);
        case ForgetTask(taskId, _) => var _ := acc.CleanupTask(taskId);
      }
    }
    forall id ensures Truncations(acc.raised, id) <= Starts(acc.raised, id) {
      TruncatedAtMostOncePerStart(acc.state, acc.clock, acc.raised, acc.accepted, id);
    }
    forall id | id in acc.state
      ensures && LastStart(acc.raised, id) == Some((acc.state[id].taskId, acc.state[id].name))
              && (acc.state[id].finished <==> FinishedSinceStart(acc.raised, id))
              && ByteLen(acc.state[id].partialArgs) <= MAX_STORED_PARTIAL_BYTES
              && |acc.state[id].deltaQueue| <= MAX_TOOL_DELTA_QUEUE_DEPTH
    {
      TruncatedAtMostOncePerStart(acc.state, acc.clock, acc.raised, acc.accepted, id);
    }
  }

  /** Streaming a tool's arguments chunk by chunk, as long as nothing evicts the tool: the stream is
      taken exactly as `Feed` says, so the theorems about `Feed` are about this accumulator. */
  method StreamArguments(acc: Accumulator, id: ToolCallId, chunks: seq<string>, times: seq<nat>)
    returns (refused: bool, evicted: bool)
    requires acc.Valid() && id in acc.state
    requires |times| == |chunks| && forall i :: 0 <= i < |times| ==> acc.clock <= times[i]
    requires forall i, j :: 0 <= i < j < |times| ==> times[i] <= times[j]
    modifies acc
    ensures acc.Valid()
    ensures evicted <==> id !in acc.state
    ensures refused ==> Feed(old(acc.state)[id].partialArgs, chunks) == Refused
    ensures !refused && !evicted ==>
              Feed(old(acc.state)[id].partialArgs, chunks) == Stored(acc.state[id].partialArgs)
  {
    hide Inv, ToolOk, Bytes, Accepts, Store, ByteLen, Overflows;
    InvResident(acc.state, acc.clock, acc.raised, acc.accepted, id);
    ghost var first := acc.state[id].partialArgs;
    for i := 0 to |chunks|
      invariant acc.Valid() && id in acc.state
      invariant forall j :: i <= j < |times| ==> acc.clock <= times[j]
      invariant ByteLen(acc.state[id].partialArgs) <= MAX_STORED_PARTIAL_BYTES
      invariant ByteLen(first) <= MAX_STORED_PARTIAL_BYTES
      invariant Feed(first, chunks) == Feed(acc.state[id].partialArgs, chunks[i..])
    {
      assert chunks[i..][1..] == chunks[i + 1..];
      var r := acc.Accumulate(id, chunks[i], times[i]);
      if r != Done {
        return true, false;
      }
      if id !in acc.state {
        return false, true;
      }
      InvResident(acc.state, acc.clock, acc.raised, acc.accepted, id);
    }
    return false, false;
  }

  lemma SubsetSize<T>(a: set<T>, b: set<T>)
    requires a <= b
    ensures |a| <= |b|
  {
    assert b == a + (b - a);
  }
}
