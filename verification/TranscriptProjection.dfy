/** The committed transcript: notices, then turns and compaction records merged in order. */
module TranscriptProjection {
  import opened Text
  import opened Wrappers
  import opened TranscriptRows

  datatype CompactionRecord = CompactionRecord(turnIndex: nat, summary: string)

  function RecordRow(record: CompactionRecord): Row {
    Plain("[context compacted: " + record.summary + "]")
  }

  datatype Item = Turn(index: nat) | Compaction(index: nat)

  /** The merge of turns `t..` of `turns` with the records `r..`: records that are due go first. */
  function Merge(turns: nat, records: seq<CompactionRecord>, t: nat, r: nat): seq<Item>
    requires t <= turns && r <= |records|
    decreases turns - t + |records| - r
  {
    if r < |records| && (t == turns || records[r].turnIndex <= t) then
      [Compaction(r)] + Merge(turns, records, t, r + 1)
    else if t < turns then [Turn(t)] + Merge(turns, records, t + 1, r)
    else []
  }

  function ItemRows<Input>(
      style: Style<Input>, turns: seq<seq<Entry<Input>>>, records: seq<CompactionRecord>, item: Item): seq<Row>
  {
    match item
    case Turn(i) => if i < |turns| then TurnRows(style, turns[i]) else []
    case Compaction(j) => if j < |records| then [RecordRow(records[j])] else []
  }

  function AllRows<Input>(
      style: Style<Input>, turns: seq<seq<Entry<Input>>>, records: seq<CompactionRecord>, items: seq<Item>): seq<Row>
  {
    if items == [] then []
    else ItemRows(style, turns, records, items[0]) + AllRows(style, turns, records, items[1..])
  }

  function Notices(notices: seq<string>): seq<Row> {
    seq(|notices|, i requires 0 <= i < |notices| => Plain(notices[i]))
  }

  /** What is left to write when turn `t` is next and record `r` is next. */
  function Remaining<Input>(
      style: Style<Input>, turns: seq<seq<Entry<Input>>>, records: seq<CompactionRecord>, t: nat, r: nat): seq<Row>
    requires t <= |turns| && r <= |records|
  {
    AllRows(style, turns, records, Merge(|turns|, records, t, r))
  }

  lemma RemainingIs<Input>(
      style: Style<Input>, turns: seq<seq<Entry<Input>>>, records: seq<CompactionRecord>, t: nat, r: nat)
    requires t <= |turns| && r <= |records|
    ensures r < |records| && (t == |turns| || records[r].turnIndex <= t) ==>
              Remaining(style, turns, records, t, r) ==
              [RecordRow(records[r])] + Remaining(style, turns, records, t, r + 1)
    ensures t < |turns| && (r == |records| || records[r].turnIndex > t) ==>
              Remaining(style, turns, records, t, r) ==
              TurnRows(style, turns[t]) + Remaining(style, turns, records, t + 1, r)
    ensures t == |turns| && r == |records| ==> Remaining(style, turns, records, t, r) == []
  {
    hide TurnRows, RecordRow;
    if r < |records| && (t == |turns| || records[r].turnIndex <= t) {
      AllRowsCons(style, turns, records, Compaction(r), Merge(|turns|, records, t, r + 1));
    } else if t < |turns| {
      AllRowsCons(style, turns, records, Turn(t), Merge(|turns|, records, t + 1, r));
    }
  }

  lemma AllRowsCons<Input>(
      style: Style<Input>, turns: seq<seq<Entry<Input>>>, records: seq<CompactionRecord>, item: Item, items: seq<Item>)
    ensures AllRows(style, turns, records, [item] + items) ==
            ItemRows(style, turns, records, item) + AllRows(style, turns, records, items)
  {
    hide ItemRows;
    assert ([item] + items)[1..] == items;
  }

  lemma {:induction false} AllRowsConcat<Input>(
      style: Style<Input>, turns: seq<seq<Entry<Input>>>, records: seq<CompactionRecord>, x: seq<Item>, y: seq<Item>)
    ensures AllRows(style, turns, records, x + y) == AllRows(style, turns, records, x) + AllRows(style, turns, records, y)
  {
    hide ItemRows;
    if x == [] {
      assert x + y == y;
    } else {
      assert (x + y)[0] == x[0] && (x + y)[1..] == x[1..] + y;
      AllRowsConcat(style, turns, records, x[1..], y);
      Associates(
        ItemRows(style, turns, records, x[0]), AllRows(style, turns, records, x[1..]), AllRows(style, turns, records, y));
    }
  }

  /** At its place among the items a turn shows its rows, and a record the notice of what was compacted. */
  lemma ItemShown<Input>(
      style: Style<Input>, turns: seq<seq<Entry<Input>>>, records: seq<CompactionRecord>, items: seq<Item>, p: nat)
    requires p < |items|
    requires items[p].index < if items[p].Turn? then |turns| else |records|
    ensures AllRows(style, turns, records, items) ==
            AllRows(style, turns, records, items[..p]) +
            (if items[p].Turn? then TurnRows(style, turns[items[p].index])
             else [Plain("[context compacted: " + records[items[p].index].summary + "]")]) +
            AllRows(style, turns, records, items[p + 1..])
  {
    hide TurnRows, AllRows;
    var before, item, after := items[..p], items[p], items[p + 1..];
    assert items == before + ([item] + after);
    AllRowsConcat(style, turns, records, before, [item] + after);
    AllRowsCons(style, turns, records, item, after);
    Associates(
      AllRows(style, turns, records, before), ItemRows(style, turns, records, item), AllRows(style, turns, records, after));
  }

  lemma RemainingIsAll<Input>(style: Style<Input>, turns: seq<seq<Entry<Input>>>, records: seq<CompactionRecord>)
    ensures Remaining(style, turns, records, 0, 0) == AllRows(style, turns, records, Merge(|turns|, records, 0, 0))
  {
    hide AllRows, Merge;
  }

  /** `project_committed_transcript_rows`. */
  method ProjectCommittedTranscriptRows<Input>(
      style: Style<Input>, turns: seq<seq<Entry<Input>>>, records: seq<CompactionRecord>, notices: seq<string>)
    returns (rows: seq<Row>)
    ensures rows == Notices(notices) + AllRows(style, turns, records, Merge(|turns|, records, 0, 0))
    ensures |Notices(notices)| == |notices| && forall i :: 0 <= i < |notices| ==> Notices(notices)[i] == Plain(notices[i])
  {
    RemainingIsAll(style, turns, records);
    hide AllRows, Merge, TurnRows, RecordRow, Remaining;
    rows := [];
    for i := 0 to |notices|
      invariant rows == Notices(notices[..i])
    {
      rows := rows + [Plain(notices[i])];
    }
    assert notices[..|notices|] == notices;
    ghost var whole := rows + Remaining(style, turns, records, 0, 0);
    var next := 0;
    for turn := 0 to |turns|
      invariant next <= |records|
      invariant rows + Remaining(style, turns, records, turn, next) == whole
    {
      while next < |records| && records[next].turnIndex <= turn
        invariant next <= |records|
        invariant rows + Remaining(style, turns, records, turn, next) == whole
      {
        RemainingIs(style, turns, records, turn, next);
        Associates(rows, [RecordRow(records[next])], Remaining(style, turns, records, turn, next + 1));
        rows := rows + [RecordRow(records[next])];
        next := next + 1;
      }
      RemainingIs(style, turns, records, turn, next);
      Associates(rows, TurnRows(style, turns[turn]), Remaining(style, turns, records, turn + 1, next));
      rows := AppendTurnRows(style, rows, turns[turn]);
    }
    while next < |records|
      invariant next <= |records|
      invariant rows + Remaining(style, turns, records, |turns|, next) == whole
    {
      RemainingIs(style, turns, records, |turns|, next);
      Associates(rows, [RecordRow(records[next])], Remaining(style, turns, records, |turns|, next + 1));
      rows := rows + [RecordRow(records[next])];
      next := next + 1;
    }
    RemainingIs(style, turns, records, |turns|, next);
    assert rows + [] == rows;
  }

  // ------------------------------------------------------------------------------------------
  // The merge keeps both orders and puts every record where it belongs.

  function TurnsOf(items: seq<Item>): seq<nat> {
    if items == [] then []
    else (if items[0].Turn? then [items[0].index] else []) + TurnsOf(items[1..])
  }

  function CompactionsOf(items: seq<Item>): seq<nat> {
    if items == [] then []
    else (if items[0].Compaction? then [items[0].index] else []) + CompactionsOf(items[1..])
  }

  function Range(from: nat, to: nat): seq<nat>
    requires from <= to
  {
    seq(to - from, i requires 0 <= i => from + i)
  }

  /** Every turn and every record occurs exactly once, each kind in its own order. */
  lemma {:induction false} MergeKeepsAll(turns: nat, records: seq<CompactionRecord>, t: nat, r: nat)
    requires t <= turns && r <= |records|
    ensures TurnsOf(Merge(turns, records, t, r)) == Range(t, turns)
    ensures CompactionsOf(Merge(turns, records, t, r)) == Range(r, |records|)
    decreases turns - t + |records| - r
  {
    var items := Merge(turns, records, t, r);
    if r < |records| && (t == turns || records[r].turnIndex <= t) {
      MergeKeepsAll(turns, records, t, r + 1);
      assert items[1..] == Merge(turns, records, t, r + 1);
      assert Range(r, |records|) == [r] + Range(r + 1, |records|);
    } else if t < turns {
      MergeKeepsAll(turns, records, t + 1, r);
      assert items[1..] == Merge(turns, records, t + 1, r);
      assert Range(t, turns) == [t] + Range(t + 1, turns);
    }
  }

  /** The turn from which record `j` is due, given that no record overtakes an earlier one. */
  function DueFrom(records: seq<CompactionRecord>, r: nat, j: nat): nat
    requires r <= j < |records|
    decreases j - r
  {
    if j == r then records[r].turnIndex
    else
      var later := DueFrom(records, r + 1, j);
      if later < records[r].turnIndex then records[r].turnIndex else later
  }

  predicate InBounds(item: Item, turns: nat, records: seq<CompactionRecord>, t: nat, r: nat) {
    match item
    case Turn(i) => t <= i < turns
    case Compaction(j) => r <= j < |records|
  }

  lemma {:induction false} MergeInBounds(turns: nat, records: seq<CompactionRecord>, t: nat, r: nat)
    requires t <= turns && r <= |records|
    ensures forall p :: 0 <= p < |Merge(turns, records, t, r)| ==>
              InBounds(Merge(turns, records, t, r)[p], turns, records, t, r)
    decreases turns - t + |records| - r
  {
    if r < |records| && (t == turns || records[r].turnIndex <= t) {
      MergeInBounds(turns, records, t, r + 1);
    } else if t < turns {
      MergeInBounds(turns, records, t + 1, r);
    }
  }

  /** A record comes before a turn exactly when it is due by that turn, whatever the indices of the records. */
  lemma {:induction false} RecordBeforeTurnIff(
      turns: nat, records: seq<CompactionRecord>, t: nat, r: nat, p: nat, q: nat)
    requires t <= turns && r <= |records|
    requires p < |Merge(turns, records, t, r)| && q < |Merge(turns, records, t, r)|
    requires Merge(turns, records, t, r)[p].Compaction? && Merge(turns, records, t, r)[q].Turn?
    ensures r <= Merge(turns, records, t, r)[p].index < |records|
    ensures p < q <==>
            DueFrom(records, r, Merge(turns, records, t, r)[p].index) <= Merge(turns, records, t, r)[q].index
    decreases turns - t + |records| - r
  {
    hide InBounds;
    var items := Merge(turns, records, t, r);
    MergeInBounds(turns, records, t, r);
    BoundsMean(items[p], turns, records, t, r);
    BoundsMean(items[q], turns, records, t, r);
    if r < |records| && (t == turns || records[r].turnIndex <= t) {
      assert items[1..] == Merge(turns, records, t, r + 1);
      if p > 0 && q > 0 {
        assert items[p] == items[1..][p - 1] && items[q] == items[1..][q - 1];
        RecordBeforeTurnIff(turns, records, t, r + 1, p - 1, q - 1);
      }
    } else {
      assert items[1..] == Merge(turns, records, t + 1, r);
      if p > 0 && q > 0 {
        assert items[p] == items[1..][p - 1] && items[q] == items[1..][q - 1];
        RecordBeforeTurnIff(turns, records, t + 1, r, p - 1, q - 1);
      } else if q == 0 {
        DueNotBefore(records, r, items[p].index);
      }
    }
  }

  lemma BoundsMean(item: Item, turns: nat, records: seq<CompactionRecord>, t: nat, r: nat)
    requires InBounds(item, turns, records, t, r)
    ensures item.Turn? ==> t <= item.index < turns
    ensures item.Compaction? ==> r <= item.index < |records|
  {
  }

  lemma DueNotBefore(records: seq<CompactionRecord>, r: nat, j: nat)
    requires r <= j < |records|
    ensures DueFrom(records, r, j) >= records[r].turnIndex
  {
  }

  predicate Nondecreasing(records: seq<CompactionRecord>) {
    forall i, j :: 0 <= i < j < |records| ==> records[i].turnIndex <= records[j].turnIndex
  }

  lemma {:induction false} DueWhenRecorded(records: seq<CompactionRecord>, r: nat, j: nat)
    requires Nondecreasing(records) && r <= j < |records|
    ensures DueFrom(records, r, j) == records[j].turnIndex
    decreases j - r
  {
    if r < j {
      DueWhenRecorded(records, r + 1, j);
    }
  }

  /** In order of their indices, each record stands right between the turns before its index and the rest. */
  lemma OrderedRecordsBetweenTurns(turns: nat, records: seq<CompactionRecord>, p: nat, q: nat)
    requires Nondecreasing(records)
    requires p < |Merge(turns, records, 0, 0)| && q < |Merge(turns, records, 0, 0)|
    requires Merge(turns, records, 0, 0)[p].Compaction? && Merge(turns, records, 0, 0)[q].Turn?
    ensures Merge(turns, records, 0, 0)[p].index < |records|
    ensures p < q <==> records[Merge(turns, records, 0, 0)[p].index].turnIndex <= Merge(turns, records, 0, 0)[q].index
  {
    hide Merge, Nondecreasing;
    RecordBeforeTurnIff(turns, records, 0, 0, p, q);
    DueWhenRecorded(records, 0, Merge(turns, records, 0, 0)[p].index);
  }

  // ------------------------------------------------------------------------------------------
  // Where the records come from, and whether they show where things happened.

  datatype TaskEvent<Input> =
    | TurnCommitted(entries: seq<Entry<Input>>)
    | ContextCompacted(summary: string)
    | CompactCommand(summary: string)

  /** The turns and records of a task. `order` is the history as an onlooker would keep it: turns and records
      as they come, the turns struck out when the command clears them; `commanded` is the number of records
      up to the last such command. */
  datatype Task<Input> = Task(
    turns: seq<seq<Entry<Input>>>,
    records: seq<CompactionRecord>,
    order: seq<Item>,
    commanded: nat)
  {
    function Next(e: TaskEvent<Input>): Task<Input> {
      match e
      case TurnCommitted(entries) => this.(turns := turns + [entries], order := order + [Turn(|turns|)])
      case ContextCompacted(summary) =>
        this.(records := records + [CompactionRecord(|turns|, summary)], order := order + [Compaction(|records|)])
      case CompactCommand(summary) =>
        Task([], records + [CompactionRecord(|turns|, summary)], WithoutTurns(order) + [Compaction(|records|)],
             |records| + 1)
    }
  }

  function WithoutTurns(items: seq<Item>): seq<Item> {
    if items == [] then []
    else
      var front, last := WithoutTurns(items[..|items| - 1]), items[|items| - 1];
      if last.Turn? then front else front + [last]
  }

  function History<Input>(events: seq<TaskEvent<Input>>): Task<Input> {
    if events == [] then Task([], [], [], 0) else History(events[..|events| - 1]).Next(events[|events| - 1])
  }

  /** No turn has been committed since the last command, or none had been before it. */
  predicate InPlace<Input>(task: Task<Input>) {
    task.turns == [] || forall j :: 0 <= j < task.commanded && j < |task.records| ==> task.records[j].turnIndex == 0
  }

  function AllCompactions(n: nat): seq<Item> {
    seq(n, j requires 0 <= j => Compaction(j))
  }

  function Projected<Input>(task: Task<Input>): seq<Item> {
    Merge(|task.turns|, task.records, 0, 0)
  }

  /** What every history keeps. */
  ghost predicate Kept<Input>(task: Task<Input>) {
    && task.commanded <= |task.records| && task.commanded <= |task.order|
    && task.order[..task.commanded] == AllCompactions(task.commanded)
    && WithoutTurns(task.order) == AllCompactions(|task.records|)
    && (task.turns == [] ==> task.order == AllCompactions(|task.records|))
    && (task.turns != [] ==> exists q :: 0 <= q < |task.order| && task.order[q] == Turn(0))
    && (forall j :: task.commanded <= j < |task.records| ==> task.records[j].turnIndex <= |task.turns|)
    && (InPlace(task) ==> Projected(task) == task.order)
  }

  lemma {:induction false} MergeNoTurns(records: seq<CompactionRecord>, r: nat)
    requires r <= |records|
    ensures Merge(0, records, 0, r) == AllCompactions(|records|)[r..]
    decreases |records| - r
  {
    if r < |records| {
      MergeNoTurns(records, r + 1);
      assert AllCompactions(|records|)[r..] == [Compaction(r)] + AllCompactions(|records|)[r + 1..];
    }
  }

  /** One more turn, not before any record: it comes last. */
  lemma {:induction false} OneMoreTurn(turns: nat, records: seq<CompactionRecord>, t: nat, r: nat)
    requires t <= turns && r <= |records|
    requires forall j :: 0 <= j < |records| ==> records[j].turnIndex <= turns
    ensures Merge(turns + 1, records, t, r) == Merge(turns, records, t, r) + [Turn(turns)]
    decreases turns - t + |records| - r
  {
    if r < |records| && (t == turns || records[r].turnIndex <= t) {
      OneMoreTurn(turns, records, t, r + 1);
    } else if t < turns {
      OneMoreTurn(turns, records, t + 1, r);
    } else {
      assert Merge(turns + 1, records, t + 1, r) == [];
    }
  }

  /** One more record, due after every turn: it comes last. */
  lemma {:induction false} OneMoreRecord(turns: nat, records: seq<CompactionRecord>, summary: string, t: nat, r: nat)
    requires t <= turns && r <= |records|
    ensures Merge(turns, records + [CompactionRecord(turns, summary)], t, r) ==
            Merge(turns, records, t, r) + [Compaction(|records|)]
    decreases turns - t + |records| - r
  {
    var more := records + [CompactionRecord(turns, summary)];
    assert r < |records| ==> more[r] == records[r];
    if r < |records| && (t == turns || records[r].turnIndex <= t) {
      OneMoreRecord(turns, records, summary, t, r + 1);
    } else if t < turns {
      OneMoreRecord(turns, records, summary, t + 1, r);
    } else {
      assert Merge(turns, more, t, r + 1) == [];
    }
  }

  lemma WithoutTurnsSnoc(items: seq<Item>, item: Item)
    ensures WithoutTurns(items + [item]) == WithoutTurns(items) + if item.Turn? then [] else [item]
  {
    assert (items + [item])[..|items|] == items;
  }

  lemma AllCompactionsSnoc(n: nat)
    ensures AllCompactions(n + 1) == AllCompactions(n) + [Compaction(n)]
  {
  }

  lemma {:induction false} WithoutTurnsOfCompactions(n: nat)
    ensures WithoutTurns(AllCompactions(n)) == AllCompactions(n)
  {
    if n > 0 {
      WithoutTurnsOfCompactions(n - 1);
      AllCompactionsSnoc(n - 1);
      WithoutTurnsSnoc(AllCompactions(n - 1), Compaction(n - 1));
    }
  }

  lemma TurnKeeps<Input>(task: Task<Input>, entries: seq<Entry<Input>>)
    requires Kept(task)
    ensures Kept(task.Next(TurnCommitted(entries)))
  {
    hide Merge, WithoutTurns, AllCompactions;
    var next := task.Next(TurnCommitted(entries));
    WithoutTurnsSnoc(task.order, Turn(|task.turns|));
    assert next.order[..task.commanded] == task.order[..task.commanded];
    if task.turns == [] {
      assert next.order[|task.order|] == Turn(0);
    } else {
      var q :| 0 <= q < |task.order| && task.order[q] == Turn(0);
      assert next.order[q] == Turn(0);
    }
    if InPlace(next) {
      OneMoreTurn(|task.turns|, task.records, 0, 0);
    }
  }

  lemma RecordKeeps<Input>(task: Task<Input>, summary: string)
    requires Kept(task)
    ensures Kept(task.Next(ContextCompacted(summary)))
  {
    hide Merge, WithoutTurns, AllCompactions;
    var next := task.Next(ContextCompacted(summary));
    WithoutTurnsSnoc(task.order, Compaction(|task.records|));
    AllCompactionsSnoc(|task.records|);
    assert next.order[..task.commanded] == task.order[..task.commanded];
    if task.turns != [] {
      var q :| 0 <= q < |task.order| && task.order[q] == Turn(0);
      assert next.order[q] == Turn(0);
    }
    if InPlace(next) {
      assert forall j :: 0 <= j < |task.records| ==> next.records[j] == task.records[j];
      assert InPlace(task);
      OneMoreRecord(|task.turns|, task.records, summary, 0, 0);
    }
  }

  lemma CommandKeeps<Input>(task: Task<Input>, summary: string)
    requires Kept(task)
    ensures Kept(task.Next(CompactCommand(summary)))
  {
    hide Merge, WithoutTurns, AllCompactions, InPlace;
    var next := task.Next(CompactCommand(summary));
    var n := |next.records|;
    AllCompactionsSnoc(|task.records|);
    assert next.order == AllCompactions(n);
    WithoutTurnsOfCompactions(n);
    MergeNoTurns(next.records, 0);
    assert |AllCompactions(n)| == n by { CompactionsLength(n); }
    assert next.order[..n] == next.order && AllCompactions(n)[0..] == AllCompactions(n);
  }

  lemma CompactionsLength(n: nat)
    ensures |AllCompactions(n)| == n
  {
  }

  lemma {:induction false} HistoryKept<Input>(events: seq<TaskEvent<Input>>)
    ensures Kept(History(events))
    decreases |events|
  {
    hide Kept;
    if events == [] {
      NothingKept(History(events));
    } else {
      var task := History(events[..|events| - 1]);
      HistoryKept(events[..|events| - 1]);
      match events[|events| - 1] {
        case TurnCommitted(entries) => TurnKeeps(task, entries);
        case ContextCompacted(summary) => RecordKeeps(task, summary);
        case CompactCommand(summary) => CommandKeeps(task, summary);
      }
    }
  }

  lemma NothingKept<Input>(task: Task<Input>)
    requires task == Task([], [], [], 0)
    ensures Kept(task)
  {
  }

  /** The projection shows a history in the order in which it happened if and only if no turn has been
      committed since the last `/compact`, or none had been before it. */
  lemma InOrderIff<Input>(events: seq<TaskEvent<Input>>)
    ensures Projected(History(events)) == History(events).order <==> InPlace(History(events))
  {
    hide Merge, WithoutTurns, DueFrom;
    HistoryKept(events);
    var task := History(events);
    if !InPlace(task) {
      var j :| 0 <= j < task.commanded && task.records[j].turnIndex != 0;
      assert task.order[j] == task.order[..task.commanded][j] == Compaction(j);
      var q :| 0 <= q < |task.order| && task.order[q] == Turn(0);
      if Projected(task) == task.order {
        RecordBeforeTurnIff(|task.turns|, task.records, 0, 0, j, q);
        DueAtLeast(task.records, 0, j);
        BeforeTurns(task, j, q);
      }
    }
  }

  lemma {:induction false} DueAtLeast(records: seq<CompactionRecord>, r: nat, j: nat)
    requires r <= j < |records|
    ensures DueFrom(records, r, j) >= records[j].turnIndex
    decreases j - r
  {
    if r < j {
      DueAtLeast(records, r + 1, j);
    }
  }

  lemma BeforeTurns<Input>(task: Task<Input>, j: nat, q: nat)
    requires Kept(task) && j < task.commanded && q < |task.order| && task.order[q].Turn?
    ensures j < q
  {
    forall k | 0 <= k < task.commanded ensures task.order[k].Compaction? {
      assert task.order[k] == task.order[..task.commanded][k];
    }
  }

  /** Without that command the rows are those of the history, always. */
  lemma {:induction false} InPlaceWithoutCommand<Input>(style: Style<Input>, events: seq<TaskEvent<Input>>)
    requires forall i :: 0 <= i < |events| ==> !events[i].CompactCommand?
    ensures var task := History(events);
            Remaining(style, task.turns, task.records, 0, 0) == AllRows(style, task.turns, task.records, task.order)
  {
    hide AllRows, Merge;
    NeverCommanded(events);
    InOrderIff(events);
  }

  lemma {:induction false} NeverCommanded<Input>(events: seq<TaskEvent<Input>>)
    requires forall i :: 0 <= i < |events| ==> !events[i].CompactCommand?
    ensures History(events).commanded == 0
    decreases |events|
  {
    if events != [] {
      NeverCommanded(events[..|events| - 1]);
    }
  }

  /** What goes wrong: the turn committed after a `/compact` that cleared one is shown above its row. */
  lemma CompactedAfterNextTurn<Input>(first: seq<Entry<Input>>, second: seq<Entry<Input>>)
    ensures var task := History([TurnCommitted(first), CompactCommand("done"), TurnCommitted(second)]);
            task.order == [Compaction(0), Turn(0)] && Projected(task) == [Turn(0), Compaction(0)]
  {
    var events := [TurnCommitted(first), CompactCommand("done"), TurnCommitted(second)];
    var start: Task<Input> := Task([], [], [], 0);
    assert events[..2] == [events[0], events[1]] && events[..2][..1] == [events[0]] && [events[0]][..0] == [];
    assert History([events[0]]) == start.Next(events[0]);
    assert History(events[..2]) == start.Next(events[0]).Next(events[1]);
    WithoutTurnsSnoc([], Turn(0));
    assert [] + [Turn(0)] == [Turn(0)];
    var task := History(events);
    assert task == start.Next(events[0]).Next(events[1]).Next(events[2]);
    assert task.order == [Compaction(0), Turn(0)] && |task.turns| == 1;
    assert task.records == [CompactionRecord(1, "done")];
    assert Merge(1, task.records, 1, 1) == [];
    assert Merge(1, task.records, 1, 0) == [Compaction(0)];
  }
}
