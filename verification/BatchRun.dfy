/** Batch mode as a state machine, and what holds over every run of it. */
module BatchRun {
  import opened ToolEvidence
  import opened Text
  import opened Wrappers
  import opened Envelopes
  import opened Normalizing
  import BatchRecords
  import opened Announced
  import HeardText

  datatype Format = Jsonl | PlainText

  datatype Status = Ready | Running | Completed | Failed | MaxTurnsStatus

  datatype Options = Options(maxTurns: Option<nat>, autoApprove: bool, format: Format)

  datatype Line =
    | TurnLine(record: BatchRecords.Record)
    | SummaryLine(status: Status, totalTurns: nat, changedFiles: set<string>)
    | TextLine(text: string)

  function TurnLines(format: Format, record: BatchRecords.Record): seq<Line> {
    match format
    case Jsonl => [TurnLine(record)]
    case PlainText => (if record.pulse > 1 then [TextLine("")] else []) + [TextLine(record.response)]
  }

  datatype Call = Call(name: string, input: Arguments)

  /** What is collected for the turn under way. */
  datatype Buffer = Buffer(
    response: string,
    input: string,
    changedFiles: set<string>,
    textBlocks: set<nat>,
    commands: seq<BatchRecords.Evidence>,
    pending: map<string, Call>)
  {
    function OnResult(callId: string, isError: bool): Buffer {
      if callId !in pending then this
      else
        var call := pending[callId];
        var evidence := BatchRecords.CommandEvidence(call.name, isError);
        this.(pending := pending - {callId},
              changedFiles := changedFiles + if isError then {} else ChangedFiles(call.name, call.input),
              commands := commands + if evidence.Some? then [evidence.value] else [])
    }

    function OnBlockStart(index: nat, block: StreamBlock): Buffer {
      match block
      case Thinking(text) => this.(textBlocks := textBlocks + {index}, response := response + text)
      case FinalText(content) => this.(textBlocks := textBlocks + {index}, response := response + content)
      case ToolCall(id, name, input) => this.(pending := pending[id := Call(name, input)])
      case ToolResult(id, _, isError) => OnResult(id, isError)
    }

    function OnBlockDelta(index: nat, delta: string): Buffer {
      if index in textBlocks then this.(response := response + delta) else this
    }
  }

  const EMPTY := Buffer("", "", {}, {}, [], map[])

  /** The clearing of the notes file fails with a message or succeeds; which is not up to the mode. */
  datatype Event = Input(text: string, clearing: Result<()>) | ModelUpdate(update: Update)

  const CLEAR_COMMAND := "/memory clear"

  /** `finished` is history: the records of the turns that have ended. */
  datatype Batch = Batch(
    status: Status,
    inProgress: bool,
    done: bool,
    turns: nat,
    taskFiles: set<string>,
    buffer: Buffer,
    lines: seq<Line>,
    pulses: seq<string>,
    answers: seq<bool>,
    finished: seq<BatchRecords.Record>)
  {
    function FinishTurn(o: Options): Batch {
      var record := BatchRecords.Record(turns + 1, buffer.input, buffer.response, buffer.changedFiles, buffer.commands);
      this.(turns := turns + 1, taskFiles := taskFiles + buffer.changedFiles, inProgress := false,
            lines := lines + TurnLines(o.format, record), finished := finished + [record],
            buffer := buffer.(response := "", input := "", commands := [], textBlocks := {}, pending := map[]))
    }

    function AppendSummary(o: Options): Batch {
      if o.format.Jsonl? then this.(lines := lines + [SummaryLine(status, turns, taskFiles)]) else this
    }

    /** The end of the task, unless it has ended. */
    function Conclude(o: Options, end: Status): Batch {
      if done then this else this.(status := end).AppendSummary(o).(done := true)
    }

    function Begin(input: string): Batch {
      this.(buffer := EMPTY.(input := input), status := Running, inProgress := true)
    }

    function WithoutModel(o: Options, input: string, message: string, end: Status): Batch {
      var begun := Begin(input);
      begun.(buffer := begun.buffer.(response := message)).FinishTurn(o).Conclude(o, end)
    }

    function ClearMemory(o: Options, input: string, clearing: Result<()>): Batch {
      if !o.autoApprove then
        WithoutModel(o, input, "[memory] /memory clear requires --auto-approve in batch mode", Failed)
      else if clearing.Ok? then WithoutModel(o, input, "[memory: cleared]", Completed)
      else WithoutModel(o, input, "[memory] error clearing: " + clearing.message, Failed)
    }

    predicate MaxReached(o: Options) {
      o.maxTurns.Some? && turns >= o.maxTurns.value
    }

    function OnUserInput(o: Options, input: string, clearing: Result<()>): Batch {
      if done then this
      else if MaxReached(o) then
        this.(status := MaxTurnsStatus).AppendSummary(o).(done := true, inProgress := false)
      else if Trim(input) == CLEAR_COMMAND then ClearMemory(o, input, clearing)
      else Begin(input).(pulses := pulses + [input])
    }

    function OnUpdate(o: Options, update: Update): Batch {
      match update
      case StreamDelta(delta) => this.(buffer := buffer.(response := buffer.response + delta))
      case PulseComplete => FinishTurn(o).Conclude(o, Completed)
      case ErrorUpdate(message) =>
        this.(buffer := buffer.(response := buffer.response + message)).FinishTurn(o).Conclude(o, Failed)
      case StreamBlockStart(index, block, _) => this.(buffer := buffer.OnBlockStart(index, block))
      case StreamBlockDelta(index, delta, _) => this.(buffer := buffer.OnBlockDelta(index, delta))
      case StreamBlockComplete(index) => this.(buffer := buffer.(textBlocks := buffer.textBlocks - {index}))
      case ToolApprovalUpdate(_) => this.(answers := answers + [o.autoApprove])
      case _ => this
    }

    function Next(o: Options, e: Event): Batch {
      match e
      case Input(text, clearing) => OnUserInput(o, text, clearing)
      case ModelUpdate(update) => OnUpdate(o, update)
    }
  }

  const NEW_BATCH := Batch(Ready, false, false, 0, {}, EMPTY, [], [], [], [])

  function Run(o: Options, b: Batch, events: seq<Event>): Batch {
    if events == [] then b else Run(o, b, events[..|events| - 1]).Next(o, events[|events| - 1])
  }

  // ------------------------------------------------------------------------------------------
  // Lines.

  /** The lines some turns are told in. */
  function Told(format: Format, records: seq<BatchRecords.Record>): seq<Line> {
    if records == [] then []
    else Told(format, records[..|records| - 1]) + TurnLines(format, records[|records| - 1])
  }

  lemma Snoc(format: Format, records: seq<BatchRecords.Record>, record: BatchRecords.Record)
    ensures Told(format, records + [record]) == Told(format, records) + TurnLines(format, record)
    ensures BatchRecords.FilesOf(records + [record]) == BatchRecords.FilesOf(records) + record.changedFiles
  {
    assert (records + [record])[..|records|] == records;
  }

  /** The account of a task in JSON lines that ended after `k` turns: a line for each turn, and between them
      the one summary, of the `k` turns it knows of. */
  function SummedUp(records: seq<BatchRecords.Record>, k: nat, status: Status): seq<Line>
    requires k <= |records|
  {
    Told(Jsonl, records[..k]) + [SummaryLine(status, k, BatchRecords.FilesOf(records[..k]))] + Told(Jsonl, records[k..])
  }

  /** What is written out, line for line, once these turns have ended. */
  ghost predicate Account(format: Format, lines: seq<Line>, records: seq<BatchRecords.Record>, done: bool, status: Status) {
    if format.Jsonl? && done then exists k :: 0 <= k <= |records| && lines == SummedUp(records, k, status)
    else lines == Told(format, records)
  }

  ghost predicate Numbered(records: seq<BatchRecords.Record>) {
    forall i :: 0 <= i < |records| ==> records[i].pulse == i + 1
  }

  ghost predicate LinesOk(o: Options, b: Batch) {
    && Account(o.format, b.lines, b.finished, b.done, b.status)
    && |b.finished| == b.turns && Numbered(b.finished)
    && b.taskFiles == BatchRecords.FilesOf(b.finished)
  }

  ghost predicate EndsOk(b: Batch) {
    b.done <==> b.status in {Completed, Failed, MaxTurnsStatus}
  }

  lemma {:induction false} OneLineEach(records: seq<BatchRecords.Record>)
    requires Numbered(records)
    ensures |Told(Jsonl, records)| == |records|
    ensures |Told(PlainText, records)| == if records == [] then 0 else 2 * |records| - 1
  {
    if records != [] {
      OneLineEach(records[..|records| - 1]);
    }
  }

  function ExpectedLines(o: Options, turns: nat, done: bool): nat {
    match o.format
    case Jsonl => turns + if done then 1 else 0
    case PlainText => if turns == 0 then 0 else 2 * turns - 1
  }

  lemma {:induction false} AccountLength(o: Options, b: Batch)
    requires LinesOk(o, b)
    ensures |b.lines| == ExpectedLines(o, b.turns, b.done)
  {
    hide Told, BatchRecords.FilesOf;
    OneLineEach(b.finished);
    if o.format.Jsonl? && b.done {
      var k :| 0 <= k <= |b.finished| && b.lines == SummedUp(b.finished, k, b.status);
      assert b.finished == b.finished[..k] + b.finished[k..];
      ToldConcat(Jsonl, b.finished[..k], b.finished[k..]);
    }
  }

  lemma {:induction false} ToldConcat(format: Format, x: seq<BatchRecords.Record>, y: seq<BatchRecords.Record>)
    ensures Told(format, x + y) == Told(format, x) + Told(format, y)
    decreases |y|
  {
    hide TurnLines, Told, BatchRecords.FilesOf;
    NothingTold(format);
    if y == [] {
      assert x + y == x;
    } else {
      var front, last := y[..|y| - 1], y[|y| - 1];
      assert y == front + [last] && x + y == (x + front) + [last];
      ToldConcat(format, x, front);
      Snoc(format, x + front, last);
      Snoc(format, front, last);
      Associates(Told(format, x), Told(format, front), TurnLines(format, last));
    }
  }

  /** A turn more, before or after the summary. */
  lemma AccountSnoc(
      format: Format, lines: seq<Line>, records: seq<BatchRecords.Record>, done: bool, status: Status,
      record: BatchRecords.Record)
    requires Account(format, lines, records, done, status)
    ensures Account(format, lines + TurnLines(format, record), records + [record], done, status)
  {
    hide Told, BatchRecords.FilesOf, TurnLines;
    Snoc(format, records, record);
    if format.Jsonl? && done {
      var k :| 0 <= k <= |records| && lines == SummedUp(records, k, status);
      var more := records + [record];
      Snoc(format, records[k..], record);
      assert more[..k] == records[..k] && more[k..] == records[k..] + [record];
      assert lines + TurnLines(format, record) == SummedUp(more, k, status);
    }
  }

  lemma FinishTurnLines(o: Options, b: Batch)
    requires LinesOk(o, b)
    ensures LinesOk(o, b.FinishTurn(o))
  {
    hide Account, TurnLines, Told, BatchRecords.FilesOf;
    var record := BatchRecords.Record(
      b.turns + 1, b.buffer.input, b.buffer.response, b.buffer.changedFiles, b.buffer.commands);
    Snoc(o.format, b.finished, record);
    AccountSnoc(o.format, b.lines, b.finished, b.done, b.status, record);
  }

  /** The summary is written behind the turns so far. */
  lemma SummaryLines(o: Options, b: Batch, end: Status)
    requires LinesOk(o, b) && !b.done
    ensures LinesOk(o, b.(status := end).AppendSummary(o).(done := true))
  {
    hide Told, BatchRecords.FilesOf;
    var n := |b.finished|;
    assert b.finished[..n] == b.finished && b.finished[n..] == [];
    assert Told(Jsonl, b.finished[n..]) == [] by { NothingTold(Jsonl); }
    var after := b.(status := end).AppendSummary(o).(done := true);
    assert o.format.Jsonl? ==> after.lines == SummedUp(b.finished, n, end);
  }

  lemma NothingTold(format: Format)
    ensures Told(format, []) == []
  {
  }

  lemma WithoutModelKeeps(o: Options, b: Batch, input: string, message: string, end: Status)
    requires LinesOk(o, b) && EndsOk(b) && !b.done && end in {Completed, Failed}
    ensures LinesOk(o, b.WithoutModel(o, input, message, end)) && EndsOk(b.WithoutModel(o, input, message, end))
  {
    hide Account, BatchRecords.FilesOf, Numbered;
    var begun := b.Begin(input);
    var c := begun.(buffer := begun.buffer.(response := message));
    RunningAccount(o, b);
    FinishTurnLines(o, c);
    SummaryLines(o, c.FinishTurn(o), end);
  }

  lemma RunningAccount(o: Options, b: Batch)
    requires !b.done && Account(o.format, b.lines, b.finished, b.done, b.status)
    ensures Account(o.format, b.lines, b.finished, b.done, Running)
  {
  }

  lemma InputKeeps(o: Options, b: Batch, input: string, clearing: Result<()>)
    requires LinesOk(o, b) && EndsOk(b)
    ensures LinesOk(o, b.OnUserInput(o, input, clearing)) && EndsOk(b.OnUserInput(o, input, clearing))
  {
    hide Batch.WithoutModel, Trim, BatchRecords.FilesOf, Account, Numbered;
    if !b.done && b.MaxReached(o) {
      SummaryLines(o, b, MaxTurnsStatus);
    } else if !b.done && Trim(input) == CLEAR_COMMAND {
      if !o.autoApprove {
        WithoutModelKeeps(o, b, input, "[memory] /memory clear requires --auto-approve in batch mode", Failed);
      } else if clearing.Ok? {
        WithoutModelKeeps(o, b, input, "[memory: cleared]", Completed);
      } else {
        WithoutModelKeeps(o, b, input, "[memory] error clearing: " + clearing.message, Failed);
      }
    } else if !b.done {
      RunningAccount(o, b);
    }
  }

  lemma EndKeeps(o: Options, b: Batch, end: Status)
    requires LinesOk(o, b) && EndsOk(b) && end in {Completed, Failed}
    ensures LinesOk(o, b.FinishTurn(o).Conclude(o, end)) && EndsOk(b.FinishTurn(o).Conclude(o, end))
  {
    hide LinesOk;
    FinishTurnLines(o, b);
    if !b.done {
      SummaryLines(o, b.FinishTurn(o), end);
    }
  }

  lemma UpdateKeeps(o: Options, b: Batch, update: Update)
    requires LinesOk(o, b) && EndsOk(b)
    ensures LinesOk(o, b.OnUpdate(o, update)) && EndsOk(b.OnUpdate(o, update))
  {
    hide Batch.FinishTurn, Batch.Conclude, Buffer.OnBlockStart, Buffer.OnBlockDelta, BatchRecords.FilesOf, Account, Numbered;
    match update {
      case PulseComplete => EndKeeps(o, b, Completed);
      case ErrorUpdate(message) =>
        EndKeeps(o, b.(buffer := b.buffer.(response := b.buffer.response + message)), Failed);
      case _ =>
    }
  }

  /** Over every run, the output is line for line the account of the turns that have ended, in either
      format: each told once, in order and numbered, and in JSON lines a single summary once the task has
      ended; and the files of the task are those of its turns. */
  lemma {:induction false} LinesOverEveryRun(o: Options, events: seq<Event>)
    ensures LinesOk(o, Run(o, NEW_BATCH, events)) && EndsOk(Run(o, NEW_BATCH, events))
    decreases |events|
  {
    hide LinesOk, EndsOk, Batch.OnUserInput, Batch.OnUpdate;
    if events == [] {
      NothingWritten(o);
    } else {
      LinesOverEveryRun(o, events[..|events| - 1]);
      var b := Run(o, NEW_BATCH, events[..|events| - 1]);
      match events[|events| - 1] {
        case Input(text, clearing) => InputKeeps(o, b, text, clearing);
        case ModelUpdate(update) => UpdateKeeps(o, b, update);
      }
    }
  }

  lemma NothingWritten(o: Options)
    ensures LinesOk(o, NEW_BATCH) && EndsOk(NEW_BATCH)
  {
  }

  // ------------------------------------------------------------------------------------------
  // Once done.

  /** Nothing but the lines of further turns is added. */
  ghost predicate Settled(o: Options, before: Batch, after: Batch) {
    && before.done && after.done && after.status == before.status && after.pulses == before.pulses
    && before.finished <= after.finished
    && after.lines == before.lines + Told(o.format, after.finished[|before.finished|..])
  }

  lemma SettledStep(o: Options, before: Batch, b: Batch, e: Event)
    requires Settled(o, before, b)
    ensures Settled(o, before, b.Next(o, e))
  {
    hide Buffer.OnBlockStart, Buffer.OnBlockDelta, Batch.ClearMemory, Trim, Told;
    if e.ModelUpdate? && (e.update.PulseComplete? || e.update.ErrorUpdate?) {
      var c := if e.update.PulseComplete? then b
               else b.(buffer := b.buffer.(response := b.buffer.response + e.update.message));
      FinishSettled(o, before, c);
    }
  }

  lemma FinishSettled(o: Options, before: Batch, b: Batch)
    requires Settled(o, before, b)
    ensures Settled(o, before, b.FinishTurn(o))
  {
    hide Told, TurnLines;
    var record := BatchRecords.Record(
      b.turns + 1, b.buffer.input, b.buffer.response, b.buffer.changedFiles, b.buffer.commands);
    var further, n := b.finished[|before.finished|..], |before.finished|;
    Snoc(o.format, further, record);
    assert (b.finished + [record])[n..] == further + [record];
    assert before.lines + Told(o.format, further) + TurnLines(o.format, record) ==
           before.lines + (Told(o.format, further) + TurnLines(o.format, record));
  }

  /** The status is frozen once the task has ended, no second summary is written, and no pulse is started. */
  lemma {:induction false} FrozenOnceDone(o: Options, b: Batch, events: seq<Event>)
    requires b.done
    ensures Settled(o, b, Run(o, b, events))
    decreases |events|
  {
    hide Batch.Next;
    if events == [] {
      assert b.lines + [] == b.lines;
    } else {
      var front := events[..|events| - 1];
      FrozenOnceDone(o, b, front);
      hide Settled;
      SettledStep(o, b, Run(o, b, front), events[|events| - 1]);
    }
  }

  // ------------------------------------------------------------------------------------------
  // Approvals and pulses.

  function ApprovalRequests(events: seq<Event>): nat {
    if events == [] then 0
    else
      var last := events[|events| - 1];
      ApprovalRequests(events[..|events| - 1]) + if last.ModelUpdate? && last.update.ToolApprovalUpdate? then 1 else 0
  }

  lemma WithoutModelOutside(o: Options, b: Batch, input: string, message: string, end: Status)
    ensures b.WithoutModel(o, input, message, end).pulses == b.pulses
    ensures b.WithoutModel(o, input, message, end).answers == b.answers
  {
    var begun := b.Begin(input);
    var finished := begun.(buffer := begun.buffer.(response := message)).FinishTurn(o);
    assert finished.pulses == b.pulses && finished.answers == b.answers;
    hide Batch.FinishTurn;
    assert finished.Conclude(o, end).pulses == b.pulses && finished.Conclude(o, end).answers == b.answers;
  }

  lemma ClearMemoryOutside(o: Options, b: Batch, input: string, clearing: Result<()>)
    ensures b.ClearMemory(o, input, clearing).pulses == b.pulses
    ensures b.ClearMemory(o, input, clearing).answers == b.answers
  {
    hide Batch.WithoutModel;
    if !o.autoApprove {
      WithoutModelOutside(o, b, input, "[memory] /memory clear requires --auto-approve in batch mode", Failed);
    } else if clearing.Ok? {
      WithoutModelOutside(o, b, input, "[memory: cleared]", Completed);
    } else {
      WithoutModelOutside(o, b, input, "[memory] error clearing: " + clearing.message, Failed);
    }
  }

  lemma InputAnswersNothing(o: Options, b: Batch, input: string, clearing: Result<()>)
    ensures b.OnUserInput(o, input, clearing).answers == b.answers
  {
    hide Trim, Batch.ClearMemory;
    ClearMemoryOutside(o, b, input, clearing);
  }

  /** Every approval request is answered, once and at once, with the same answer over the whole run. */
  lemma {:induction false} EveryRequestAnswered(o: Options, events: seq<Event>)
    ensures |Run(o, NEW_BATCH, events).answers| == ApprovalRequests(events)
    ensures forall i :: 0 <= i < |Run(o, NEW_BATCH, events).answers| ==>
              Run(o, NEW_BATCH, events).answers[i] == o.autoApprove
    decreases |events|
  {
    hide Batch.OnUserInput, Buffer.OnBlockStart, Buffer.OnBlockDelta;
    if events != [] {
      var front := events[..|events| - 1];
      EveryRequestAnswered(o, front);
      if events[|events| - 1].Input? {
        InputAnswersNothing(o, Run(o, NEW_BATCH, front), events[|events| - 1].text, events[|events| - 1].clearing);
      }
    }
  }

  // ------------------------------------------------------------------------------------------
  // Which files a turn is said to have changed.

  function Updates(o: Options, b: Batch, updates: seq<Update>): Batch {
    if updates == [] then b
    else Updates(o, b, updates[..|updates| - 1]).OnUpdate(o, updates[|updates| - 1])
  }

  /** Nothing after `i` and before `n` answers or replaces the call of that id, or ends the turn. */
  ghost predicate StillPending(updates: seq<Update>, id: string, i: nat, n: nat)
    requires i < n <= |updates|
  {
    && CallsTool(updates[i], id)
    && forall k :: i < k < n ==>
         !CallsTool(updates[k], id) && !ResultOf(updates[k], id) && !EndsTurn(updates[k])
  }

  /** The call at `i` gets a good result at `j`, within the turn and before any other call of the same id. */
  ghost predicate Succeeds(updates: seq<Update>, i: nat, j: nat)
    requires i < j < |updates|
  {
    && updates[i].StreamBlockStart? && updates[i].block.ToolCall?
    && StillPending(updates, updates[i].block.id, i, j)
    && ResultOf(updates[j], updates[i].block.id) && !updates[j].block.isError
  }

  /** The open calls after `n` updates are exactly those still pending. */
  ghost predicate PendingExact(pending: map<string, Call>, updates: seq<Update>, n: nat)
    requires n <= |updates|
  {
    && (forall i :: 0 <= i < n ==> HeldIfPending(pending, updates, i, n))
    && (forall id :: id in pending ==> HasPending(updates, id, n))
  }

  ghost predicate HeldIfPending(pending: map<string, Call>, updates: seq<Update>, i: nat, n: nat)
    requires i < n <= |updates|
  {
    updates[i].StreamBlockStart? && updates[i].block.ToolCall? && StillPending(updates, updates[i].block.id, i, n) ==>
      Holds(pending, updates[i].block)
  }

  predicate Holds(pending: map<string, Call>, block: StreamBlock)
    requires block.ToolCall?
  {
    block.id in pending && pending[block.id] == Call(block.name, block.input)
  }

  ghost predicate HasPending(updates: seq<Update>, id: string, n: nat)
    requires n <= |updates|
  {
    exists i :: 0 <= i < n && StillPending(updates, id, i, n)
  }

  ghost predicate FileFrom(updates: seq<Update>, path: string, i: nat, j: nat)
    requires i < j < |updates|
  {
    Succeeds(updates, i, j) && path in ChangedFiles(updates[i].block.name, updates[i].block.input)
  }

  /** A file is named exactly when some call that would change it succeeded among the first `n` updates. */
  ghost predicate FilesExact(files: set<string>, updates: seq<Update>, n: nat)
    requires n <= |updates|
  {
    forall path :: path in files <==> exists i, j :: 0 <= i < j < n && FileFrom(updates, path, i, j)
  }

  lemma StillPendingStep(updates: seq<Update>, id: string, i: nat, n: nat)
    requires i < n < |updates|
    ensures StillPending(updates, id, i, n + 1) <==>
            StillPending(updates, id, i, n) &&
            !CallsTool(updates[n], id) && !ResultOf(updates[n], id) && !EndsTurn(updates[n])
  {
  }

  function PendingAfter(pending: map<string, Call>, u: Update): map<string, Call> {
    if EndsTurn(u) then map[]
    else if u.StreamBlockStart? && u.block.ToolCall? then pending[u.block.id := Call(u.block.name, u.block.input)]
    else if u.StreamBlockStart? && u.block.ToolResult? then pending - {u.block.toolCallId}
    else pending
  }

  function FilesAfter(files: set<string>, pending: map<string, Call>, u: Update): set<string> {
    if u.StreamBlockStart? && u.block.ToolResult? && !u.block.isError && u.block.toolCallId in pending
    then files + ChangedFiles(pending[u.block.toolCallId].name, pending[u.block.toolCallId].input)
    else files
  }

  lemma UpdateBuffer(o: Options, b: Batch, u: Update)
    ensures b.OnUpdate(o, u).buffer.pending == PendingAfter(b.buffer.pending, u)
    ensures b.OnUpdate(o, u).buffer.changedFiles == FilesAfter(b.buffer.changedFiles, b.buffer.pending, u)
  {
    hide ChangedFiles, BatchRecords.CommandEvidence;
  }

  lemma PendingStep(pending: map<string, Call>, updates: seq<Update>, n: nat)
    requires n < |updates| && PendingExact(pending, updates, n)
    ensures PendingExact(PendingAfter(pending, updates[n]), updates, n + 1)
  {
    hide StillPending;
    var u, after, m := updates[n], PendingAfter(pending, updates[n]), n + 1;
    forall i | 0 <= i < m ensures HeldIfPending(after, updates, i, m) {
      if updates[i].StreamBlockStart? && updates[i].block.ToolCall? {
        if i < n {
          assert HeldIfPending(pending, updates, i, n);
          StillPendingStep(updates, updates[i].block.id, i, n);
        } else {
          NotEnding(u);
        }
      }
    }
    forall id | id in after ensures HasPending(updates, id, n + 1) {
      if CallsTool(u, id) {
        JustCalled(updates, id, n);
      } else {
        assert id in pending && HasPending(updates, id, n);
        var i :| 0 <= i < n && StillPending(updates, id, i, n);
        StillPendingStep(updates, id, i, n);
      }
    }
  }

  lemma NotEnding(u: Update)
    ensures u.StreamBlockStart? ==> !EndsTurn(u)
  {
  }

  lemma JustCalled(updates: seq<Update>, id: string, n: nat)
    requires n < |updates| && CallsTool(updates[n], id)
    ensures StillPending(updates, id, n, n + 1)
  {
  }

  lemma FilesStep(files: set<string>, pending: map<string, Call>, updates: seq<Update>, n: nat)
    requires n < |updates| && PendingExact(pending, updates, n) && FilesExact(files, updates, n)
    ensures FilesExact(FilesAfter(files, pending, updates[n]), updates, n + 1)
  {
    hide StillPending, ChangedFiles;
    var u, after := updates[n], FilesAfter(files, pending, updates[n]);
    forall path
      ensures path in after <==> exists i, j :: 0 <= i < j < n + 1 && FileFrom(updates, path, i, j)
    {
      if i, j :| 0 <= i < j < n + 1 && FileFrom(updates, path, i, j) {
        assert j == n ==> HeldIfPending(pending, updates, i, n);
        assert path in after;
      }
      if path in files {
        var i, j :| 0 <= i < j < n && FileFrom(updates, path, i, j);
      } else if path in after {
        assert HasPending(updates, u.block.toolCallId, n);
        var i :| 0 <= i < n && StillPending(updates, u.block.toolCallId, i, n);
        PendingIsCall(updates, u.block.toolCallId, i, n);
        assert HeldIfPending(pending, updates, i, n);
        assert FileFrom(updates, path, i, n);
      }
    }
  }

  lemma PendingIsCall(updates: seq<Update>, id: string, i: nat, n: nat)
    requires i < n <= |updates| && StillPending(updates, id, i, n)
    ensures updates[i].StreamBlockStart? && updates[i].block.ToolCall? && updates[i].block.id == id
  {
  }

  lemma {:induction false} FilesOverUpdates(o: Options, b: Batch, updates: seq<Update>, n: nat)
    requires b.buffer.pending == map[] && b.buffer.changedFiles == {} && n <= |updates|
    ensures PendingExact(Updates(o, b, updates[..n]).buffer.pending, updates, n)
    ensures FilesExact(Updates(o, b, updates[..n]).buffer.changedFiles, updates, n)
  {
    hide PendingExact, FilesExact, Batch.OnUpdate, PendingAfter, FilesAfter;
    if n == 0 {
      NothingPending(updates);
    } else {
      FilesOverUpdates(o, b, updates, n - 1);
      var c := Updates(o, b, updates[..n - 1]);
      assert updates[..n][..n - 1] == updates[..n - 1];
      UpdateBuffer(o, c, updates[n - 1]);
      PendingStep(c.buffer.pending, updates, n - 1);
      FilesStep(c.buffer.changedFiles, c.buffer.pending, updates, n - 1);
    }
  }

  lemma NothingPending(updates: seq<Update>)
    ensures PendingExact(map[], updates, 0) && FilesExact({}, updates, 0)
  {
  }

  /** After an input that starts a pulse, a file counts as changed exactly when a call that would change it was
      made and got a good result, with no other call or result of its id and no end of turn in between. */
  lemma {:induction false} AttributedIff(
      o: Options, b: Batch, input: string, clearing: Result<()>, updates: seq<Update>, path: string)
    requires b.OnUserInput(o, input, clearing).pulses != b.pulses
    ensures path in Updates(o, b.OnUserInput(o, input, clearing), updates).buffer.changedFiles <==>
            exists i, j :: 0 <= i < j < |updates| && FileFrom(updates, path, i, j)
  {
    hide FileFrom, Updates, Trim, Batch.WithoutModel, PendingExact;
    var started := b.OnUserInput(o, input, clearing);
    PulsesOnlyByStart(o, b, input, clearing);
    assert updates[..|updates|] == updates;
    FilesOverUpdates(o, started, updates, |updates|);
  }

  lemma PulsesOnlyByStart(o: Options, b: Batch, input: string, clearing: Result<()>)
    requires b.OnUserInput(o, input, clearing).pulses != b.pulses
    ensures b.OnUserInput(o, input, clearing).buffer == EMPTY.(input := input)
    ensures b.OnUserInput(o, input, clearing).pulses == b.pulses + [input]
  {
    hide Trim, Batch.ClearMemory;
    ClearMemoryOutside(o, b, input, clearing);
  }

  lemma {:induction false} InputUntilEnd(o: Options, b: Batch, updates: seq<Update>)
    ensures Updates(o, b, updates).buffer.input ==
            if exists k :: 0 <= k < |updates| && EndsTurn(updates[k]) then "" else b.buffer.input
  {
    hide Buffer.OnBlockStart, Buffer.OnBlockDelta, TurnLines;
    if updates != [] {
      var front, last := updates[..|updates| - 1], updates[|updates| - 1];
      InputUntilEnd(o, b, front);
      BlockKeepsInput(Updates(o, b, front).buffer, last);
      assert forall k :: 0 <= k < |updates| ==> updates[k] == if k < |front| then front[k] else last;
      if EndsTurn(last) {
        assert EndsTurn(updates[|front|]);
      } else if k :| 0 <= k < |front| && EndsTurn(front[k]) {
        assert EndsTurn(updates[k]);
      }
    }
  }

  lemma BlockKeepsInput(buffer: Buffer, u: Update)
    ensures u.StreamBlockStart? ==> buffer.OnBlockStart(u.index, u.block).input == buffer.input
    ensures u.StreamBlockDelta? ==> buffer.OnBlockDelta(u.index, u.delta).input == buffer.input
  {
  }

  // ------------------------------------------------------------------------------------------
  // Which commands a turn is said to have run.

  /** The open calls, told by the updates. */
  ghost predicate OpenCalls(pending: map<string, Call>, updates: seq<Update>) {
    forall id ::
      var call := OpenCall(updates, id);
      && (id in pending <==> call.Some?)
      && (call.Some? ==> pending[id] == Call(updates[call.value].block.name, updates[call.value].block.input))
  }

  lemma OpenCallsStep(pending: map<string, Call>, updates: seq<Update>, u: Update)
    requires OpenCalls(pending, updates)
    ensures OpenCalls(PendingAfter(pending, u), updates + [u])
  {
    hide OpenCall;
    forall id { OpenCallMore(updates, u, id); }
  }

  lemma CommandsAfter(o: Options, b: Batch, updates: seq<Update>, u: Update)
    requires OpenCalls(b.buffer.pending, updates) && b.buffer.commands == HeardText.Commands(updates)
    ensures b.OnUpdate(o, u).buffer.commands == HeardText.Commands(updates + [u])
  {
    hide OpenCall, ChangedFiles, BatchRecords.CommandEvidence, TurnLines;
    OneMore(updates, u);
  }

  lemma {:induction false} CommandsCollected(o: Options, b: Batch, updates: seq<Update>)
    requires b.buffer.pending == map[] && b.buffer.commands == []
    ensures Updates(o, b, updates).buffer.commands == HeardText.Commands(updates)
    ensures OpenCalls(Updates(o, b, updates).buffer.pending, updates)
    decreases |updates|
  {
    hide Batch.OnUpdate, OpenCalls, HeardText.Commands, PendingAfter;
    if updates == [] {
      NothingOpen();
    } else {
      var front, last := updates[..|updates| - 1], updates[|updates| - 1];
      assert updates == front + [last];
      var c := Updates(o, b, front);
      CommandsCollected(o, b, front);
      UpdateBuffer(o, c, last);
      OpenCallsStep(c.buffer.pending, front, last);
      CommandsAfter(o, c, front, last);
    }
  }

  lemma NothingOpen()
    ensures OpenCalls(map[], []) && HeardText.Commands([]) == []
  {
  }

  /** Either terminal update records the turn, in either format: under the input, if this is the first
      terminal since, with the files of the calls that succeeded since the input, which the task gains, and the
      commands answered in the turn, failed where their result was an error. */
  lemma {:induction false} RecordedIff(
      o: Options, b: Batch, input: string, clearing: Result<()>, updates: seq<Update>, end: Update, path: string)
    requires b.OnUserInput(o, input, clearing).pulses != b.pulses && EndsTurn(end)
    ensures var before := Updates(o, b.OnUserInput(o, input, clearing), updates);
            var after := before.OnUpdate(o, end);
            && |after.finished| == |before.finished| + 1 && before.finished <= after.finished
            && var record := after.finished[|before.finished|];
               && record.pulse == before.turns + 1 && after.turns == before.turns + 1
               && record.response == before.buffer.response + (if end.ErrorUpdate? then end.message else "")
               && record.commands == HeardText.Commands(updates)
               && record.input == (if exists k :: 0 <= k < |updates| && EndsTurn(updates[k]) then "" else input)
               && (path in record.changedFiles <==> exists i, j :: 0 <= i < j < |updates| && FileFrom(updates, path, i, j))
               && (path in after.taskFiles <==> path in before.taskFiles || path in record.changedFiles)
  {
    hide FileFrom, Updates, Batch.OnUserInput, TurnLines, FilesExact, HeardText.Commands, OpenCalls;
    var started := b.OnUserInput(o, input, clearing);
    PulsesOnlyByStart(o, b, input, clearing);
    AttributedIff(o, b, input, clearing, updates, path);
    InputUntilEnd(o, started, updates);
    CommandsCollected(o, started, updates);
    assert Updates(o, started, updates).buffer.response + "" == Updates(o, started, updates).buffer.response;
  }

  // ------------------------------------------------------------------------------------------
  // How a task ends.

  /** What a task comes to: how many turns it had, how it ended if it has, and what the model was given. */
  datatype Course = Course(turns: nat, ended: Option<Status>, pulses: seq<string>)

  function Ended(c: Course, status: Status): Course {
    c.(turns := c.turns + 1, ended := if c.ended.Some? then c.ended else Some(status))
  }

  /** Each terminal update ends a turn, and the first of them the task; an input over the limit ends it without
      a turn, and clearing the notes is a turn that ends it. */
  function CourseOf(o: Options, events: seq<Event>): Course {
    if events == [] then Course(0, None, [])
    else
      var c := CourseOf(o, events[..|events| - 1]);
      match events[|events| - 1]
      case ModelUpdate(PulseComplete) => Ended(c, Completed)
      case ModelUpdate(ErrorUpdate(_)) => Ended(c, Failed)
      case ModelUpdate(_) => c
      case Input(text, clearing) =>
        if c.ended.Some? then c
        else if o.maxTurns.Some? && c.turns >= o.maxTurns.value then c.(ended := Some(MaxTurnsStatus))
        else if Trim(text) == CLEAR_COMMAND then Ended(c, if o.autoApprove && clearing.Ok? then Completed else Failed)
        else c.(pulses := c.pulses + [text])
  }

  predicate SomeInput(events: seq<Event>) {
    exists i :: 0 <= i < |events| && events[i].Input?
  }

  ghost predicate ToldBy(o: Options, b: Batch, events: seq<Event>) {
    var c := CourseOf(o, events);
    && b.turns == c.turns && b.pulses == c.pulses && (b.done <==> c.ended.Some?)
    && b.status == if c.ended.Some? then c.ended.value else if SomeInput(events) then Running else Ready
  }

  lemma WithoutModelDoes(o: Options, b: Batch, input: string, message: string, end: Status)
    requires !b.done
    ensures var t := b.WithoutModel(o, input, message, end);
            && t.done && t.turns == b.turns + 1 && t.status == end && t.pulses == b.pulses
            && t.finished == b.finished + [BatchRecords.Record(b.turns + 1, input, message, {}, [])]
  {
    hide TurnLines;
    var begun := b.Begin(input);
    var c := begun.(buffer := begun.buffer.(response := message)).FinishTurn(o);
    assert c.turns == b.turns + 1 && !c.done && c.pulses == b.pulses;
    assert c.finished == b.finished + [BatchRecords.Record(b.turns + 1, input, message, {}, [])];
    hide Batch.FinishTurn;
  }

  /** What is answered in place of the model. */
  function ClearAnswer(o: Options, clearing: Result<()>): string {
    if !o.autoApprove then "[memory] /memory clear requires --auto-approve in batch mode"
    else if clearing.Ok? then "[memory: cleared]"
    else "[memory] error clearing: " + clearing.message
  }

  /** An input is ignored once the task has ended, ends it at the limit, is answered in place of the model if it
      clears the notes, and otherwise begins a turn of the model. */
  lemma InputDoes(o: Options, b: Batch, input: string, clearing: Result<()>)
    ensures var t := b.OnUserInput(o, input, clearing);
            if b.done then t == b
            else if o.maxTurns.Some? && b.turns >= o.maxTurns.value then
              t.done && t.turns == b.turns && t.status == MaxTurnsStatus && t.pulses == b.pulses && t.finished == b.finished
            else if Trim(input) == CLEAR_COMMAND then
              && t.done && t.turns == b.turns + 1 && t.pulses == b.pulses
              && t.finished == b.finished + [BatchRecords.Record(b.turns + 1, input, ClearAnswer(o, clearing), {}, [])]
              && t.status == if o.autoApprove && clearing.Ok? then Completed else Failed
            else
              && !t.done && t.turns == b.turns && t.status == Running && t.pulses == b.pulses + [input]
              && t.finished == b.finished && t.buffer == EMPTY.(input := input)
  {
    hide Batch.WithoutModel, Trim;
    if !b.done && !b.MaxReached(o) && Trim(input) == CLEAR_COMMAND {
      if !o.autoApprove {
        WithoutModelDoes(o, b, input, "[memory] /memory clear requires --auto-approve in batch mode", Failed);
      } else if clearing.Ok? {
        WithoutModelDoes(o, b, input, "[memory: cleared]", Completed);
      } else {
        WithoutModelDoes(o, b, input, "[memory] error clearing: " + clearing.message, Failed);
      }
    }
  }

  lemma UpdateDoes(o: Options, b: Batch, u: Update)
    ensures var t := b.OnUpdate(o, u);
            && t.pulses == b.pulses && t.turns == b.turns + (if EndsTurn(u) then 1 else 0)
            && t.done == (b.done || EndsTurn(u))
            && t.status == if b.done || !EndsTurn(u) then b.status else if u.PulseComplete? then Completed else Failed
  {
    hide TurnLines, Buffer.OnBlockStart, Buffer.OnBlockDelta;
  }

  lemma ToldStep(o: Options, b: Batch, events: seq<Event>, e: Event)
    requires ToldBy(o, b, events)
    ensures ToldBy(o, b.Next(o, e), events + [e])
  {
    hide Batch.OnUserInput, Batch.OnUpdate, Trim, SomeInput;
    var all := events + [e];
    assert all[..|events|] == events && all[|events|] == e;
    InputMore(events, e);
    match e {
      case Input(text, clearing) => InputDoes(o, b, text, clearing);
      case ModelUpdate(update) => UpdateDoes(o, b, update);
    }
  }

  lemma InputMore(events: seq<Event>, e: Event)
    ensures SomeInput(events + [e]) <==> SomeInput(events) || e.Input?
  {
    var all := events + [e];
    assert forall i :: 0 <= i < |events| ==> all[i] == events[i];
    assert all[|events|] == e;
  }

  /** Over every run: the task ends with the first terminal update, completed or failed as that is, or with the
      first input over the limit or clearing the notes; and the model is given exactly the other inputs up to
      then. */
  lemma {:induction false} EndingOverEveryRun(o: Options, events: seq<Event>)
    ensures ToldBy(o, Run(o, NEW_BATCH, events), events)
    decreases |events|
  {
    hide ToldBy, Batch.Next;
    if events == [] {
      NothingTold(o.format);
      ToldAtFirst(o);
    } else {
      var front := events[..|events| - 1];
      EndingOverEveryRun(o, front);
      ToldStep(o, Run(o, NEW_BATCH, front), front, events[|events| - 1]);
      assert front + [events[|events| - 1]] == events;
    }
  }

  lemma ToldAtFirst(o: Options)
    ensures ToldBy(o, NEW_BATCH, [])
  {
  }
}
