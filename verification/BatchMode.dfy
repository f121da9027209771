/** Batch mode as an object; every handler refines the step of the state machine. */
module BatchMode {
  import opened ToolEvidence
  import opened Text
  import opened Wrappers
  import opened Envelopes
  import opened Normalizing
  import opened BatchRun
  import BatchRecords

  class BatchMode {
    const options: Options
    var status: Status
    var turnInProgress: bool
    var done: bool
    var currentTurn: nat
    /** The fields of the mode that are reset with every turn. */
    var current: Buffer
    var taskChangedFiles: set<string>
    var outputLines: seq<Line>
    /** The pulses handed to the runtime, and the answers sent to approval requests. */
    var pulses: seq<string>
    var answers: seq<bool>
    ghost var finished: seq<BatchRecords.Record>

    ghost function Abs(): Batch
      reads this
    {
      Batch(status, turnInProgress, done, currentTurn, taskChangedFiles, current, outputLines, pulses, answers,
            finished)
    }

    constructor (o: Options)
      ensures options == o && Abs() == NEW_BATCH
    {
      options := o;
      status, turnInProgress, done, currentTurn, current := Ready, false, false, 0, EMPTY;
      taskChangedFiles, outputLines, pulses, answers, finished := {}, [], [], [], [];
    }

    method ResetCurrentTurnState()
      modifies `current
      ensures current == EMPTY
    {
      current := current.(response := "", input := "", changedFiles := {});
      current := current.(textBlocks := {}, commands := [], pending := map[]);
    }

    method PushTurn(record: BatchRecords.Record)
      modifies `outputLines
      ensures outputLines == old(outputLines) + TurnLines(options.format, record)
    {
      match options.format {
        case Jsonl =>
          outputLines := outputLines + [TurnLine(record)];
        case PlainText =>
          ghost var lines := outputLines;
          if record.pulse > 1 {
            outputLines := outputLines + [TextLine("")];
          }
          outputLines := outputLines + [TextLine(record.response)];
          var said := [TextLine(record.response)];
          assert (lines + [TextLine("")]) + said == lines + ([TextLine("")] + said) && [] + said == said;
      }
    }

    method FinishTurn()
      modifies this
      ensures Abs() == old(Abs()).FinishTurn(options)
    {
      hide TurnLines;
      currentTurn := currentTurn + 1;
      var record := BatchRecords.Record(
        currentTurn, current.input, current.response, current.changedFiles, current.commands);
      current := current.(response := "", input := "", commands := []);
      taskChangedFiles := taskChangedFiles + record.changedFiles;
      finished := finished + [record];
      PushTurn(record);
      turnInProgress := false;
      current := current.(textBlocks := {}, pending := map[]);
    }

    method AppendSummary()
      modifies `outputLines
      ensures Abs() == old(Abs()).AppendSummary(options)
    {
      if options.format == Jsonl {
        outputLines := outputLines + [SummaryLine(status, currentTurn, taskChangedFiles)];
      }
    }

    method Conclude(end: Status)
      modifies this
      ensures Abs() == old(Abs()).Conclude(options, end)
    {
      if !done {
        status := end;
        AppendSummary();
        done := true;
      }
    }

    method WithoutModel(input: string, message: string, end: Status)
      modifies this
      ensures Abs() == old(Abs()).WithoutModel(options, input, message, end)
    {
      hide Batch.FinishTurn, Batch.Conclude;
      ResetCurrentTurnState();
      status := Running;
      turnInProgress := true;
      current := current.(input := input, response := message);
      FinishTurn();
      Conclude(end);
    }

    method TryHandleMemoryClear(input: string, clearing: Result<()>) returns (handled: bool)
      modifies this
      ensures handled <==> Trim(input) == CLEAR_COMMAND
      ensures Abs() == if handled then old(Abs()).ClearMemory(options, input, clearing) else old(Abs())
    {
      hide Batch.WithoutModel, Trim;
      if Trim(input) != CLEAR_COMMAND {
        return false;
      }
      if !options.autoApprove {
        WithoutModel(input, "[memory] /memory clear requires --auto-approve in batch mode", Failed);
        return true;
      }
      match clearing {
        case Ok(_) => WithoutModel(input, "[memory: cleared]", Completed);
        case Err(problem) => WithoutModel(input, "[memory] error clearing: " + problem, Failed);
      }
      return true;
    }

    method OnUserInput(input: string, clearing: Result<()>)
      modifies this
      ensures Abs() == old(Abs()).OnUserInput(options, input, clearing)
    {
      hide Batch.ClearMemory, Trim;
      if done {
        return;
      }
      if options.maxTurns.Some? && currentTurn >= options.maxTurns.value {
        status := MaxTurnsStatus;
        AppendSummary();
        done := true;
        turnInProgress := false;
        return;
      }
      var handled := TryHandleMemoryClear(input, clearing);
      if handled {
        return;
      }
      ResetCurrentTurnState();
      status := Running;
      turnInProgress := true;
      current := current.(input := input);
      pulses := pulses + [input];
    }

    method OnToolResult(callId: string, isError: bool)
      modifies `current
      ensures current == old(current).OnResult(callId, isError)
    {
      hide ChangedFiles, BatchRecords.CommandEvidence;
      if callId !in current.pending {
        return;
      }
      var call := current.pending[callId];
      current := current.(pending := current.pending - {callId});
      assert current.changedFiles + {} == current.changedFiles && current.commands + [] == current.commands;
      if !isError {
        var files := NoteChangedFiles(current.changedFiles, call.name, call.input);
        current := current.(changedFiles := files);
      }
      var evidence := BatchRecords.CommandEvidence(call.name, isError);
      if evidence.Some? {
        current := current.(commands := current.commands + [evidence.value]);
      }
    }

    method OnBlockStart(index: nat, block: StreamBlock)
      modifies `current
      ensures current == old(current).OnBlockStart(index, block)
    {
      hide Buffer.OnResult;
      match block {
        case Thinking(text) =>
          current := current.(textBlocks := current.textBlocks + {index});
          PushNonEmpty(text);
        case FinalText(content) =>
          current := current.(textBlocks := current.textBlocks + {index});
          PushNonEmpty(content);
        case ToolCall(id, name, input) =>
          current := current.(pending := current.pending[id := Call(name, input)]);
        case ToolResult(callId, _, isError) =>
          OnToolResult(callId, isError);
      }
    }

    method PushNonEmpty(content: string)
      modifies `current
      ensures current == old(current).(response := old(current).response + content)
    {
      assert current.response + "" == current.response;
      if content != "" {
        current := current.(response := current.response + content);
      }
    }

    method OnModelUpdate(update: Update)
      modifies this
      ensures Abs() == old(Abs()).OnUpdate(options, update)
    {
      hide Batch.FinishTurn, Batch.Conclude, Buffer.OnBlockStart;
      match update {
        case StreamDelta(delta) =>
          current := current.(response := current.response + delta);
        case PulseComplete =>
          FinishTurn();
          Conclude(Completed);
        case ErrorUpdate(message) =>
          current := current.(response := current.response + message);
          FinishTurn();
          Conclude(Failed);
        case StreamBlockStart(index, block, _) =>
          OnBlockStart(index, block);
        case StreamBlockDelta(index, delta, _) =>
          if index in current.textBlocks {
            current := current.(response := current.response + delta);
          }
        case StreamBlockComplete(index) =>
          current := current.(textBlocks := current.textBlocks - {index});
        case ToolApprovalUpdate(_) =>
          answers := answers + [options.autoApprove];
        case _ =>
      }
    }
  }

  /** A batch fed any events at all: what it has written by the end, and of which turns. */
  method RunBatch(o: Options, events: seq<Event>)
    returns (lines: seq<Line>, files: set<string>, done: bool, status: Status, pulses: seq<string>, answers: seq<bool>,
             ghost turns: seq<BatchRecords.Record>)
    ensures turns == Run(o, NEW_BATCH, events).finished && Numbered(turns)
    ensures Account(o.format, lines, turns, done, status) && |lines| == ExpectedLines(o, |turns|, done)
    ensures files == BatchRecords.FilesOf(turns)
    ensures done <==> status in {Completed, Failed, MaxTurnsStatus}
    ensures |turns| == CourseOf(o, events).turns && pulses == CourseOf(o, events).pulses
    ensures CourseOf(o, events).ended == if done then Some(status) else None
    ensures |answers| == ApprovalRequests(events) && forall i :: 0 <= i < |answers| ==> answers[i] == o.autoApprove
  {
    hide Batch.OnUserInput, Batch.OnUpdate, BatchRecords.FilesOf, Account, Numbered, CourseOf, ApprovalRequests;
    var mode := new BatchMode(o);
    for i := 0 to |events|
      invariant fresh(mode) && mode.options == o
      invariant mode.Abs() == Run(o, NEW_BATCH, events[..i])
    {
      assert events[..i + 1][..i] == events[..i];
      match events[i] {
        case Input(text, clearing) => mode.OnUserInput(text, clearing);
        case ModelUpdate(update) => mode.OnModelUpdate(update);
      }
    }
    assert events[..|events|] == events;
    LinesOverEveryRun(o, events);
    AccountLength(o, mode.Abs());
    EndingOverEveryRun(o, events);
    EveryRequestAnswered(o, events);
    return mode.outputLines, mode.taskChangedFiles, mode.done, mode.status, mode.pulses, mode.answers, mode.finished;
  }
}
