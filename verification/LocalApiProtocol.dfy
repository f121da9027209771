/** The local API task as a state machine: a pulse ends once its turn is complete and its last command
    session is over, and the emitted envelopes form one well-formed stream. */
module LocalApiProtocol {
  import opened Wrappers
  import opened Envelopes
  import opened Normalizing

  type SessionId = nat

  datatype Event =
    | UserInput(input: string)
    | Interrupt
    | ModelUpdate(update: Update)
    | TurnComplete
    | TurnError(message: string)
    | SessionStarted(session: SessionId)
    | SessionFinished(session: SessionId)
    | Decide(request: Request)

  datatype Shared = Shared(
    norm: Norm,
    log: seq<Envelope>,
    turnInProgress: bool,
    interrupted: bool,
    sessions: set<SessionId>,
    completionPending: bool,
    quit: bool)
  {
    function Emit(out: (Norm, seq<Envelope>)): Shared {
      this.(norm := out.0, log := log + out.1)
    }

    /** `complete_turn_if_idle`. */
    function CompleteTurnIfIdle(): Shared {
      if !completionPending || sessions != {} then this
      else
        Emit(norm.FinishTurn(if interrupted then "cancelled" else "completed", {}))
        .(completionPending := false, turnInProgress := false, quit := true)
    }

    function OnUserInput(input: string): Shared {
      var (n, start) := norm.StartPulse(1, Some(input));
      Shared(n, log + [start], true, false, {}, false, false)
    }

    function OnError(message: string): Shared {
      Emit(norm.EmitError("runtime_error", message, false, {}))
      .(sessions := {}, completionPending := false, turnInProgress := false, quit := true)
    }

    /** A tool approval is announced as it is, without closing the text block; metadata is not forwarded. */
    function OnUpdate(update: Update): Shared {
      match update
      case ToolApprovalUpdate(capability) => Emit((norm.Advance(), [norm.Plain(ApprovalRequest(capability))]))
      case LineUpdate(_) => Emit(norm.Normalize(update, {}))
      case StreamDelta(_) => Emit(norm.Normalize(update, {}))
      case StreamBlockStart(_, _, _) => Emit(norm.Normalize(update, {}))
      case StreamBlockDelta(_, _, _) => Emit(norm.Normalize(update, {}))
      case StreamBlockComplete(_) => Emit(norm.Normalize(update, {}))
      case _ => this
    }

    function Next(e: Event): Shared {
      match e
      case UserInput(input) => OnUserInput(input)
      case Interrupt => if turnInProgress then this.(interrupted := true) else this
      case ModelUpdate(update) => OnUpdate(update)
      case TurnComplete => this.(completionPending := true).CompleteTurnIfIdle()
      case TurnError(message) => OnError(message)
      case SessionStarted(session) => this.(sessions := sessions + {session})
      case SessionFinished(session) => this.(sessions := sessions - {session}).CompleteTurnIfIdle()
      case Decide(request) => Emit(norm.NormalizeRequest(request))
    }
  }

  const NEW_TASK := Shared(NEW_NORMALIZER, [], false, false, {}, false, false)

  function Run(s: Shared, events: seq<Event>): Shared {
    if events == [] then s else Run(s, events[..|events| - 1]).Next(events[|events| - 1])
  }

  // ------------------------------------------------------------------------------------------
  // Facts about every run, whatever the producer does.

  /** A completion waits only while a session is alive; once started, the task quits exactly when no
      turn is in progress. */
  ghost predicate FlagsOk(s: Shared) {
    && (s.completionPending ==> s.sessions != {})
    && (s.quit ==> !s.turnInProgress)
  }

  lemma FlagsStep(s: Shared, e: Event)
    requires FlagsOk(s)
    ensures FlagsOk(s.Next(e))
    ensures (s.turnInProgress <==> !s.quit) || e.UserInput? ==> (s.Next(e).turnInProgress <==> !s.Next(e).quit)
  {
    hide Norm.FinishTurn, Norm.EmitError, Norm.Normalize, Norm.StartPulse, Norm.NormalizeRequest;
  }

  lemma {:induction false} FlagsOverEveryRun(events: seq<Event>)
    ensures FlagsOk(Run(NEW_TASK, events))
    ensures (exists i :: 0 <= i < |events| && events[i].UserInput?) ==>
              (Run(NEW_TASK, events).turnInProgress <==> !Run(NEW_TASK, events).quit)
    decreases |events|
  {
    if events != [] {
      var before, last := events[..|events| - 1], events[|events| - 1];
      FlagsOverEveryRun(before);
      FlagsStep(Run(NEW_TASK, before), last);
      hide Shared.Next, FlagsOk;
      assert forall i :: 0 <= i < |before| ==> before[i] == events[i];
    }
  }

  /** The sessions that were started and have not finished since the pulse began or failed. */
  function LiveSessions(events: seq<Event>): set<SessionId> {
    if events == [] then {}
    else
      var live := LiveSessions(events[..|events| - 1]);
      match events[|events| - 1]
      case UserInput(_) => {}
      case TurnError(_) => {}
      case SessionStarted(session) => live + {session}
      case SessionFinished(session) => live - {session}
      case _ => live
  }

  lemma SessionsStep(s: Shared, e: Event)
    ensures s.Next(e).sessions ==
            match e
            case UserInput(_) => {}
            case TurnError(_) => {}
            case SessionStarted(session) => s.sessions + {session}
            case SessionFinished(session) => s.sessions - {session}
            case _ => s.sessions
  {
    hide Norm.FinishTurn, Norm.EmitError, Norm.Normalize, Norm.StartPulse, Norm.NormalizeRequest;
  }

  lemma {:induction false} SessionsAreLive(events: seq<Event>)
    ensures Run(NEW_TASK, events).sessions == LiveSessions(events)
    decreases |events|
  {
    hide Shared.Next;
    if events != [] {
      SessionsAreLive(events[..|events| - 1]);
      SessionsStep(Run(NEW_TASK, events[..|events| - 1]), events[|events| - 1]);
    }
  }

  // ------------------------------------------------------------------------------------------
  // When a pulse ends, and how.

  /** The status of the end that an event brings, if it brings one. */
  function EndStatus(s: Shared, e: Event): Option<string> {
    match e
    case TurnError(_) => Some("failed")
    case TurnComplete =>
      if s.sessions == {} then Some(if s.interrupted then "cancelled" else "completed") else None
    case SessionFinished(session) =>
      if s.completionPending && s.sessions <= {session}
      then Some(if s.interrupted then "cancelled" else "completed") else None
    case _ => None
  }

  /** What the normalizer is asked to do for an event, when it is not a user input. */
  function Output(s: Shared, e: Event): (Norm, seq<Envelope>) {
    match e
    case TurnError(message) => s.norm.EmitError("runtime_error", message, false, {})
    case TurnComplete =>
      if s.sessions == {} then s.norm.FinishTurn(if s.interrupted then "cancelled" else "completed", {}) else (s.norm, [])
    case SessionFinished(session) =>
      if s.completionPending && s.sessions <= {session}
      then s.norm.FinishTurn(if s.interrupted then "cancelled" else "completed", {}) else (s.norm, [])
    case ModelUpdate(update) =>
      if update.ToolApprovalUpdate? then (s.norm.Advance(), [s.norm.Plain(ApprovalRequest(update.capability))])
      else if update.PulseComplete? || update.ErrorUpdate? || update.MetadataUpdate? || update.SilentUpdate? then
        (s.norm, [])
      else s.norm.Normalize(update, {})
    case Decide(request) => s.norm.NormalizeRequest(request)
    case _ => (s.norm, [])
  }

  lemma OutputIsNext(s: Shared, e: Event)
    requires !e.UserInput?
    ensures s.Next(e).norm == Output(s, e).0 && s.Next(e).log == s.log + Output(s, e).1
  {
    hide Norm.FinishTurn, Norm.EmitError, Norm.Normalize, Norm.NormalizeRequest, Norm.Advance, Norm.Plain;
    if e.SessionFinished? {
      assert s.sessions <= {e.session} <==> s.sessions - {e.session} == {};
    }
  }

  /** Each event appends to the log; the addition holds no pulse mark except a start as its only envelope
      or, exactly when `EndStatus` says so, one end as its last. */
  lemma EndsExactlyWhen(s: Shared, e: Event) returns (added: seq<Envelope>)
    ensures s.Next(e).log == s.log + added
    ensures e.UserInput? ==> |added| == 1 && added[0].signal == PulseStart(Some(e.input))
    ensures !e.UserInput? ==> added == Output(s, e).1
    ensures !e.UserInput? && EndStatus(s, e).None? ==> QuietSignals(added)
    ensures !e.UserInput? && EndStatus(s, e).Some? ==> ClosesWith(added, EndStatus(s, e).value)
  {
    if e.UserInput? {
      added := [s.norm.StartPulse(1, Some(e.input)).1];
      return;
    }
    OutputIsNext(s, e);
    added := Output(s, e).1;
    hide Norm.FinishTurn, Norm.EmitError, Norm.Normalize, Norm.NormalizeRequest, Norm.Advance, Norm.Plain;
    hide Shared.Next, ClosesWith, QuietSignals;
    NothingQuiet();
    match e {
      case Decide(request) => RequestQuiet(s.norm, request);
      case TurnError(message) => ErrorEnds(s.norm, message);
      case TurnComplete => FinishEnds(s.norm, if s.interrupted then "cancelled" else "completed");
      case SessionFinished(_) => FinishEnds(s.norm, if s.interrupted then "cancelled" else "completed");
      case ModelUpdate(update) =>
        if !update.PulseComplete? && !update.ErrorUpdate? { UpdateQuiet(s.norm, update); }
        if update.ToolApprovalUpdate? { PlainQuiet(s.norm, ApprovalRequest(update.capability)); }
      case _ =>
    }
  }

  /** One end with the given status, last, and no other pulse mark. */
  predicate ClosesWith(added: seq<Envelope>, status: string) {
    && added != [] && QuietSignals(added[..|added| - 1])
    && added[|added| - 1].signal.PulseEnd?
    && added[|added| - 1].signal.endStatus == status
  }

  lemma FinishEnds(n: Norm, status: string)
    ensures ClosesWith(n.FinishTurn(status, {}).1, status)
  {
  }

  lemma ErrorEnds(n: Norm, message: string)
    ensures ClosesWith(n.EmitError("runtime_error", message, false, {}).1, "failed")
  {
    var (m, said) := n.CloseAndSay(Failure("runtime_error", message, false));
    var added := n.EmitError("runtime_error", message, false, {}).1;
    assert added[..|added| - 1] == said;
  }

  lemma NothingQuiet()
    ensures QuietSignals([])
  {
  }

  lemma PlainQuiet(n: Norm, signal: Signal)
    requires signal.ApprovalRequest?
    ensures QuietSignals([n.Plain(signal)])
  {
  }

  lemma RequestQuiet(n: Norm, request: Request)
    ensures QuietSignals(n.NormalizeRequest(request).1)
  {
  }

  lemma UpdateQuiet(n: Norm, update: Update)
    requires !update.PulseComplete? && !update.ErrorUpdate?
    ensures QuietSignals(n.Normalize(update, {}).1)
  {
    hide ToolEvidence.ChangedFiles;
  }

  // ------------------------------------------------------------------------------------------
  // One more event.

  lemma FollowsNext(n: Norm, e: Envelope)
    requires TextOk(n) && Room(n, 1) && e.sequence == n.nextSeq
    requires e.signal.ApprovalRequest? || e.signal.ApprovalResolved?
    ensures Follows(n, [e], n.Advance())
  {
    FollowsOne(n, e, n.Advance());
  }

  lemma StaysClosed(n: Norm, update: Update)
    requires n.text.open == None && !update.StreamDelta?
    ensures n.Normalize(update, {}).0.text.open == None
  {
    hide ToolEvidence.ChangedFiles;
  }

  /** Where a reader of the log stands after one more event. */
  lemma PulseStep(s: Shared, e: Event, added: seq<Envelope>)
    requires InPulse(s.log) == Some(s.turnInProgress) && !e.UserInput?
    requires EndStatus(s, e).None? ==> QuietSignals(added)
    requires EndStatus(s, e).Some? ==> ClosesWith(added, EndStatus(s, e).value)
    ensures EndStatus(s, e).None? ==> InPulse(s.log + added) == Some(s.turnInProgress)
    ensures EndStatus(s, e).Some? ==> InPulse(s.log + added) == if s.turnInProgress then Some(false) else None
  {
    hide InPulse;
    if EndStatus(s, e).None? {
      InPulseQuiet(s.log, added);
    } else {
      var front, last := added[..|added| - 1], added[|added| - 1];
      assert s.log + added == (s.log + front) + [last];
      InPulseQuiet(s.log, front);
      InPulseSnoc(s.log + front, last);
    }
  }

  lemma FlagsOfStep(s: Shared, e: Event)
    requires !e.UserInput?
    ensures EndStatus(s, e).Some? ==> !s.Next(e).turnInProgress && !s.Next(e).completionPending
    ensures EndStatus(s, e).None? ==> s.Next(e).turnInProgress == s.turnInProgress
    ensures s.Next(e).completionPending ==> s.completionPending || e.TurnComplete?
  {
    hide Norm.FinishTurn, Norm.EmitError, Norm.Normalize, Norm.NormalizeRequest;
    if e.SessionFinished? {
      assert s.sessions <= {e.session} <==> s.sessions - {e.session} == {};
    }
  }

  // ------------------------------------------------------------------------------------------
  // Exactly when the stream is well formed.

  /** A start outside a pulse, an end inside one. */
  predicate WellPlaced(s: Shared, e: Event) {
    if e.UserInput? then !s.turnInProgress else EndStatus(s, e).Some? ==> s.turnInProgress
  }

  /** After any event starts and ends still alternate exactly when the event is well placed; so neither a
      second completion nor the deferred end of a failed pulse is. */
  lemma {:induction false} AlternatesIff(s: Shared, e: Event)
    requires InPulse(s.log) == Some(s.turnInProgress)
    ensures InPulse(s.Next(e).log).Some? <==> WellPlaced(s, e)
    ensures WellPlaced(s, e) ==> InPulse(s.Next(e).log) == Some(s.Next(e).turnInProgress)
  {
    hide InPulse, Output;
    var added := EndsExactlyWhen(s, e);
    if e.UserInput? {
      InPulseSnoc(s.log, added[0]);
      assert added == [added[0]];
    } else {
      PulseStep(s, e, added);
      FlagsOfStep(s, e);
    }
  }

  lemma {:induction false} BrokenAlternation(log: seq<Envelope>, more: seq<Envelope>)
    requires InPulse(log).None?
    ensures InPulse(log + more).None?
    decreases |more|
  {
    if more == [] {
      assert log + more == log;
    } else {
      var front, last := more[..|more| - 1], more[|more| - 1];
      assert log + more == (log + front) + [last];
      BrokenAlternation(log, front);
      InPulseSnoc(log + front, last);
    }
  }

  ghost predicate AllPlaced(events: seq<Event>) {
    forall i :: 0 <= i < |events| ==> WellPlaced(Run(NEW_TASK, events[..i]), events[i])
  }

  /** Over every run at all: starts and ends alternate if and only if every event is well placed. */
  lemma {:induction false} AlternatesOverEveryRunIff(events: seq<Event>)
    ensures InPulse(Run(NEW_TASK, events).log).Some? <==> AllPlaced(events)
    ensures AllPlaced(events) ==> InPulse(Run(NEW_TASK, events).log) == Some(Run(NEW_TASK, events).turnInProgress)
    decreases |events|
  {
    hide WellPlaced, Shared.Next;
    if events != [] {
      var before, last := events[..|events| - 1], events[|events| - 1];
      var s := Run(NEW_TASK, before);
      AlternatesOverEveryRunIff(before);
      assert forall i :: 0 <= i < |before| ==> before[..i] == events[..i];
      assert AllPlaced(events) <==> AllPlaced(before) && WellPlaced(s, last);
      hide InPulse, AllPlaced;
      if AllPlaced(before) {
        AlternatesIff(s, last);
      } else {
        var added := EndsExactlyWhen(s, last);
        BrokenAlternation(s.log, added);
      }
    }
  }

  /** There is room for the numbers of the whole run. */
  ghost predicate RoomRun(events: seq<Event>) {
    forall i :: 0 <= i <= |events| ==> Room(Run(NEW_TASK, events[..i]).norm, 3)
  }

  lemma RoomRunPrefix(events: seq<Event>)
    requires RoomRun(events) && events != []
    ensures RoomRun(events[..|events| - 1]) && Room(Run(NEW_TASK, events[..|events| - 1]).norm, 3)
  {
    hide Run, Room;
    var before := events[..|events| - 1];
    forall i | 0 <= i <= |before| ensures Room(Run(NEW_TASK, before[..i]).norm, 3) {
      assert before[..i] == events[..i];
      assert Room(Run(NEW_TASK, events[..i]).norm, 3);
    }
    assert before[..|before|] == before;
  }

  lemma OutputNumbers(s: Shared, e: Event)
    requires TextOk(s.norm) && Room(s.norm, 3) && !e.UserInput?
    ensures Numbers(s.norm, Output(s, e).1, Output(s, e).0)
  {
    hide BracketAll, Norm.FinishTurn, Norm.EmitError, Norm.Normalize;
    match e {
      case ModelUpdate(update) => NormalizeNumbers(s.norm, update, {});
      case TurnComplete => FinishTurnFollows(s.norm, if s.interrupted then "cancelled" else "completed", {});
      case SessionFinished(_) => FinishTurnFollows(s.norm, if s.interrupted then "cancelled" else "completed", {});
      case TurnError(message) => EmitErrorFollows(s.norm, "runtime_error", message, false, {});
      case _ =>
    }
  }

  ghost predicate NumbersOk(s: Shared) {
    NumberedFrom(s.log, 1) && s.norm.nextSeq == |s.log| + 1 && TextOk(s.norm)
  }

  lemma NumbersStep(s: Shared, e: Event)
    requires NumbersOk(s) && Room(s.norm, 3)
    ensures NumbersOk(s.Next(e))
  {
    if !e.UserInput? {
      OutputNumbers(s, e);
      OutputIsNext(s, e);
      hide Shared.Next, Output;
      NumberedConcat(s.log, Output(s, e).1, 1);
    }
  }

  /** Over every run at all the envelopes carry the numbers 1, 2, 3, … */
  lemma {:induction false} NumberedOverEveryRun(events: seq<Event>)
    requires RoomRun(events)
    ensures NumbersOk(Run(NEW_TASK, events))
    decreases |events|
  {
    hide Shared.Next, RoomRun;
    if events != [] {
      RoomRunPrefix(events);
      NumberedOverEveryRun(events[..|events| - 1]);
      NumbersStep(Run(NEW_TASK, events[..|events| - 1]), events[|events| - 1]);
    }
  }

  predicate Forwarded(update: Update) {
    !update.PulseComplete? && !update.ErrorUpdate? && !update.MetadataUpdate? && !update.SilentUpdate? &&
    !update.ToolApprovalUpdate?
  }

  /** An input does not come while a synthetic text block is open, and no provider block has an index in the
      synthetic range, except for a delta of the very block that is open. */
  predicate KeepsBrackets(s: Shared, e: Event) {
    match e
    case UserInput(_) => s.norm.text.open.None?
    case ModelUpdate(update) =>
      Forwarded(update) ==>
        ProviderIndexOk(update) || (update.StreamBlockDelta? && s.norm.text.open == Some(update.index))
    case _ => true
  }

  /** A reader of the brackets is where the normalizer is. */
  ghost predicate Tracks(s: Shared) {
    BracketAll(NO_BLOCK, s.log) == View(s.norm)
  }

  lemma {:induction false} TracksStepIff(s: Shared, e: Event)
    requires NumbersOk(s) && Room(s.norm, 3) && Tracks(s)
    ensures Tracks(s.Next(e)) <==> KeepsBrackets(s, e)
  {
    hide TextOk, Norm.Normalize, Norm.FinishTurn, Norm.EmitError, BracketAll;
    if e.UserInput? {
      BracketSnoc(NO_BLOCK, s.log, s.norm.StartPulse(1, Some(e.input)).1);
    } else {
      OutputIsNext(s, e);
      BracketConcat(NO_BLOCK, s.log, Output(s, e).1);
      OutputBracketsIff(s, e);
      hide Shared.Next, Output;
    }
  }

  lemma {:induction false} OutputBracketsIff(s: Shared, e: Event)
    requires TextOk(s.norm) && Room(s.norm, 3) && !e.UserInput?
    ensures BracketAll(View(s.norm), Output(s, e).1) == View(Output(s, e).0) <==> KeepsBrackets(s, e)
  {
    hide TextOk, Norm.Normalize, Norm.FinishTurn, Norm.EmitError, Norm.Advance, BracketAll;
    BracketNone(View(s.norm));
    match e {
      case ModelUpdate(update) =>
        if update.ToolApprovalUpdate? {
          FollowsNext(s.norm, s.norm.Plain(ApprovalRequest(update.capability)));
        } else if Forwarded(update) {
          BracketsIff(s.norm, update, {});
        }
      case TurnComplete => FinishTurnFollows(s.norm, if s.interrupted then "cancelled" else "completed", {});
      case SessionFinished(_) => FinishTurnFollows(s.norm, if s.interrupted then "cancelled" else "completed", {});
      case TurnError(message) => EmitErrorFollows(s.norm, "runtime_error", message, false, {});
      case Decide(request) =>
        if !request.OtherRequest? { FollowsNext(s.norm, s.norm.NormalizeRequest(request).1[0]); }
      case _ =>
    }
  }

  ghost predicate AllTrack(events: seq<Event>) {
    forall k :: 0 <= k <= |events| ==> Tracks(Run(NEW_TASK, events[..k]))
  }

  ghost predicate AllKeepBrackets(events: seq<Event>) {
    forall i :: 0 <= i < |events| ==> KeepsBrackets(Run(NEW_TASK, events[..i]), events[i])
  }

  /** Over every run at all: at every moment the text blocks a reader sees are those the normalizer keeps, if
      and only if every event keeps the brackets. */
  lemma {:induction false} BracketsOverEveryRunIff(events: seq<Event>)
    requires RoomRun(events)
    ensures AllTrack(events) <==> AllKeepBrackets(events)
    decreases |events|
  {
    hide Tracks, KeepsBrackets, Shared.Next, RoomRun, NumbersOk, Room;
    if events == [] {
      NothingTracks();
    } else {
      var before, last := events[..|events| - 1], events[|events| - 1];
      RoomRunPrefix(events);
      BracketsOverEveryRunIff(before);
      NumberedOverEveryRun(before);
      assert forall i :: 0 <= i <= |before| ==> before[..i] == events[..i];
      assert events[..|events|] == events && before[..|before|] == before;
      assert AllKeepBrackets(events) <==> AllKeepBrackets(before) && KeepsBrackets(Run(NEW_TASK, before), last);
      assert AllTrack(events) <==> AllTrack(before) && Tracks(Run(NEW_TASK, events));
      if AllTrack(before) {
        assert Tracks(Run(NEW_TASK, before[..|before|]));
        TracksStepIff(Run(NEW_TASK, before), last);
      }
    }
  }

  lemma NothingTracks()
    ensures AllTrack([])
  {
    var none: seq<Event> := [];
    assert none[..0] == none && Run(NEW_TASK, none) == NEW_TASK;
  }

  // ------------------------------------------------------------------------------------------
  // The stream of every disciplined run.

  /** What the producer of a pulse keeps to: a pulse starts only after the last one ended, text arrives
      only inside a pulse, provider blocks stay below the synthetic indices, and each pulse gets one
      terminal update. */
  predicate Disciplined(s: Shared, e: Event) {
    match e
    case UserInput(_) => !s.turnInProgress
    case ModelUpdate(update) => ProviderIndexOk(update) && (update.StreamDelta? ==> s.turnInProgress)
    case TurnComplete => s.turnInProgress && !s.completionPending
    case TurnError(_) => s.turnInProgress && !s.completionPending
    case _ => true
  }

  /** Outside a pulse no text block is open and no completion waits. */
  ghost predicate Idle(s: Shared) {
    !s.turnInProgress ==> s.norm.text.open.None? && !s.completionPending
  }

  lemma {:induction false} DisciplinedFits(s: Shared, e: Event)
    requires Idle(s) && FlagsOk(s) && TextOk(s.norm) && Room(s.norm, 3) && Disciplined(s, e)
    ensures WellPlaced(s, e) && KeepsBrackets(s, e) && Idle(s.Next(e))
  {
    hide TextOk, Follows, Norm.FinishTurn, Norm.EmitError, Norm.Normalize, BracketAll;
    if !e.UserInput? {
      FlagsOfStep(s, e);
      OutputIsNext(s, e);
      hide Shared.Next;
      match e {
        case ModelUpdate(update) =>
          if s.norm.text.open.None? && !update.StreamDelta? { StaysClosed(s.norm, update); }
        case TurnComplete => FinishTurnFollows(s.norm, if s.interrupted then "cancelled" else "completed", {});
        case SessionFinished(_) => FinishTurnFollows(s.norm, if s.interrupted then "cancelled" else "completed", {});
        case TurnError(message) => EmitErrorFollows(s.norm, "runtime_error", message, false, {});
        case _ =>
      }
    }
  }

  /** Every event is disciplined where it happens. */
  ghost predicate DisciplinedFrom(s: Shared, events: seq<Event>) {
    forall i :: 0 <= i < |events| ==> Disciplined(Run(s, events[..i]), events[i])
  }

  lemma {:induction false} DisciplinedRunFits(events: seq<Event>)
    requires DisciplinedFrom(NEW_TASK, events) && RoomRun(events)
    ensures AllPlaced(events) && AllKeepBrackets(events) && Idle(Run(NEW_TASK, events))
    decreases |events|
  {
    hide Disciplined, WellPlaced, KeepsBrackets, Idle, FlagsOk, NumbersOk, RoomRun, Room, Shared.Next;
    if events == [] {
      NothingIdle();
    } else {
      var before, last := events[..|events| - 1], events[|events| - 1];
      RoomRunPrefix(events);
      assert forall i :: 0 <= i <= |before| ==> before[..i] == events[..i];
      DisciplinedRunFits(before);
      FlagsOverEveryRun(before);
      NumberedOverEveryRun(before);
      NumbersMean(Run(NEW_TASK, before));
      assert Disciplined(Run(NEW_TASK, events[..|before|]), events[|before|]);
      DisciplinedFits(Run(NEW_TASK, before), last);
    }
  }

  lemma NothingIdle()
    ensures Idle(NEW_TASK)
  {
  }

  lemma NumbersMean(s: Shared)
    requires NumbersOk(s)
    ensures TextOk(s.norm)
  {
  }

  /** Over every disciplined run: numbers 1, 2, 3, …, synthetic blocks bracketed and closed outside pulses,
      and starts and ends alternating, with a pulse open exactly while a turn is in progress. */
  lemma {:induction false} StreamOverEveryRun(events: seq<Event>)
    requires DisciplinedFrom(NEW_TASK, events) && RoomRun(events)
    ensures var s := Run(NEW_TASK, events);
            && NumberedFrom(s.log, 1) && InPulse(s.log) == Some(s.turnInProgress)
            && BracketAll(NO_BLOCK, s.log) == View(s.norm) && (!s.turnInProgress ==> s.norm.text.open.None?)
  {
    hide DisciplinedFrom, RoomRun, AllPlaced, AllKeepBrackets, Shared.Next, BracketAll, InPulse, TextOk;
    DisciplinedRunFits(events);
    NumberedOverEveryRun(events);
    AlternatesOverEveryRunIff(events);
    BracketsOverEveryRunIff(events);
    assert events[..|events|] == events;
    assert Tracks(Run(NEW_TASK, events[..|events|]));
  }

  // ------------------------------------------------------------------------------------------
  // Interrupts.

  /** The pulse under way was interrupted while its turn was in progress. */
  ghost predicate InterruptedSince(events: seq<Event>) {
    exists i :: 0 <= i < |events| && events[i].Interrupt? && Run(NEW_TASK, events[..i]).turnInProgress && NoInputAfter(events, i)
  }

  ghost predicate NoInputAfter(events: seq<Event>, i: nat) {
    forall k :: i < k < |events| ==> !events[k].UserInput?
  }

  lemma InterruptStep(s: Shared, e: Event)
    ensures s.Next(e).interrupted == match e
                                     case UserInput(_) => false
                                     case Interrupt => s.turnInProgress || s.interrupted
                                     case _ => s.interrupted
  {
    hide Norm.FinishTurn, Norm.EmitError, Norm.Normalize, Norm.StartPulse, Norm.NormalizeRequest;
  }

  /** What decides between "cancelled" and "completed" is precisely whether the pulse was interrupted. */
  lemma {:induction false} InterruptedIff(events: seq<Event>)
    ensures Run(NEW_TASK, events).interrupted <==> InterruptedSince(events)
    decreases |events|
  {
    hide Shared.Next;
    if events != [] {
      var before, last := events[..|events| - 1], events[|events| - 1];
      InterruptedIff(before);
      InterruptStep(Run(NEW_TASK, before), last);
      SinceStep(events);
    }
  }

  lemma {:induction false} SinceStep(events: seq<Event>)
    requires events != []
    ensures var before, last := events[..|events| - 1], events[|events| - 1];
            InterruptedSince(events) <==>
            !last.UserInput? &&
            (InterruptedSince(before) || (last.Interrupt? && Run(NEW_TASK, before).turnInProgress))
  {
    hide Run, Shared.Next;
    var n := |events| - 1;
    var before, last := events[..n], events[n];
    assert forall i :: 0 <= i <= n ==> before[..i] == events[..i];
    if InterruptedSince(events) {
      var i :| 0 <= i < |events| && events[i].Interrupt? && Run(NEW_TASK, events[..i]).turnInProgress && NoInputAfter(events, i);
      if i < n {
        assert NoInputAfter(before, i) && before[i] == events[i];
      }
    }
    if !last.UserInput? && InterruptedSince(before) {
      var i :| 0 <= i < |before| && before[i].Interrupt? && Run(NEW_TASK, before[..i]).turnInProgress && NoInputAfter(before, i);
      assert NoInputAfter(events, i) && events[i] == before[i];
    }
    if last.Interrupt? && Run(NEW_TASK, before).turnInProgress {
      assert NoInputAfter(events, n);
    }
  }

  /** Wherever a pulse fails, a completion of the same pulse that still arrives ends it twice, at once or
      when the last session it waits for is over. */
  lemma {:induction false} ErrorThenCompleteEndsTwice(s: Shared, message: string, session: SessionId)
    requires InPulse(s.log) == Some(s.turnInProgress)
    ensures var failed := s.Next(TurnError(message));
            && InPulse(failed.Next(TurnComplete).log).None?
            && InPulse(failed.Next(SessionStarted(session)).Next(TurnComplete).Next(SessionFinished(session)).log).None?
  {
    hide InPulse, Norm.FinishTurn, Norm.EmitError;
    var failed := s.Next(TurnError(message));
    var waiting := failed.Next(SessionStarted(session)).Next(TurnComplete);
    assert waiting.log == failed.log && waiting.completionPending && waiting.sessions <= {session};
    AlternatesIff(s, TurnError(message));
    EndAfterEnd(failed, TurnComplete);
    EndAfterEnd(waiting, SessionFinished(session));
  }

  /** Once a failed end has been given no further end is well placed, nor does anything mend the stream. */
  lemma {:induction false} EndAfterEnd(s: Shared, e: Event)
    requires InPulse(s.log).None? || InPulse(s.log) == Some(s.turnInProgress)
    requires !e.UserInput? && EndStatus(s, e).Some? && !s.turnInProgress
    ensures InPulse(s.Next(e).log).None?
  {
    hide InPulse, Shared.Next;
    if InPulse(s.log).Some? {
      AlternatesIff(s, e);
    } else {
      var added := EndsExactlyWhen(s, e);
      BrokenAlternation(s.log, added);
    }
  }
}
