/** What the stream of a local API task says, told by its events alone. */
module LocalApiStory {
  import opened Wrappers
  import opened Envelopes
  import opened Normalizing
  import opened Announced
  import opened LocalApiProtocol

  // ------------------------------------------------------------------------------------------
  // The flags, told by the events.

  /** A turn is complete, but sessions it started are still alive. */
  function CompletionWaits(events: seq<Event>): bool {
    if events == [] then false
    else
      var front := events[..|events| - 1];
      match events[|events| - 1]
      case UserInput(_) => false
      case TurnError(_) => false
      case TurnComplete => LiveSessions(front) != {}
      case SessionFinished(session) => CompletionWaits(front) && LiveSessions(front) - {session} != {}
      case _ => CompletionWaits(front)
  }

  /** The last event is what the turn was still waiting for. */
  predicate Completes(events: seq<Event>) {
    events != [] &&
    var front := events[..|events| - 1];
    match events[|events| - 1]
    case TurnComplete => LiveSessions(front) == {}
    case SessionFinished(session) => CompletionWaits(front) && LiveSessions(front) - {session} == {}
    case _ => false
  }

  function TurnOpen(events: seq<Event>): bool {
    if events == [] then false
    else
      match events[|events| - 1]
      case UserInput(_) => true
      case TurnError(_) => false
      case _ => TurnOpen(events[..|events| - 1]) && !Completes(events)
  }

  function Interrupted(events: seq<Event>): bool {
    if events == [] then false
    else
      var front := events[..|events| - 1];
      match events[|events| - 1]
      case UserInput(_) => false
      case Interrupt => TurnOpen(front) || Interrupted(front)
      case _ => Interrupted(front)
  }

  ghost predicate FlagsTold(s: Shared, events: seq<Event>) {
    && s.sessions == LiveSessions(events) && s.completionPending == CompletionWaits(events)
    && s.turnInProgress == TurnOpen(events) && s.interrupted == Interrupted(events)
  }

  lemma FlagsStepTold(s: Shared, events: seq<Event>, e: Event)
    requires FlagsTold(s, events)
    ensures FlagsTold(s.Next(e), events + [e])
  {
    hide Norm.FinishTurn, Norm.EmitError, Norm.Normalize, Norm.StartPulse, Norm.NormalizeRequest;
    var all := events + [e];
    assert all[..|events|] == events && all[|events|] == e;
  }

  // ------------------------------------------------------------------------------------------
  // The story.

  /** The updates of the pulse under way that were forwarded, with its ends. */
  function Acts(events: seq<Event>): seq<Update> {
    if events == [] then []
    else
      var acts := Acts(events[..|events| - 1]);
      match events[|events| - 1]
      case UserInput(_) => []
      case ModelUpdate(update) => if Forwarded(update) then acts + [update] else acts
      case TurnError(message) => acts + [ErrorUpdate(message)]
      case _ => if Completes(events) then acts + [PulseComplete] else acts
  }

  predicate Started(events: seq<Event>) {
    exists i :: 0 <= i < |events| && events[i].UserInput?
  }

  /** Every pulse of a task has the number one. */
  function Pulse(events: seq<Event>): nat {
    if Started(events) then 1 else 0
  }

  function Resolution(pulse: nat, request: Request): seq<Envelope> {
    match request
    case ApproveCapability(id, capability, scope) =>
      [Envelope(pulse, 0, UserRequest, Some(id), None, ApprovalResolved(capability, scope, true))]
    case DenyCapability(id, capability) =>
      [Envelope(pulse, 0, UserRequest, Some(id), None, ApprovalResolved(capability, "once", false))]
    case OtherRequest(_) => []
  }

  /** What the last event makes the stream say. */
  ghost function Told(events: seq<Event>): seq<Envelope>
    requires events != []
  {
    var front := events[..|events| - 1];
    var pulse, acts := Pulse(front), Acts(front);
    match events[|events| - 1]
    case UserInput(input) => [Say(1, PulseStart(Some(input)), UserRequest)]
    case ModelUpdate(ToolApprovalUpdate(capability)) => [Say(pulse, ApprovalRequest(capability), Runtime)]
    case ModelUpdate(update) => if Forwarded(update) then Said(pulse, acts, update, {}) else []
    case TurnError(message) =>
      [Say(pulse, Failure("runtime_error", message, false), Runtime),
       Say(pulse, PulseEnd("failed", FilesChanged(acts)), Runtime)]
    case Decide(request) => Resolution(pulse, request)
    case _ =>
      if Completes(events)
      then [Say(pulse, PulseEnd(if Interrupted(front) then "cancelled" else "completed", FilesChanged(acts)), Runtime)]
      else []
  }

  ghost function Story(events: seq<Event>): seq<Envelope> {
    if events == [] then [] else Story(events[..|events| - 1]) + Told(events)
  }

  lemma OutputTold(s: Shared, events: seq<Event>, e: Event)
    requires FlagsTold(s, events) && Knows(s.norm, Acts(events)) && s.norm.pulse == Pulse(events) && !e.UserInput?
    ensures Seen(Output(s, e).1) == Told(events + [e])
    ensures Knows(Output(s, e).0, Acts(events + [e])) && Output(s, e).0.pulse == Pulse(events + [e])
  {
    hide Norm.Normalize, Norm.FinishTurn, Norm.EmitError, Seen, Knows, Said, FilesChanged, Started;
    var all := events + [e];
    assert all[..|events|] == events && all[|events|] == e;
    assert Started(all) <==> Started(events) by { StartedMore(events, e); }
    NothingSeen();
    match e {
      case ModelUpdate(update) =>
        if Forwarded(update) {
          NormalizeAnnounces(s.norm, Acts(events), update, {});
          KnowsStep(s.norm, Acts(events), update, {});
        } else if update.ToolApprovalUpdate? {
          SeenOne(s.norm.Plain(ApprovalRequest(update.capability)));
          KnowsNumbers(s.norm, Acts(events));
        }
      case TurnError(message) =>
        ErrorSeen(s.norm, Acts(events), "runtime_error", message, false, {});
        EndKnows(s.norm, Acts(events), message, "");
      case Decide(request) => RequestTold(s.norm, Acts(events), request);
      case _ =>
        var status := if s.interrupted then "cancelled" else "completed";
        SessionsLeft(s, events, e);
        EndSeen(s.norm, Acts(events), status, {});
        EndKnows(s.norm, Acts(events), "", status);
    }
  }

  lemma StartedMore(events: seq<Event>, e: Event)
    ensures Started(events + [e]) <==> Started(events) || e.UserInput?
  {
    var all := events + [e];
    assert forall i :: 0 <= i < |events| ==> all[i] == events[i];
    assert all[|events|] == e;
  }

  lemma SessionsLeft(s: Shared, events: seq<Event>, e: Event)
    requires FlagsTold(s, events) && !e.TurnError?
    ensures EndStatus(s, e).Some? <==> Completes(events + [e])
  {
    var all := events + [e];
    assert all[..|events|] == events && all[|events|] == e;
    if e.SessionFinished? {
      assert s.sessions <= {e.session} <==> s.sessions - {e.session} == {};
    }
  }

  /** Numbers and requests do not touch what the normalizer knows. */
  lemma KnowsNumbers(n: Norm, updates: seq<Update>)
    requires Knows(n, updates)
    ensures Knows(n.Advance(), updates) && n.Advance().pulse == n.pulse
  {
    hide KnowsPending, KnowsStreams, KnowsTools, KnowsSources, FilesChanged;
  }

  lemma RequestTold(n: Norm, updates: seq<Update>, request: Request)
    requires Knows(n, updates)
    ensures Seen(n.NormalizeRequest(request).1) == Resolution(n.pulse, request)
    ensures Knows(n.NormalizeRequest(request).0, updates) && n.NormalizeRequest(request).0.pulse == n.pulse
  {
    KnowsNumbers(n, updates);
    NothingSeen();
    if !request.OtherRequest? {
      SeenOne(n.NormalizeRequest(request).1[0]);
    }
    hide Knows, Seen;
  }

  lemma SameEnd(n: Norm, status: string, message: string)
    ensures n.FinishTurn(status, {}).0 == n.Normalize(PulseComplete, {}).0
    ensures n.EmitError("runtime_error", message, false, {}).0 == n.Normalize(ErrorUpdate(message), {}).0
  {
    hide Norm.CloseText;
  }

  /** Whatever status ends a turn, the normalizer forgets the same. */
  lemma EndKnows(n: Norm, updates: seq<Update>, message: string, status: string)
    requires Knows(n, updates)
    ensures var failed := n.EmitError("runtime_error", message, false, {}).0;
            Knows(failed, updates + [ErrorUpdate(message)]) && failed.pulse == n.pulse
    ensures var ended := n.FinishTurn(status, {}).0;
            Knows(ended, updates + [PulseComplete]) && ended.pulse == n.pulse
  {
    KnowsStep(n, updates, ErrorUpdate(message), {});
    KnowsStep(n, updates, PulseComplete, {});
    hide Knows, Norm.Normalize, Norm.FinishTurn, Norm.EmitError;
    SameEnd(n, status, message);
  }

  /** Over every run at all, numbers and frames aside, the stream says what its events tell and nothing else:
      each forwarded update once, in order, with its payload, each decision under its request, and each end
      with its status and its files. */
  lemma {:induction false} StoryOverEveryRun(events: seq<Event>)
    ensures var s := Run(NEW_TASK, events);
            && Seen(s.log) == Story(events) && FlagsTold(s, events)
            && Knows(s.norm, Acts(events)) && s.norm.pulse == Pulse(events)
    decreases |events|
  {
    hide Shared.Next, Output, Knows, Seen, FlagsTold, Told;
    if events == [] {
      StoryBegins();
    } else {
      var front, last := events[..|events| - 1], events[|events| - 1];
      var s := Run(NEW_TASK, front);
      StoryOverEveryRun(front);
      FlagsStepTold(s, front, last);
      assert front + [last] == events;
      if last.UserInput? {
        InputTold(s, front, last.input);
      } else {
        OutputTold(s, front, last);
        OutputIsNext(s, last);
        SeenConcat(s.log, Output(s, last).1);
      }
    }
  }

  lemma StoryBegins()
    ensures Seen(NEW_TASK.log) == [] && FlagsTold(NEW_TASK, [])
    ensures Knows(NEW_TASK.norm, Acts([])) && NEW_TASK.norm.pulse == Pulse([])
  {
    KnowsNothing(NEW_NORMALIZER);
  }

  lemma InputTold(s: Shared, events: seq<Event>, input: string)
    ensures var (e, t) := (UserInput(input), s.Next(UserInput(input)));
            && Seen(t.log) == Seen(s.log) + Told(events + [e])
            && Knows(t.norm, Acts(events + [e])) && t.norm.pulse == Pulse(events + [e])
  {
    var e := UserInput(input);
    var all := events + [e];
    assert all[..|events|] == events && all[|events|] == e;
    StartedMore(events, e);
    var (n, start) := s.norm.StartPulse(1, Some(input));
    SeenConcat(s.log, [start]);
    SeenOne(start);
    KnowsNothing(n);
    hide Seen, Knows;
  }

  // ------------------------------------------------------------------------------------------
  // Frames.

  /** Every result and every fragment of arguments that names its tool carries the frame of a start before it. */
  ghost predicate AllFramed(log: seq<Envelope>) {
    forall i :: 0 <= i < |log| ==> PointsBack(log[..i], log[i])
  }

  lemma FramedMore(log: seq<Envelope>, added: seq<Envelope>)
    requires AllFramed(log) && AllPointBack(log, added)
    ensures AllFramed(log + added)
  {
    hide CallStarted;
    var all, n := log + added, |log|;
    forall i | 0 <= i < |all| ensures PointsBack(all[..i], all[i]) {
      if i < n {
        assert all[..i] == log[..i] && all[i] == log[i];
      } else {
        assert all[..i] == log + added[..i - n] && all[i] == added[i - n];
        PointsBackLater(log, added[..i - n], added[i - n]);
      }
    }
  }

  lemma PointsBackLater(log: seq<Envelope>, more: seq<Envelope>, e: Envelope)
    requires PointsBack(log, e)
    ensures PointsBack(log + more, e)
  {
    hide CallStarted;
    if AboutCall(e.signal) && e.signal.name.Some? {
      CallStartedLater(log, more, e.signal.callId, e.signal.name.value, e.parent.value);
    }
  }

  lemma OutputFramed(s: Shared, e: Event)
    requires Grounded(s.norm.tools, s.log) && !e.UserInput?
    ensures Grounded(Output(s, e).0.tools, s.log + Output(s, e).1) && AllPointBack(s.log, Output(s, e).1)
  {
    hide Norm.Normalize, Norm.FinishTurn, Norm.EmitError, Grounded, PointsBack;
    assert s.log + [] == s.log;
    match e {
      case ModelUpdate(update) =>
        if Forwarded(update) {
          ResultsPointBack(s.norm, update, {}, s.log);
        } else if update.ToolApprovalUpdate? {
          PlainPointsBack(s.norm, ApprovalRequest(update.capability), s.log);
        }
      case Decide(request) => RequestPointsBack(s.norm, request, s.log);
      case TurnError(message) => ErrorPointsBack(s.norm, message, s.log);
      case _ => EndPointsBack(s.norm, if s.interrupted then "cancelled" else "completed", s.log);
    }
  }

  lemma PlainPointsBack(n: Norm, signal: Signal, log: seq<Envelope>)
    requires Grounded(n.tools, log) && !AboutCall(signal)
    ensures Grounded(n.tools, log + [n.Plain(signal)]) && AllPointBack(log, [n.Plain(signal)])
  {
    GroundedLater(n.tools, log, [n.Plain(signal)]);
    hide Grounded;
  }

  lemma RequestPointsBack(n: Norm, request: Request, log: seq<Envelope>)
    requires Grounded(n.tools, log)
    ensures Grounded(n.NormalizeRequest(request).0.tools, log + n.NormalizeRequest(request).1)
    ensures AllPointBack(log, n.NormalizeRequest(request).1)
  {
    GroundedLater(n.tools, log, n.NormalizeRequest(request).1);
    hide Grounded;
  }

  lemma EndPointsBack(n: Norm, status: string, log: seq<Envelope>)
    ensures Grounded(n.FinishTurn(status, {}).0.tools, log + n.FinishTurn(status, {}).1)
    ensures AllPointBack(log, n.FinishTurn(status, {}).1)
  {
    hide CallStarted;
  }

  lemma ErrorPointsBack(n: Norm, message: string, log: seq<Envelope>)
    ensures var (m, added) := n.EmitError("runtime_error", message, false, {});
            Grounded(m.tools, log + added) && AllPointBack(log, added)
  {
    hide CallStarted;
  }

  lemma {:induction false} FramesOverEveryRun(events: seq<Event>)
    ensures var s := Run(NEW_TASK, events); AllFramed(s.log) && Grounded(s.norm.tools, s.log)
    decreases |events|
  {
    hide Shared.Next, Output, Grounded, AllFramed, AllPointBack;
    if events == [] {
      FramesBegin();
    } else {
      var front, last := events[..|events| - 1], events[|events| - 1];
      var s := Run(NEW_TASK, front);
      FramesOverEveryRun(front);
      if last.UserInput? {
        InputFramed(s, last.input);
      } else {
        OutputFramed(s, last);
        OutputIsNext(s, last);
        FramedMore(s.log, Output(s, last).1);
      }
    }
  }

  lemma FramesBegin()
    ensures AllFramed(NEW_TASK.log) && Grounded(NEW_TASK.norm.tools, NEW_TASK.log)
  {
  }

  lemma InputFramed(s: Shared, input: string)
    requires AllFramed(s.log)
    ensures var t := s.Next(UserInput(input)); AllFramed(t.log) && Grounded(t.norm.tools, t.log)
  {
    FramedMore(s.log, [s.norm.StartPulse(1, Some(input)).1]);
    hide AllFramed;
  }
}
