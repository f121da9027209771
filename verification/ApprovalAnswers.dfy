/** What every event does, observable by observable: who is answered and how, which commands run, what is
    granted and saved, and when a pulse lives. */
module ApprovalAnswers {
  import opened GrantLedger
  import opened ApprovalProtocol
  import opened Wrappers

  // ------------------------------------------------------------------------------------------
  // Where a typed line goes.

  /** The line answers the pending approval. */
  predicate AtApproval(s: Tui) {
    s.desk.pending.Some? && !s.panel.resumeSelection && !s.panel.memoryClear
  }

  predicate AtResume(s: Tui) {
    s.panel.resumeSelection && !s.panel.memoryClear
  }

  /** Nothing asks for an answer and no pulse is under way. */
  predicate AtPrompt(s: Tui) {
    s.desk.pending.None? && !s.panel.resumeSelection && !s.panel.memoryClear && s.pulse.None?
  }

  /** A shell command is accepted beside the commands already running, but not beside a model's turn. */
  predicate BesideCommands(s: Tui, line: Typed) {
    && s.desk.pending.None? && !s.panel.resumeSelection && !s.panel.memoryClear
    && s.pulse.Some? && s.pulse.value.sessions != {} && !s.pulse.value.cancelPending
    && !(s.panel.editLoop && line.rawEdit)
  }

  /** The shell command the line asks for. */
  function CommandTyped(s: Tui, line: Typed): Option<string> {
    var bang := if AtPrompt(s) then line.bang else if BesideCommands(s, line) then line.rawBang else None;
    if bang == Some("") then None else bang
  }

  /** The slash command the line gives. */
  function SlashTyped(s: Tui, line: Typed): Option<Slash> {
    if AtPrompt(s) && line.bang.None? then line.slash else None
  }

  /** The line is put to the model. */
  predicate AsksModel(s: Tui, line: Typed) {
    AtPrompt(s) && line.bang.None? && line.slash.None?
  }

  // ------------------------------------------------------------------------------------------
  // Answers.

  predicate Cancelling(s: Tui) {
    s.pulse.Some? && s.pulse.value.cancelPending
  }

  /** The event is what the turn was waiting for. */
  predicate EndsTurn(s: Tui, e: Event) {
    match e
    case PulseComplete => s.pulse.None? || s.pulse.value.sessions == {}
    case CommandSessionFinished(session) =>
      s.panel.completionPending && (s.pulse.None? || s.pulse.value.sessions <= {session})
    case _ => false
  }

  /** The events that answer the pending approval no: a refusal, a newer request, an interrupt, or any end of
      the pulse. */
  predicate Refuses(s: Tui, e: Event) {
    match e
    case UserInput(line) => AtApproval(s) && line.selection == Some(Deny)
    case ToolApprovalRequest(_, _) => !Cancelling(s)
    case Interrupt => s.pulse.Some? && !Cancelling(s)
    case EditLoopComplete => true
    case PulseError => true
    case _ => EndsTurn(s, e)
  }

  /** Only a line that approves, for once or for the session, answers it yes. */
  predicate Approves(s: Tui, e: Event) {
    e.UserInput? && AtApproval(s) && e.line.selection in {Some(ApproveOnce), Some(ApproveSession)}
  }

  /** What is in force without asking: session approval, or a grant for the capability. */
  predicate InForce(s: Tui, capability: Option<Capability>) {
    s.panel.autoApprove || (capability.Some? && capability.value in s.ledger.grants)
  }

  /** A request is answered at its arrival, unless the user has to be asked. */
  function AtArrival(s: Tui, capability: Option<Capability>): Option<bool> {
    if Cancelling(s) || s.mode.readOnly then Some(false)
    else if InForce(s, capability) then Some(true)
    else None
  }

  function PendingReply(s: Tui, e: Event): seq<Answer> {
    if s.desk.pending.Some? && s.desk.pending.value.Tool? && (Approves(s, e) || Refuses(s, e))
    then [Answer(s.desk.pending.value.request, Approves(s, e), s.mode.readOnly, s.mode.interrupted)] else []
  }

  function ArrivalReply(s: Tui, e: Event): seq<Answer> {
    if e.ToolApprovalRequest? && AtArrival(s, e.capability).Some?
    then [Answer(e.request, AtArrival(s, e.capability).value, s.mode.readOnly, s.mode.interrupted)] else []
  }

  function PendingAfter(s: Tui, e: Event): Option<Action> {
    if e.ToolApprovalRequest? && AtArrival(s, e.capability).None? then Some(Tool(e.request))
    else if e.UserInput? && CommandTyped(s, e.line).Some? && !InForce(s, Some(RunCommand)) then
      Some(InlineCommand(CommandTyped(s, e.line).value))
    else if Approves(s, e) || Refuses(s, e) then None
    else s.desk.pending
  }

  // ------------------------------------------------------------------------------------------
  // Commands and session approval.

  /** The command a line starts: one typed with approval in force, one approved, or a rebuild of the index. */
  function RunBy(s: Tui, e: Event): seq<string> {
    if !e.UserInput? then []
    else if CommandTyped(s, e.line).Some? && InForce(s, Some(RunCommand)) then [CommandTyped(s, e.line).value]
    else if Approves(s, e) && s.desk.pending.value.InlineCommand? then [s.desk.pending.value.command]
    else if SlashTyped(s, e.line) == Some(Reindex) then [REINDEX]
    else []
  }

  predicate ApprovesSession(s: Tui, e: Event) {
    e.UserInput? && AtApproval(s) && e.line.selection == Some(ApproveSession)
  }

  lemma BangDoes(s: Tui, command: string, session: SessionId)
    ensures var t := s.HandleBang(command, session);
            && t.panel.autoApprove == s.panel.autoApprove
            && t.desk == (if command == "" || InForce(s, Some(RunCommand)) then s.desk
                          else s.desk.(pending := Some(InlineCommand(command))))
            && t.ran == s.ran + if command != "" && InForce(s, Some(RunCommand)) then [command] else []
  {
    hide Ledger.Use, Ledger.Persist;
    assert s.ran + [] == s.ran;
  }

  lemma SlashDoes(s: Tui, command: Slash, session: SessionId)
    ensures var t := s.OnSlash(command, session);
            && t.panel.autoApprove == s.panel.autoApprove && t.desk == s.desk
            && t.ran == s.ran + if command.Reindex? then [REINDEX] else []
  {
    hide Ledger.Put, Ledger.PutTask, Ledger.Persist, Ledger.Use, Ledger.Fork, Ledger.NewTask, Ledger.Resume;
    assert s.ran + [] == s.ran;
  }

  lemma ResolveDoes(s: Tui, approved: bool, session: SessionId)
    requires s.desk.pending.Some?
    ensures var t, action := s.ResolvePending(approved, session), s.desk.pending.value;
            && t.panel.autoApprove == s.panel.autoApprove && t.desk.pending == None
            && t.desk.answers == s.desk.answers +
                 (if action.Tool? then [Answer(action.request, approved, s.mode.readOnly, s.mode.interrupted)] else [])
            && t.ran == s.ran + if approved && action.InlineCommand? then [action.command] else []
  {
    hide Ledger.Persist, Tui.BeginTurn, Tui.AddSession;
    assert s.ran + [] == s.ran && s.desk.answers + [] == s.desk.answers;
  }

  /** What a line does to the answers and the commands, whatever it is typed into. */
  ghost predicate LineOk(s: Tui, line: Typed, t: Tui) {
    && t.desk.answers == s.desk.answers + PendingReply(s, UserInput(line))
    && t.desk.pending == PendingAfter(s, UserInput(line))
    && t.ran == s.ran + RunBy(s, UserInput(line))
    && t.panel.autoApprove == (s.panel.autoApprove || ApprovesSession(s, UserInput(line)))
  }

  lemma ApprovalDoes(s: Tui, line: Typed)
    requires AtApproval(s)
    ensures LineOk(s, line, s.OnApprovalInput(line))
  {
    hide Tui.ResolvePending;
    assert s.ran + [] == s.ran && s.desk.answers + [] == s.desk.answers;
    ResolveDoes(s, true, line.session);
    ResolveDoes(s, false, line.session);
    ResolveDoes(s.(panel := s.panel.(autoApprove := true)), true, line.session);
  }

  lemma ElsewhereDoes(s: Tui, line: Typed, t: Tui)
    requires !AtApproval(s) && s.OverlayActive()
    requires t.desk == s.desk && t.ran == s.ran && t.panel.autoApprove == s.panel.autoApprove
    ensures LineOk(s, line, t)
  {
    assert s.ran + [] == s.ran && s.desk.answers + [] == s.desk.answers;
  }

  lemma OverlayDoes(s: Tui, line: Typed)
    requires s.OverlayActive()
    ensures LineOk(s, line, s.OnOverlayInput(line))
  {
    hide Ledger.Persist, Ledger.Resume, Tui.OnApprovalInput, LineOk;
    if AtApproval(s) {
      ApprovalDoes(s, line);
    } else {
      ElsewhereDoes(s, line, s.OnOverlayInput(line));
    }
  }

  lemma PromptDoes(s: Tui, line: Typed)
    requires AtPrompt(s)
    ensures LineOk(s, line, s.OnIdleInput(line))
  {
    hide Tui.HandleBang, Tui.OnSlash, Ledger.Persist;
    assert s.ran + [] == s.ran && s.desk.answers + [] == s.desk.answers;
    var quiet := s.(panel := s.panel.(pendingQuit := false, quitRequested := false));
    if line.bang.Some? { BangDoes(quiet, line.bang.value, line.session); }
    if line.slash.Some? { SlashDoes(quiet, line.slash.value, line.session); }
  }

  lemma LineDoes(s: Tui, line: Typed)
    ensures LineOk(s, line, s.OnUserInput(line))
  {
    hide Tui.HandleBang, Tui.OnOverlayInput, Tui.OnIdleInput;
    if s.OverlayActive() {
      OverlayDoes(s, line);
    } else if s.pulse.None? {
      PromptDoes(s, line);
    } else {
      assert s.ran + [] == s.ran && s.desk.answers + [] == s.desk.answers;
      if line.rawBang.Some? { BangDoes(s, line.rawBang.value, line.session); }
    }
  }

  /** Every answer sent by a step, what is pending after it, which command it starts, and whether it puts
      session approval in force. */
  lemma AnswersStep(s: Tui, e: Event)
    ensures s.Next(e).desk.answers == s.desk.answers + PendingReply(s, e) + ArrivalReply(s, e)
    ensures s.Next(e).desk.pending == PendingAfter(s, e)
    ensures s.Next(e).ran == s.ran + RunBy(s, e)
    ensures s.Next(e).panel.autoApprove == (s.panel.autoApprove || ApprovesSession(s, e))
  {
    hide Ledger.Persist, Ledger.Use, Tui.OnUserInput;
    assert s.desk.answers + [] == s.desk.answers && s.ran + [] == s.ran;
    match e {
      case UserInput(line) => LineDoes(s, line);
      case CommandSessionFinished(session) =>
        if s.pulse.Some? {
          assert s.pulse.value.sessions <= {session} <==> s.pulse.value.sessions - {session} == {};
        }
      case _ =>
    }
  }

  // ------------------------------------------------------------------------------------------
  // Every run.

  /** An answer to `r` goes out between two moments. */
  ghost predicate Replied(before: Tui, after: Tui, r: RequestId, approved: bool) {
    exists i :: |before.desk.answers| <= i < |after.desk.answers| &&
                after.desk.answers[i].request == r && after.desk.answers[i].approved == approved
  }

  /** A yes: the user approves while `r` is pending, or something in force allows it as it arrives. */
  predicate YesAt(s: Tui, e: Event, r: RequestId) {
    || (s.desk.pending == Some(Tool(r)) && Approves(s, e))
    || (e.ToolApprovalRequest? && e.request == r && AtArrival(s, e.capability) == Some(true))
  }

  /** A no: something refuses while `r` is pending, or it arrives in a read-only turn or a cancelled pulse. */
  predicate NoAt(s: Tui, e: Event, r: RequestId) {
    || (s.desk.pending == Some(Tool(r)) && Refuses(s, e))
    || (e.ToolApprovalRequest? && e.request == r && AtArrival(s, e.capability) == Some(false))
  }

  lemma RepliedIff(s: Tui, e: Event, r: RequestId)
    ensures s.desk.answers <= s.Next(e).desk.answers
    ensures Replied(s, s.Next(e), r, true) <==> YesAt(s, e, r)
    ensures Replied(s, s.Next(e), r, false) <==> NoAt(s, e, r)
  {
    AnswersStep(s, e);
    hide Tui.Next;
    var first, second, n := PendingReply(s, e), ArrivalReply(s, e), |s.desk.answers|;
    var answers := s.desk.answers + first + second;
    assert first != [] ==> answers[n] == first[0];
    assert second != [] ==> answers[n + |first|] == second[0];
    assert forall i :: n <= i < |answers| ==>
             (if i == n && first != [] then answers[i] == first[0] else second != [] && answers[i] == second[0]);
  }

  /** Over every run, event by event: a request is answered yes exactly when the user approves it or what is
      in force allows it, and no exactly when something refuses it. */
  lemma AnswersOverEveryRun(task: TaskId, force: bool, events: seq<Event>, k: nat, r: RequestId)
    requires k < |events|
    ensures var s, t := Run(Start(task, force), events[..k]), Run(Start(task, force), events[..k + 1]);
            && s.desk.answers <= t.desk.answers
            && (Replied(s, t, r, true) <==> YesAt(s, events[k], r))
            && (Replied(s, t, r, false) <==> NoAt(s, events[k], r))
  {
    hide Tui.Next, YesAt, NoAt, Replied;
    assert events[..k + 1][..k] == events[..k];
    RepliedIff(Run(Start(task, force), events[..k]), events[k], r);
  }

  /** Whoever is answered between two moments is answered rightly. */
  ghost predicate AnsweredRightly(s: Tui, e: Event, t: Tui) {
    && s.desk.answers <= t.desk.answers
    && forall r :: (Replied(s, t, r, true) <==> YesAt(s, e, r)) && (Replied(s, t, r, false) <==> NoAt(s, e, r))
  }

  lemma RightlyOverEveryRun(task: TaskId, force: bool, events: seq<Event>, k: nat)
    requires k < |events|
    ensures AnsweredRightly(Run(Start(task, force), events[..k]), events[k], Run(Start(task, force), events[..k + 1]))
  {
    hide Tui.Next, YesAt, NoAt, Replied, Run;
    AnswersOverEveryRun(task, force, events, k, 0);
    forall r { AnswersOverEveryRun(task, force, events, k, r); }
  }

  /** Each answer of a run was sent by one of its events. */
  lemma {:induction false} AnswerSentAt(task: TaskId, force: bool, events: seq<Event>, i: nat) returns (k: nat)
    requires i < |Run(Start(task, force), events).desk.answers|
    ensures k < |events|
    ensures var s, t := Run(Start(task, force), events[..k]), Run(Start(task, force), events[..k + 1]);
            && |s.desk.answers| <= i < |t.desk.answers|
            && t.desk.answers[i] == Run(Start(task, force), events).desk.answers[i]
    decreases |events|
  {
    hide Tui.Next;
    var n := |events| - 1;
    var s := Run(Start(task, force), events[..n]);
    AnswersOverEveryRun(task, force, events, n, 0);
    assert events[..n + 1] == events;
    if i < |s.desk.answers| {
      k := AnswerSentAt(task, force, events[..n], i);
      assert events[..n][..k] == events[..k] && events[..n][..k + 1] == events[..k + 1];
    } else {
      k := n;
    }
  }

  /** The commands the events start, in order. */
  function RunByAll(s: Tui, events: seq<Event>): seq<string> {
    if events == [] then []
    else RunByAll(s, events[..|events| - 1]) + RunBy(Run(s, events[..|events| - 1]), events[|events| - 1])
  }

  /** Some line approved for the session. */
  ghost predicate SessionApproved(s: Tui, events: seq<Event>) {
    exists k :: 0 <= k < |events| && ApprovesSession(Run(s, events[..k]), events[k])
  }

  /** Over every run: no command runs but those typed while approval is in force, those approved, and the
      rebuild of the index; and approval is in force for the session if and only if it was from the start
      or a line approved for the session. */
  lemma {:induction false} CommandsOverEveryRun(task: TaskId, force: bool, events: seq<Event>)
    ensures var s := Run(Start(task, force), events);
            && s.ran == RunByAll(Start(task, force), events)
            && (s.panel.autoApprove <==> force || SessionApproved(Start(task, force), events))
    decreases |events|
  {
    hide Tui.Next, RunBy, ApprovesSession;
    var s0 := Start(task, force);
    if events != [] {
      var before, last := events[..|events| - 1], events[|events| - 1];
      CommandsOverEveryRun(task, force, before);
      AnswersStep(Run(s0, before), last);
      assert forall k :: 0 <= k < |before| ==> before[..k] == events[..k];
      assert SessionApproved(s0, events) <==> SessionApproved(s0, before) || ApprovesSession(Run(s0, before), last) by {
        if ApprovesSession(Run(s0, before), last) {
          assert ApprovesSession(Run(s0, events[..|before|]), events[|before|]);
        }
        if SessionApproved(s0, before) {
          var k :| 0 <= k < |before| && ApprovesSession(Run(s0, before[..k]), before[k]);
          assert ApprovesSession(Run(s0, events[..k]), events[k]);
        }
      }
    }
  }
}
