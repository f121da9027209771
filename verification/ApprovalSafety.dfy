/** What every step of the approval protocol keeps: no responder is lost or answered twice, and no yes slips
    out in a read-only turn or an interrupted pulse. */
module ApprovalSafety {
  import opened GrantLedger
  import opened ApprovalProtocol
  import opened Wrappers

  // ------------------------------------------------------------------------------------------
  // Conservation of responders.

  function Answered(answers: seq<Answer>): seq<RequestId> {
    seq(|answers|, i requires 0 <= i < |answers| => answers[i].request)
  }

  function Waiting(d: Desk): multiset<RequestId> {
    if d.Holding() then multiset{d.pending.value.request} else multiset{}
  }

  ghost predicate Balanced(d: Desk) {
    multiset(d.received) == multiset(Answered(d.answers)) + Waiting(d)
  }

  ghost predicate NoRepeats(d: Desk) {
    forall r :: r in d.received ==> multiset(d.received)[r] == 1
  }

  /** Every request received is answered exactly once, or is the one that is pending. */
  ghost predicate Conserved(d: Desk) {
    Balanced(d) && NoRepeats(d)
  }

  lemma SendCounts(d: Desk, request: RequestId, approved: bool, mode: Mode)
    ensures multiset(Answered(d.Send(request, approved, mode).answers)) == multiset(Answered(d.answers)) + multiset{request}
  {
    assert Answered(d.Send(request, approved, mode).answers) == Answered(d.answers) + [request];
  }

  /** Settling only moves a responder from waiting to answered. */
  lemma SettleBalances(d: Desk, approved: bool, mode: Mode)
    ensures multiset(Answered(d.Settle(approved, mode).answers)) == multiset(Answered(d.answers)) + Waiting(d)
    ensures Balanced(d) ==> Balanced(d.Settle(approved, mode))
  {
    if d.Holding() {
      SendCounts(d.(pending := None), d.pending.value.request, approved, mode);
    }
  }

  lemma ReceiveKeepsNoRepeats(d: Desk, request: RequestId)
    requires NoRepeats(d) && request !in d.received
    ensures NoRepeats(d.Receive(request))
    ensures multiset(d.Receive(request).received) == multiset(d.received) + multiset{request}
  {
    assert request !in multiset(d.received);
  }

  /** Between its arrival and its answer a request is owed an answer on top of the balance. */
  ghost predicate Owes(d: Desk, request: RequestId) {
    multiset(d.received) == multiset(Answered(d.answers)) + Waiting(d) + multiset{request}
  }

  lemma SettleOwes(d: Desk, request: RequestId, mode: Mode)
    requires Owes(d, request)
    ensures Owes(d.Settle(false, mode), request) && d.Settle(false, mode).pending == None
  {
    SettleBalances(d, false, mode);
  }

  lemma SendPays(d: Desk, request: RequestId, approved: bool, mode: Mode)
    requires Owes(d, request)
    ensures Balanced(d.Send(request, approved, mode))
  {
    SendCounts(d, request, approved, mode);
  }

  lemma ConcludePays(d: Desk, request: RequestId, fate: Fate, mode: Mode)
    requires Owes(d, request) && d.pending == None
    ensures Balanced(d.Conclude(request, fate, mode))
  {
    SendPays(d, request, fate == Approved, mode);
    hide Answered;
    if fate == Asked {
      assert Waiting(d.Park(Tool(request))) == multiset{request};
    }
  }

  lemma ReceiveOwes(d: Desk, request: RequestId)
    requires Conserved(d) && request !in d.received
    ensures NoRepeats(d.Receive(request)) && Owes(d.Receive(request), request)
  {
    ReceiveKeepsNoRepeats(d, request);
  }

  /** The new request itself is answered on the spot or becomes the pending one. */
  lemma TakeConserves(d: Desk, request: RequestId, fate: Fate, mode: Mode)
    requires Conserved(d) && request !in d.received
    ensures Conserved(d.Take(request, fate, mode))
  {
    var arrived := d.Receive(request);
    ReceiveOwes(d, request);
    SettleOwes(arrived, request, mode);
    SendPays(arrived, request, false, mode);
    ConcludePays(arrived.Settle(false, mode), request, fate, mode);
    hide Balanced, Owes, Answered;
    assert d.Take(request, fate, mode).received == arrived.received;
  }

  /** What any other event can do to the desk: nothing, settle the pending approval, or, with none
      pending, ask about an inline command. */
  ghost predicate Handled(before: Tui, after: Tui) {
    || after.desk == before.desk
    || (exists approved :: after.desk == before.desk.Settle(approved, before.mode))
    || (before.desk.pending == None && exists command :: after.desk == before.desk.Park(InlineCommand(command)))
  }

  lemma HandledConserves(before: Tui, after: Tui)
    requires Conserved(before.desk) && Handled(before, after)
    ensures Conserved(after.desk)
  {
    if after.desk != before.desk && exists approved :: after.desk == before.desk.Settle(approved, before.mode) {
      var approved :| after.desk == before.desk.Settle(approved, before.mode);
      SettleBalances(before.desk, approved, before.mode);
    }
  }

  // ------------------------------------------------------------------------------------------
  // Safety of the answers.

  /** What keeps a yes from slipping out at the wrong time. */
  ghost predicate Guarded(s: Tui) {
    && (s.mode.readOnly ==> s.pulse.Some? && !s.desk.Holding())
    && (s.mode.interrupted ==> s.CancelPending())
    && (s.CancelPending() ==> s.desk.pending == None)
    && (s.panel.resumeSelection || s.panel.memoryClear ==>
          s.pulse == None && (s.desk.pending.Some? ==> s.desk.Holding()))
  }

  ghost predicate SafeAnswers(d: Desk) {
    forall i :: 0 <= i < |d.answers| && d.answers[i].approved ==>
                  !d.answers[i].readOnly && !d.answers[i].interrupted
  }

  /** One event done right: the desk is only handled as allowed, the guard stays, and a yes goes out
      only outside read-only turns and interrupted pulses. */
  ghost predicate StepOk(s: Tui, t: Tui) {
    && Handled(s, t)
    && Guarded(t)
    && (SafeAnswers(s.desk) ==> SafeAnswers(t.desk))
  }

  lemma SettleSafe(d: Desk, approved: bool, mode: Mode)
    requires SafeAnswers(d)
    requires approved && d.Holding() ==> !mode.readOnly && !mode.interrupted
    ensures SafeAnswers(d.Settle(approved, mode))
  {
  }

  lemma ResolveOk(s: Tui, approved: bool, session: SessionId)
    requires Guarded(s)
    ensures StepOk(s, s.ResolvePending(approved, session))
  {
    assert Handled(s, s.(desk := s.desk.Settle(approved, s.mode)));
    if SafeAnswers(s.desk) { SettleSafe(s.desk, approved, s.mode); }
    hide Tui.StartCommandSession, Ledger.Persist, SafeAnswers;
  }

  lemma ToolRequestOk(s: Tui, request: RequestId, capability: Option<Capability>)
    requires Guarded(s)
    ensures Guarded(s.OnToolRequest(request, capability))
    ensures SafeAnswers(s.desk) ==> SafeAnswers(s.OnToolRequest(request, capability).desk)
  {
    hide Ledger.Use, Ledger.Persist;
  }

  lemma CompleteOk(s: Tui)
    requires Guarded(s)
    ensures StepOk(s, s.CompleteTurnIfIdle())
  {
    EndOk(s, s.ledger.Persist());
  }

  /** Every way out of a pulse declines what is pending and forgets the pulse. */
  lemma EndOk(s: Tui, ledger: Ledger)
    requires Guarded(s)
    ensures StepOk(s, s.Decline().(ledger := ledger).EndPulse())
  {
    assert Handled(s, s.Decline());
    if SafeAnswers(s.desk) { SettleSafe(s.desk, false, s.mode); }
    hide SafeAnswers;
  }

  lemma InterruptOk(s: Tui)
    requires Guarded(s)
    ensures StepOk(s, s.OnInterrupt())
  {
    assert Handled(s, s.Decline());
    if SafeAnswers(s.desk) { SettleSafe(s.desk, false, s.mode); }
    hide SafeAnswers, Ledger.Persist;
  }

  lemma BangOk(s: Tui, command: string, session: SessionId)
    requires Guarded(s) && !s.OverlayActive() && !s.CancelPending()
    ensures StepOk(s, s.HandleBang(command, session))
  {
    assert Handled(s, s.(desk := s.desk.Park(InlineCommand(command))));
    hide Tui.StartCommandSession, Ledger.Persist, Ledger.Use, SafeAnswers;
  }

  lemma SlashOk(s: Tui, command: Slash, session: SessionId)
    requires Guarded(s) && !s.OverlayActive() && s.pulse == None
    ensures StepOk(s, s.OnSlash(command, session))
  {
    hide Tui.StartCommandSession, Ledger.Persist, Ledger.PutTask, Ledger.Put, Ledger.Remove, SafeAnswers;
  }

  lemma IdleOk(s: Tui, line: Typed)
    requires Guarded(s) && !s.OverlayActive() && s.pulse == None
    ensures StepOk(s, s.OnIdleInput(line))
  {
    var quiet := s.(panel := s.panel.(pendingQuit := false, quitRequested := false));
    if line.bang.Some? {
      BangOk(quiet, line.bang.value, line.session);
    } else if line.slash.Some? {
      SlashOk(quiet, line.slash.value, line.session);
    }
    hide Tui.HandleBang, Tui.OnSlash, SafeAnswers;
  }

  lemma ApprovalOk(s: Tui, line: Typed)
    requires Guarded(s)
    ensures StepOk(s, s.OnApprovalInput(line))
  {
    ResolveOk(s, true, line.session);
    ResolveOk(s, false, line.session);
    var always := s.(panel := s.panel.(autoApprove := true));
    ResolveOk(always, true, line.session);
    SameStep(s, always, always.ResolvePending(true, line.session));
    IdleOkay(s);
    hide Tui.ResolvePending, StepOk, Guarded;
  }

  lemma SameStep(s: Tui, like: Tui, t: Tui)
    requires like == s.(panel := s.panel.(autoApprove := true)) && StepOk(like, t)
    ensures StepOk(s, t)
  {
    hide SafeAnswers, Guarded;
  }

  lemma IdleOkay(s: Tui)
    requires Guarded(s)
    ensures StepOk(s, s)
  {
    hide SafeAnswers;
  }

  lemma OverlayOk(s: Tui, line: Typed)
    requires Guarded(s) && s.OverlayActive()
    ensures StepOk(s, s.OnOverlayInput(line))
  {
    ApprovalOk(s, line);
    hide Tui.OnApprovalInput, SafeAnswers, Ledger.Persist, Ledger.Resume;
  }

  lemma InputOk(s: Tui, line: Typed)
    requires Guarded(s)
    ensures StepOk(s, s.OnUserInput(line))
  {
    if s.OverlayActive() {
      OverlayOk(s, line);
    } else if s.pulse.None? {
      IdleOk(s, line);
    } else if line.rawBang.Some? && !s.CancelPending() {
      BangOk(s, line.rawBang.value, line.session);
    }
    hide Tui.OnOverlayInput, Tui.OnIdleInput, Tui.HandleBang, SafeAnswers;
  }

  lemma IdleHandled(s: Tui, t: Tui)
    requires t.desk == s.desk
    ensures Handled(s, t)
  {
  }

  lemma NextOk(s: Tui, e: Event)
    requires Guarded(s) && Fresh(s, e)
    ensures Guarded(s.Next(e))
    ensures Conserved(s.desk) ==> Conserved(s.Next(e).desk)
    ensures SafeAnswers(s.desk) ==> SafeAnswers(s.Next(e).desk)
  {
    hide Tui.OnUserInput, Tui.CompleteTurnIfIdle, Tui.OnInterrupt, Tui.EndPulse, Conserved, SafeAnswers, Handled;
    match e {
    case ToolApprovalRequest(request, capability) =>
      ToolRequestOk(s, request, capability);
      if Conserved(s.desk) { TakeConserves(s.desk, request, s.FateOf(capability), s.mode); }
    case EditLoopComplete =>
      EndOk(s, s.ledger);
      EndOk(s, s.ledger.Persist());
    case CommandSessionStarted(session) => IdleHandled(s, s.AddSession(session));
    case CommandSessionFinished(session) => CompleteOk(s.DropSession(session));
    case PulseComplete => CompleteOk(s.(panel := s.panel.(completionPending := true)));
    case PulseError => EndOk(s, s.ledger.Persist());
    case OtherUpdate => IdleHandled(s, s);
    case Interrupt => InterruptOk(s);
    case UserInput(line) => InputOk(s, line);
    }
    if Conserved(s.desk) && !e.ToolApprovalRequest? {
      var before := match e
        case CommandSessionFinished(session) => s.DropSession(session)
        case PulseComplete => s.(panel := s.panel.(completionPending := true))
        case _ => s;
      assert before.desk == s.desk;
      HandledConserves(before, s.Next(e));
    }
  }

  /** A read-only turn stays read-only, and an interrupted pulse stays interrupted, until that pulse is
      over; so the mode recorded with an answer is the one the user asked for. */
  lemma ModeLasts(s: Tui, e: Event)
    requires Guarded(s)
    ensures s.mode.readOnly ==> s.Next(e).mode.readOnly || s.Next(e).pulse == None
    ensures s.mode.interrupted ==> s.Next(e).mode.interrupted || s.Next(e).pulse == None
    ensures e == Interrupt && s.pulse.Some? && !s.CancelPending() ==> s.Next(e).mode.interrupted
    ensures (e.UserInput? && !s.OverlayActive() && s.pulse == None && e.line.bang == None &&
             e.line.slash == Some(StartTurn(true))) ==> s.Next(e).mode.readOnly
  {
    hide Ledger.Persist, Ledger.Use, Desk.Settle, Desk.Take;
  }
}
