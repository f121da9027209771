/** The terminal mode as an object whose handlers update its fields; every handler refines the step of
    the approval protocol with the same name. */
module TuiMode {
  import opened GrantLedger
  import opened ApprovalProtocol
  import opened ApprovalSafety
  import opened ApprovalRuns
  import opened ApprovalAnswers
  import opened Wrappers

  class TuiMode {
    // the task document
    var taskId: TaskId
    var activeGrants: Grants
    var activePulse: Option<Pulse>
    // the documents on disk
    var saved: map<TaskId, Grants>
    // the overlay
    var pendingApproval: Option<Action>
    var autoApproveSession: bool
    var pendingResumeSelection: bool
    var pendingMemoryClear: bool
    // turn state
    var readOnlyTurnActive: bool
    var turnCompletionPending: bool
    var activeEditLoop: bool
    var pendingQuit: bool
    var quitRequested: bool
    // history
    ghost var received: seq<RequestId>
    ghost var answers: seq<Answer>
    ghost var interrupted: bool
    ghost var spent: seq<nat>
    ghost var ran: seq<string>
    var nextGrantId: nat

    ghost function Abs(): Tui
      reads this
    {
      Tui(Ledger(taskId, activeGrants, saved, spent, nextGrantId),
          Desk(pendingApproval, received, answers),
          Mode(readOnlyTurnActive, interrupted),
          activePulse,
          Panel(autoApproveSession, pendingResumeSelection, pendingMemoryClear, turnCompletionPending,
                activeEditLoop, pendingQuit, quitRequested), ran)
    }

    constructor (task: TaskId, force: bool)
      ensures Abs() == Start(task, force)
    {
      taskId, activeGrants, activePulse, saved := task, map[], None, map[];
      pendingApproval, autoApproveSession, pendingResumeSelection, pendingMemoryClear := None, force, false, false;
      readOnlyTurnActive, turnCompletionPending, activeEditLoop := false, false, false;
      pendingQuit, quitRequested, nextGrantId := false, false, 0;
      received, answers, interrupted, spent, ran := [], [], false, [], [];
    }

    method Respond(request: RequestId, approved: bool)
      modifies `answers
      ensures answers == old(answers) + [Answer(request, approved, readOnlyTurnActive, interrupted)]
    {
      answers := answers + [Answer(request, approved, readOnlyTurnActive, interrupted)];
    }

    method PersistTaskDocument()
      modifies `saved
      ensures saved == old(saved)[taskId := activeGrants]
      ensures Abs() == old(Abs()).Persist()
    {
      saved := saved[taskId := activeGrants];
    }

    method InsertGrant(capability: Capability, scope: Scope)
      modifies `activeGrants, `nextGrantId
      ensures Abs().ledger == old(Abs()).ledger.Put(capability, scope)
    {
      activeGrants := activeGrants[capability := Grant(scope, nextGrantId)];
      nextGrantId := nextGrantId + 1;
    }

    method GrantTaskCapability(capability: Capability)
      modifies `activeGrants, `nextGrantId
      ensures Abs().ledger == old(Abs()).ledger.PutTask(capability)
    {
      if capability in activeGrants {
        match activeGrants[capability].scope {
          case Task => return;
          case Session => return;
          case Once =>
        }
      }
      InsertGrant(capability, Task);
    }

    method ConsumeGrant(capability: Capability)
      requires capability in activeGrants
      modifies `activeGrants, `spent
      ensures Abs().ledger == old(Abs()).ledger.Use(capability)
    {
      var grant := activeGrants[capability];
      if grant.scope == Once {
        activeGrants := activeGrants - {capability};
        spent := spent + [grant.id];
      }
    }

    method BeginTurnCapture()
      modifies `activePulse, `turnCompletionPending, `saved
      ensures Abs() == old(Abs()).BeginTurn()
    {
      ResetTurnCapture();
      activePulse := Some(Pulse(false, {}));
      PersistTaskDocument();
    }

    method ResetTurnCapture()
      modifies `activePulse, `turnCompletionPending
      ensures activePulse == None && !turnCompletionPending
    {
      activePulse := None;
      turnCompletionPending := false;
    }

    method BeginCommandSessionWithId(session: SessionId)
      modifies `activePulse, `saved
      ensures Abs() == old(Abs()).AddSession(session)
    {
      if activePulse.Some? {
        activePulse := Some(activePulse.value.(sessions := activePulse.value.sessions + {session}));
      }
      PersistTaskDocument();
    }

    method StartCommandSession(command: string, session: SessionId)
      modifies `activePulse, `turnCompletionPending, `saved, `ran
      ensures Abs() == old(Abs()).StartCommandSession(command, session)
    {
      ran := ran + [command];
      var startingBatch := activePulse.None? || activePulse.value.sessions == {};
      if startingBatch {
        BeginTurnCapture();
      }
      BeginCommandSessionWithId(session);
    }

    method ResolvePendingApproval(approved: bool, session: SessionId)
      modifies `pendingApproval, `answers, `activePulse, `turnCompletionPending, `saved, `ran
      ensures Abs() == old(Abs()).ResolvePending(approved, session)
    {
      if pendingApproval.Some? {
        var action := pendingApproval.value;
        pendingApproval := None;
        match action {
          case Tool(request) =>
            if approved {
              PersistTaskDocument();
            }
            Respond(request, approved);
          case InlineCommand(command) =>
            if approved {
              StartCommandSession(command, session);
            }
        }
      }
    }

    method DeclinePendingApproval()
      modifies `pendingApproval, `answers, `activePulse, `turnCompletionPending, `saved, `ran
      ensures Abs() == old(Abs()).Decline()
      ensures unchanged(`activePulse, `turnCompletionPending, `saved, `ran)
      ensures Desk(pendingApproval, received, answers) ==
              old(Desk(pendingApproval, received, answers)).Settle(false, Mode(readOnlyTurnActive, interrupted))
    {
      ResolvePendingApproval(false, 0);
    }

    method LeavePulse()
      modifies `activePulse, `turnCompletionPending, `readOnlyTurnActive, `interrupted
      ensures Abs() == old(Abs()).EndPulse()
    {
      ResetTurnCapture();
      readOnlyTurnActive := false;
      interrupted := false;
    }

    method CompleteTurnIfIdle() returns (completed: bool)
      modifies this
      ensures Abs() == old(Abs()).CompleteTurnIfIdle()
      ensures completed <==> old(Abs().panel.completionPending && Abs().NoSessions())
    {
      var sessionsEmpty := activePulse.None? || activePulse.value.sessions == {};
      if !turnCompletionPending || !sessionsEmpty {
        return false;
      }
      DeclinePendingApproval();
      PersistTaskDocument();
      LeavePulse();
      return true;
    }

    method ApproveByGrant(request: RequestId, capability: Capability)
      requires capability in activeGrants
      modifies `activeGrants, `spent, `saved, `answers
      ensures Abs().ledger == old(Abs()).ledger.Use(capability).Persist()
      ensures Abs().desk == old(Abs()).desk.Send(request, true, Abs().mode)
    {
      ConsumeGrant(capability);
      PersistTaskDocument();
      Respond(request, true);
    }

    /** The part of the request handler after the old approval has been declined. */
    method DecideToolRequest(request: RequestId, capability: Option<Capability>)
      requires !Abs().CancelPending()
      modifies `activeGrants, `spent, `saved, `answers, `pendingApproval
      ensures Abs().ledger == LedgerFor(old(Abs()).ledger, old(Abs()).FateOf(capability), autoApproveSession, capability)
      ensures Abs().desk == old(Abs()).desk.Conclude(request, old(Abs()).FateOf(capability), Abs().mode)
    {
      if readOnlyTurnActive {
        Respond(request, false);
        return;
      }
      if autoApproveSession {
        PersistTaskDocument();
        Respond(request, true);
        return;
      }
      if capability.Some? && capability.value in activeGrants {
        ApproveByGrant(request, capability.value);
        return;
      }
      pendingApproval := Some(Tool(request));
      PersistTaskDocument();
    }

    method OnToolApprovalRequest(request: RequestId, capability: Option<Capability>)
      modifies this
      ensures Abs() == old(Abs()).OnToolRequest(request, capability)
    {
      hide LedgerFor, Desk.Settle, Desk.Send, Desk.Conclude, Tui.Decline;
      ghost var s := Abs();
      received := received + [request];
      assert Abs() == s.(desk := s.desk.Receive(request));
      if activePulse.Some? && activePulse.value.cancelPending {
        RefuseAtOnce(request, capability);
        return;
      }
      DeclineThenDecide(request, capability);
    }

    method DeclineThenDecide(request: RequestId, capability: Option<Capability>)
      requires !Abs().CancelPending()
      modifies `activeGrants, `spent, `saved, `answers, `pendingApproval, `activePulse, `turnCompletionPending, `ran
      ensures unchanged(`activePulse, `turnCompletionPending, `ran)
      ensures Abs().ledger == LedgerFor(old(Abs()).ledger, old(Abs()).FateOf(capability), autoApproveSession, capability)
      ensures Abs().desk ==
              old(Abs()).desk.Settle(false, Abs().mode).Conclude(request, old(Abs()).FateOf(capability), Abs().mode)
    {
      hide LedgerFor, Desk.Settle, Desk.Conclude;
      ghost var fate := Abs().FateOf(capability);
      DeclinePendingApproval();
      assert Abs().FateOf(capability) == fate;
      DecideToolRequest(request, capability);
    }

    method RefuseAtOnce(request: RequestId, capability: Option<Capability>)
      modifies `answers
      ensures Abs().desk == old(Abs()).desk.Send(request, false, Abs().mode)
      ensures LedgerFor(Abs().ledger, RefusedAtOnce, autoApproveSession, capability) == Abs().ledger
    {
      Respond(request, false);
    }

    method OnEditLoopComplete()
      modifies this
      ensures Abs() == old(Abs()).OnEditLoopComplete()
    {
      if activePulse.Some? {
        activePulse := Some(activePulse.value.(sessions := {}));
      }
      DeclinePendingApproval();
      if activePulse.Some? {
        PersistTaskDocument();
      }
      LeavePulse();
    }

    method OnError()
      modifies this
      ensures Abs() == old(Abs()).OnError()
    {
      if activePulse.Some? {
        activePulse := Some(activePulse.value.(sessions := {}));
      }
      DeclinePendingApproval();
      PersistTaskDocument();
      LeavePulse();
    }

    method OnInterrupt()
      modifies this
      ensures Abs() == old(Abs()).OnInterrupt()
    {
      hide Tui.CancelPulse, Tui.ArmQuit;
      if activePulse.Some? {
        if activePulse.value.cancelPending {
          return;
        }
        CancelActivePulse();
        return;
      }
      ArmQuit();
    }

    method ArmQuit()
      modifies `pendingQuit, `quitRequested
      ensures Abs() == old(Abs()).ArmQuit()
    {
      if pendingQuit {
        quitRequested := true;
      } else {
        pendingQuit := true;
      }
    }

    method CancelActivePulse()
      requires activePulse.Some?
      modifies this
      ensures Abs() == old(Abs()).CancelPulse()
    {
      hide Desk.Settle, Ledger.Persist;
      DeclinePendingApproval();
      ghost var s := Abs();
      MarkCancelled();
      assert Abs() == s.(mode := s.mode.(interrupted := true), pulse := Some(s.pulse.value.(cancelPending := true)),
                         panel := s.panel.(pendingQuit := false, quitRequested := false));
      if activePulse.value.sessions != {} {
        PersistTaskDocument();
      }
    }

    method MarkCancelled()
      requires activePulse.Some?
      modifies `interrupted, `activePulse, `pendingQuit, `quitRequested
      ensures interrupted && !pendingQuit && !quitRequested
      ensures activePulse == Some(old(activePulse).value.(cancelPending := true))
    {
      interrupted := true;
      activePulse := Some(activePulse.value.(cancelPending := true));
      pendingQuit := false;
      quitRequested := false;
    }

    method HandleBangCommand(command: string, session: SessionId)
      modifies this
      ensures Abs() == old(Abs()).HandleBang(command, session)
    {
      if command == "" {
        return;
      }
      if autoApproveSession {
        StartCommandSession(command, session);
        return;
      }
      if RunCommand in activeGrants {
        ConsumeGrant(RunCommand);
        StartCommandSession(command, session);
        return;
      }
      pendingApproval := Some(InlineCommand(command));
      PersistTaskDocument();
    }

    method HandleApprovalInput(line: Typed)
      modifies this
      ensures Abs() == old(Abs()).OnApprovalInput(line)
    {
      match line.selection {
        case Some(ApproveOnce) => ResolvePendingApproval(true, line.session);
        case Some(ApproveSession) =>
          autoApproveSession := true;
          ResolvePendingApproval(true, line.session);
        case Some(Deny) => ResolvePendingApproval(false, line.session);
        case None =>
      }
    }

    method ResetSessionSurface()
      modifies `activePulse, `turnCompletionPending, `readOnlyTurnActive
      ensures Abs() == old(Abs()).ResetSurface()
    {
      readOnlyTurnActive := false;
      ResetTurnCapture();
    }

    /** `task_doc = …`: another document takes the place of the current one, without a pulse. */
    method AdoptDocument(task: TaskId, grants: Grants)
      modifies `taskId, `activeGrants, `activePulse
      ensures Abs() == old(Abs()).(ledger := old(Abs()).ledger.(taskId := task, grants := grants), pulse := None)
    {
      taskId, activeGrants, activePulse := task, grants, None;
    }

    method ApplyResumedTask(task: TaskId)
      modifies this
      ensures Abs() == old(Abs()).ApplyResumed(task)
    {
      if task in saved {
        AdoptDocument(task, saved[task]);
        activeEditLoop := false;
        ResetSessionSurface();
      }
    }

    method HandleResumeSelectionInput(line: Typed)
      modifies this
      ensures Abs() == old(Abs()).OnResumeInput(line)
    {
      match line.resume {
        case CancelResume => pendingResumeSelection := false;
        case InvalidResume =>
        case ChooseTask(task) =>
          pendingResumeSelection := false;
          ApplyResumedTask(task);
      }
    }

    method HandleMemoryClearInput(line: Typed)
      modifies this
      ensures Abs() == old(Abs()).OnMemoryClearInput(line)
    {
      pendingMemoryClear := false;
      if line.clearsMemory {
        PersistTaskDocument();
      }
    }

    method HandleSlashCommand(command: Slash, session: SessionId)
      modifies this
      ensures Abs() == old(Abs()).OnSlash(command, session)
    {
      hide Tui.StartCommandSession, Tui.BeginTurn, Tui.ApplyResumed, Tui.NewDocument, Tui.ForkDocument;
      hide Ledger.Put, Ledger.PutTask, Ledger.Persist, TuiMode.Abs;
      match command {
        case Allow(capability, scope) => HandleAllowCommand(capability, scope);
        case DenyCapability(capability) => HandleDenyCommand(capability);
        case NewSession(task) => HandleNewCommand(task);
        case ForkSession(task, parentSaved) => HandleForkCommand(task, parentSaved);
        case ResumeSession(task) => ApplyResumedTask(task);
        case PromptResume => PromptResumeSelection();
        case Compact => HandleCompactCommand();
        case ClearMemory => PromptMemoryClear();
        case EditMemory => PersistTaskDocument();
        case StartTurn(readOnly) => StartSingleTurn(readOnly);
        case StartEditLoop => HandleEditCommand();
        case Reindex => StartCommandSession(REINDEX, session);
        case OtherCommand =>
      }
    }

    method HandleAllowCommand(capability: Capability, scope: Scope)
      modifies this
      ensures Abs() == old(Abs()).OnSlash(Allow(capability, scope), 0)
    {
      InsertGrant(capability, scope);
    }

    method HandleDenyCommand(capability: Capability)
      modifies this
      ensures Abs() == old(Abs()).OnSlash(DenyCapability(capability), 0)
    {
      activeGrants := activeGrants - {capability};
    }

    method PromptResumeSelection()
      modifies this
      ensures Abs() == old(Abs()).OnSlash(PromptResume, 0)
    {
      pendingResumeSelection := true;
    }

    method PromptMemoryClear()
      modifies this
      ensures Abs() == old(Abs()).OnSlash(ClearMemory, 0)
    {
      pendingMemoryClear := true;
    }

    method StartSingleTurn(readOnly: bool)
      modifies this
      ensures Abs() == old(Abs()).OnSlash(StartTurn(readOnly), 0)
    {
      readOnlyTurnActive := readOnly;
      BeginTurnCapture();
    }

    method HandleNewCommand(task: TaskId)
      modifies this
      ensures Abs() == old(Abs()).NewDocument(task)
    {
      PersistTaskDocument();
      AdoptDocument(task, map[]);
      activeEditLoop := false;
      ResetSessionSurface();
    }

    method HandleForkCommand(task: TaskId, parentSaved: bool)
      modifies this
      ensures Abs() == old(Abs()).ForkDocument(task, parentSaved)
    {
      if !parentSaved {
        return;
      }
      PersistTaskDocument();
      AdoptDocument(task, activeGrants);
      ResetSessionSurface();
    }

    method HandleCompactCommand()
      modifies this
      ensures Abs() == old(Abs()).OnSlash(Compact, 0)
    {
      activeEditLoop := false;
      PersistTaskDocument();
      ResetSessionSurface();
    }

    method HandleEditCommand()
      modifies this
      ensures Abs() == old(Abs()).OnSlash(StartEditLoop, 0)
    {
      hide Ledger.PutTask, Ledger.Persist, Tui.BeginTurn;
      GrantEditCapabilities();
      activeEditLoop := true;
      BeginTurnCapture();
    }

    method GrantEditCapabilities()
      modifies `activeGrants, `nextGrantId
      ensures Abs().ledger == old(Abs()).ledger.PutTask(WriteFile).PutTask(ApplyPatch).PutTask(RunCommand)
    {
      hide Ledger.PutTask;
      GrantTaskCapability(WriteFile);
      GrantTaskCapability(ApplyPatch);
      GrantTaskCapability(RunCommand);
    }

    method OnUserInput(line: Typed)
      modifies this
      ensures Abs() == old(Abs()).OnUserInput(line)
    {
      assert Abs().HandleBang("", line.session) == Abs();
      hide Tui.HandleBang, Tui.OnSlash, Tui.OnApprovalInput, Tui.OnResumeInput, Tui.OnMemoryClearInput, Tui.BeginTurn;
      if pendingApproval.Some? || pendingResumeSelection || pendingMemoryClear {
        if pendingMemoryClear {
          HandleMemoryClearInput(line);
        } else if pendingResumeSelection {
          HandleResumeSelectionInput(line);
        } else {
          HandleApprovalInput(line);
        }
        return;
      }
      if activePulse.Some? {
        if activeEditLoop && line.rawEdit {
          return;
        }
        if !activePulse.value.cancelPending {
          if line.rawBang.Some? && activePulse.value.sessions != {} && line.rawBang.value != "" {
            HandleBangCommand(line.rawBang.value, line.session);
          }
        }
        return;
      }
      pendingQuit := false;
      quitRequested := false;
      if line.bang.Some? {
        HandleBangCommand(line.bang.value, line.session);
        return;
      }
      if line.slash.Some? {
        HandleSlashCommand(line.slash.value, line.session);
        return;
      }
      BeginTurnCapture();
    }

    method OnCommandSessionFinished(session: SessionId)
      modifies this
      ensures Abs() == old(Abs()).DropSession(session).CompleteTurnIfIdle()
    {
      if activePulse.Some? {
        activePulse := Some(activePulse.value.(sessions := activePulse.value.sessions - {session}));
      }
      var _ := CompleteTurnIfIdle();
    }

    method OnTurnComplete()
      modifies this
      ensures Abs() == old(Abs()).(panel := old(Abs()).panel.(completionPending := true)).CompleteTurnIfIdle()
    {
      turnCompletionPending := true;
      var _ := CompleteTurnIfIdle();
    }

    method Handle(e: Event)
      modifies this
      ensures Abs() == old(Abs()).Next(e)
    {
      hide TuiMode.Abs;
      match e {
        case ToolApprovalRequest(request, capability) => OnToolApprovalRequest(request, capability);
        case EditLoopComplete => OnEditLoopComplete();
        case CommandSessionStarted(session) => BeginCommandSessionWithId(session);
        case CommandSessionFinished(session) => OnCommandSessionFinished(session);
        case PulseComplete => OnTurnComplete();
        case PulseError => OnError();
        case OtherUpdate =>
        case Interrupt => OnInterrupt();
        case UserInput(line) => OnUserInput(line);
      }
    }
  }

  /** Whatever the runtime feeds the object: each request it received was answered once or is the one
      pending, yes exactly where the user approved it or something in force allowed it, and never in a
      read-only turn or an interrupted pulse; no command ran but those typed with approval in force and those
      approved; and as long as no fork happened with a once-scoped grant in force, each of those was relied
      on at most once. */
  method RunSession(task: TaskId, force: bool, events: seq<Event>) returns (mode: TuiMode)
    requires WellFed(Start(task, force), events)
    ensures fresh(mode) && mode.Abs() == Run(Start(task, force), events)
    ensures Guarded(mode.Abs()) && Conserved(mode.Abs().desk) && SafeAnswers(mode.Abs().desk)
    ensures forall k :: 0 <= k < |events| ==>
              AnsweredRightly(Run(Start(task, force), events[..k]), events[k], Run(Start(task, force), events[..k + 1]))
    ensures mode.ran == RunByAll(Start(task, force), events)
    ensures mode.autoApproveSession <==> force || SessionApproved(Start(task, force), events)
    ensures ForksSafely(Start(task, force), events) ==> SpentOnce(mode.Abs().ledger)
  {
    hide Tui.Next, TuiMode.Abs, Guarded, Conserved, SafeAnswers, Sound, WellFed, ForksSafely;
    hide AnsweredRightly, RunByAll, SessionApproved;
    ghost var start := Start(task, force);
    ApprovalsOverEveryRun(task, force, events);
    CommandsOverEveryRun(task, force, events);
    forall k | 0 <= k < |events|
      ensures AnsweredRightly(Run(start, events[..k]), events[k], Run(start, events[..k + 1]))
    {
      RightlyOverEveryRun(task, force, events, k);
    }
    if ForksSafely(start, events) {
      GrantsOverEveryRun(task, force, events);
      SoundSpendsOnce(Run(start, events).ledger);
    }
    mode := new TuiMode(task, force);
    for i := 0 to |events|
      invariant fresh(mode) && mode.Abs() == Run(start, events[..i])
    {
      assert events[..i + 1][..i] == events[..i];
      mode.Handle(events[i]);
    }
    assert events[..|events|] == events;
    AbsSays(mode);
  }

  lemma AbsSays(mode: TuiMode)
    ensures mode.Abs().ran == mode.ran && mode.Abs().panel.autoApprove == mode.autoApproveSession
  {
  }

  lemma SoundSpendsOnce(l: Ledger)
    requires Sound(l)
    ensures SpentOnce(l)
  {
  }
}
