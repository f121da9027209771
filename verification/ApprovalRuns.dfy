/** Once-scoped grants are used once, and what holds over every run of the approval protocol. */
module ApprovalRuns {
  import opened GrantLedger
  import opened ApprovalProtocol
  import opened ApprovalSafety
  import opened Wrappers

  // ------------------------------------------------------------------------------------------
  // Once means once.

  lemma SlashSound(s: Tui, command: Slash, session: SessionId)
    requires Sound(s.ledger)
    requires command.NewSession? || command.ForkSession? ==>
               command.task != s.ledger.taskId && command.task !in s.ledger.saved
    requires command.ForkSession? && command.parentSaved ==> NoOnceGrant(s.ledger)
    ensures Sound(s.OnSlash(command, session).ledger)
  {
    hide Sound;
    PersistSound(s.ledger);
    PersistSound(s.ledger.Persist());
    match command {
      case Allow(capability, scope) => PutSound(s.ledger, capability, scope);
      case DenyCapability(capability) => RemoveSound(s.ledger, capability);
      case NewSession(task) => NewTaskSound(s.ledger, task);
      case ForkSession(task, _) => ForkSoundIff(s.ledger, task);
      case ResumeSession(task) => if task in s.ledger.saved { ResumeSound(s.ledger, task); }
      case StartEditLoop =>
        var l1 := s.ledger.PutTask(WriteFile);
        var l2 := l1.PutTask(ApplyPatch);
        PutSound(s.ledger, WriteFile, Task);
        PutSound(l1, ApplyPatch, Task);
        PutSound(l2, RunCommand, Task);
        PersistSound(l2.PutTask(RunCommand));
      case _ =>
    }
  }

  lemma BangSound(s: Tui, command: string, session: SessionId)
    requires Sound(s.ledger)
    ensures Sound(s.HandleBang(command, session).ledger)
  {
    hide Sound;
    PersistSound(s.ledger);
    PersistSound(s.ledger.Persist());
    if RunCommand in s.ledger.grants {
      UseSound(s.ledger, RunCommand);
      PersistSound(s.ledger.Use(RunCommand).Persist());
    }
  }

  lemma OverlaySound(s: Tui, line: Typed)
    requires Sound(s.ledger)
    ensures Sound(s.OnOverlayInput(line).ledger)
  {
    hide Sound, Ledger.Persist, Ledger.Resume, Desk.Settle;
    PersistSound(s.ledger);
    PersistSound(s.ledger.Persist());
    if line.resume.ChooseTask? && line.resume.task in s.ledger.saved {
      ResumeSound(s.ledger, line.resume.task);
    }
  }

  lemma InputSound(s: Tui, line: Typed)
    requires Sound(s.ledger) && Fresh(s, UserInput(line)) && ForksWithoutOnceGrant(s, UserInput(line))
    ensures Sound(s.OnUserInput(line).ledger)
  {
    hide Sound, Tui.HandleBang, Tui.OnSlash, Tui.OnOverlayInput, Ledger.Persist;
    PersistSound(s.ledger);
    OverlaySound(s, line);
    var quiet := s.(panel := s.panel.(pendingQuit := false, quitRequested := false));
    if line.rawBang.Some? { BangSound(s, line.rawBang.value, line.session); }
    if line.bang.Some? { BangSound(quiet, line.bang.value, line.session); }
    if line.slash.Some? { SlashSound(quiet, line.slash.value, line.session); }
  }

  lemma NextSound(s: Tui, e: Event)
    requires Sound(s.ledger) && Fresh(s, e) && ForksWithoutOnceGrant(s, e)
    ensures Sound(s.Next(e).ledger)
  {
    hide Sound, Tui.OnUserInput, Desk.Settle, Desk.Take;
    PersistSound(s.ledger);
    match e {
      case ToolApprovalRequest(request, capability) =>
        if s.Granted(capability) { UseSound(s.ledger, capability.value); }
      case UserInput(line) => InputSound(s, line);
      case _ =>
    }
  }

  // ------------------------------------------------------------------------------------------
  // Every run.

  /** Conservation and safety over every run the runtime can produce. */
  lemma {:induction false} ApprovalsOverEveryRun(task: TaskId, force: bool, events: seq<Event>)
    requires WellFed(Start(task, force), events)
    ensures var s := Run(Start(task, force), events);
            Guarded(s) && Conserved(s.desk) && SafeAnswers(s.desk)
    decreases |events|
  {
    var s0 := Start(task, force);
    if events == [] {
      assert Answered([]) == [];
    } else {
      var before := events[..|events| - 1];
      WellFedPrefix(s0, events);
      ApprovalsOverEveryRun(task, force, before);
      assert events[..|events| - 1] == before;
      assert Fresh(Run(s0, events[..|events| - 1]), events[|events| - 1]);
      hide Guarded, Conserved, SafeAnswers, Tui.Next, Fresh;
      NextOk(Run(s0, before), events[|events| - 1]);
    }
  }

  lemma WellFedPrefix(s: Tui, events: seq<Event>)
    requires WellFed(s, events) && events != []
    ensures WellFed(s, events[..|events| - 1])
  {
    hide Fresh, Run;
    var before := events[..|events| - 1];
    forall i | 0 <= i < |before| ensures Fresh(Run(s, before[..i]), before[i]) {
      assert before[..i] == events[..i];
      assert Fresh(Run(s, events[..i]), events[i]);
    }
  }

  /** Each once-scoped grant is relied on at most once, over every run whose forks happen without one. */
  lemma {:induction false} GrantsOverEveryRun(task: TaskId, force: bool, events: seq<Event>)
    requires WellFed(Start(task, force), events)
    requires ForksSafely(Start(task, force), events)
    ensures Sound(Run(Start(task, force), events).ledger)
    decreases |events|
  {
    var s0 := Start(task, force);
    if events == [] {
      assert forall t, c, id :: !Holds(s0.ledger, t, c, id);
    } else {
      var before := events[..|events| - 1];
      WellFedPrefix(s0, events);
      forall i | 0 <= i < |before| ensures ForksWithoutOnceGrant(Run(s0, before[..i]), before[i]) {
        assert before[..i] == events[..i];
        assert ForksWithoutOnceGrant(Run(s0, events[..i]), events[i]);
      }
      GrantsOverEveryRun(task, force, before);
      assert events[..|events| - 1] == before;
      assert Fresh(Run(s0, events[..|events| - 1]), events[|events| - 1]);
      assert ForksWithoutOnceGrant(Run(s0, events[..|events| - 1]), events[|events| - 1]);
      hide Sound, Tui.Next, Fresh, ForksWithoutOnceGrant;
      NextSound(Run(s0, before), events[|events| - 1]);
    }
  }

  function Line(bang: Option<string>, slash: Option<Slash>): Event {
    UserInput(Typed(None, InvalidResume, false, None, false, bang, slash, 7))
  }

  /** A run in which forking does break it: one grant given once runs two commands. */
  lemma ForkRunsTwoCommands(parent: TaskId, child: TaskId)
    requires parent != child
    ensures var granted := Start(parent, false).Next(Line(None, Some(Allow(RunCommand, Once))));
            var forked := granted.Next(Line(None, Some(ForkSession(child, true))));
            var first := forked.Next(Line(Some("a"), None)).Next(CommandSessionFinished(7)).Next(PulseComplete);
            var second := first.Next(Line(None, Some(ResumeSession(parent)))).Next(Line(Some("b"), None));
            second.desk.pending == None && second.ledger.spent == [0, 0]
  {
    var granted := Start(parent, false).Next(Line(None, Some(Allow(RunCommand, Once))));
    var forked := granted.Next(Line(None, Some(ForkSession(child, true))));
    assert forked.ledger.grants == map[RunCommand := Grant(Once, 0)];
    assert forked.ledger.saved == map[parent := map[RunCommand := Grant(Once, 0)]];
    var running := forked.Next(Line(Some("a"), None));
    assert running.ledger.spent == [0] && running.pulse.value.sessions == {7};
    var first := running.Next(CommandSessionFinished(7)).Next(PulseComplete);
    assert first.pulse == None && first.desk.pending == None;
    assert first.ledger.saved[parent] == map[RunCommand := Grant(Once, 0)];
  }
}
