/** What every event does to the grants, the documents on disk, the pulse and the switches of the mode. */
module ApprovalEffects {
  import opened GrantLedger
  import opened ApprovalProtocol
  import opened ApprovalAnswers
  import opened Wrappers

  // ------------------------------------------------------------------------------------------
  // What an event comes to.

  function SlashOf(s: Tui, e: Event): Slash {
    if e.UserInput? && SlashTyped(s, e.line).Some? then SlashTyped(s, e.line).value else OtherCommand
  }

  /** The task whose document the event brings back. */
  function Resumed(s: Tui, e: Event): Option<TaskId> {
    if !e.UserInput? then None
    else
      var task := if AtResume(s) && e.line.resume.ChooseTask? then Some(e.line.resume.task)
                  else if SlashOf(s, e).ResumeSession? then Some(SlashOf(s, e).task)
                  else None;
      if task.Some? && task.value in s.ledger.saved then task else None
  }

  /** The capability whose grant the event relies on. */
  function Relied(s: Tui, e: Event): Option<Capability> {
    if s.panel.autoApprove then None
    else
      match e
      case ToolApprovalRequest(_, capability) => if AtArrival(s, capability) == Some(true) then capability else None
      case UserInput(line) =>
        if CommandTyped(s, line).Some? && RunCommand in s.ledger.grants then Some(RunCommand) else None
      case _ => None
  }

  /** The part of an event that matters here. */
  datatype Kind = Kind(
    slash: Slash,
    resumed: Option<TaskId>,
    relied: Option<Capability>,
    starts: bool,
    asks: bool,
    approves: bool,
    forSession: bool,
    typed: bool)

  const PLAIN := Kind(OtherCommand, None, None, false, false, false, false, false)

  function KindOf(s: Tui, e: Event): Kind {
    Kind(SlashOf(s, e), Resumed(s, e), Relied(s, e), RunBy(s, e) != [], e.UserInput? && AsksModel(s, e.line),
         Approves(s, e), ApprovesSession(s, e), e.UserInput? && CommandTyped(s, e.line).Some?)
  }

  // ------------------------------------------------------------------------------------------
  // Grants.

  /** The scope in which a capability is granted, if it is. */
  function ScopeOf(grants: Grants, c: Capability): Option<Scope> {
    if c in grants then Some(grants[c].scope) else None
  }

  /** A grant lasts until it is denied, replaced, used up or left behind with its task. */
  function ScopeAfter(l: Ledger, k: Kind, c: Capability): Option<Scope> {
    var scope := ScopeOf(l.grants, c);
    if k.resumed.Some? && k.resumed.value in l.saved then ScopeOf(l.saved[k.resumed.value], c)
    else if k.relied == Some(c) && scope == Some(Once) then None
    else
      match k.slash
      case Allow(capability, granted) => if capability == c then Some(granted) else scope
      case DenyCapability(capability) => if capability == c then None else scope
      case NewSession(_) => None
      case StartEditLoop =>
        if c in {WriteFile, ApplyPatch, RunCommand} && (scope.None? || scope == Some(Once)) then Some(Task) else scope
      case _ => scope
  }

  /** The task whose document is in hand. */
  function TaskAfter(l: Ledger, k: Kind): TaskId {
    if k.resumed.Some? then k.resumed.value
    else
      match k.slash
      case NewSession(task) => task
      case ForkSession(task, parentSaved) => if parentSaved then task else l.taskId
      case _ => l.taskId
  }

  lemma PutScope(l: Ledger, c: Capability, scope: Scope)
    ensures forall other :: ScopeOf(l.Put(c, scope).grants, other) ==
                            if other == c then Some(scope) else ScopeOf(l.grants, other)
    ensures l.Put(c, scope).taskId == l.taskId && l.Put(c, scope).saved == l.saved
  {
  }

  lemma PutTaskScope(l: Ledger, c: Capability)
    ensures forall other :: ScopeOf(l.PutTask(c).grants, other) ==
              if other == c && (ScopeOf(l.grants, c).None? || ScopeOf(l.grants, c) == Some(Once)) then Some(Task)
              else ScopeOf(l.grants, other)
    ensures l.PutTask(c).taskId == l.taskId && l.PutTask(c).saved == l.saved
  {
  }

  /** What an edit loop asks for: three capabilities, unless they have a wider grant. */
  lemma EditScopes(l: Ledger)
    ensures var after := l.PutTask(WriteFile).PutTask(ApplyPatch).PutTask(RunCommand);
            && (forall c :: ScopeOf(after.grants, c) ==
                  if c in {WriteFile, ApplyPatch, RunCommand} &&
                     (ScopeOf(l.grants, c).None? || ScopeOf(l.grants, c) == Some(Once))
                  then Some(Task) else ScopeOf(l.grants, c))
            && after.taskId == l.taskId && after.saved == l.saved
  {
    hide Ledger.PutTask, ScopeOf;
    var l1 := l.PutTask(WriteFile);
    var l2 := l1.PutTask(ApplyPatch);
    PutTaskScope(l, WriteFile);
    PutTaskScope(l1, ApplyPatch);
    PutTaskScope(l2, RunCommand);
  }

  lemma UseScope(l: Ledger, c: Capability)
    requires c in l.grants
    ensures forall other :: ScopeOf(l.Use(c).grants, other) ==
                            if other == c && ScopeOf(l.grants, c) == Some(Once) then None else ScopeOf(l.grants, other)
    ensures l.Use(c).taskId == l.taskId && l.Use(c).saved == l.saved
  {
  }

  // ------------------------------------------------------------------------------------------
  // The documents on disk.

  predicate SlashSaves(slash: Slash) {
    match slash
    case NewSession(_) => true
    case ForkSession(_, parentSaved) => parentSaved
    case Compact => true
    case EditMemory => true
    case StartTurn(_) => true
    case StartEditLoop => true
    case Reindex => true
    case _ => false
  }

  /** The events after which the document is written back. */
  predicate Saves(s: Tui, e: Event, k: Kind) {
    match e
    case ToolApprovalRequest(_, capability) => AtArrival(s, capability) != Some(false)
    case EditLoopComplete => s.pulse.Some?
    case PulseError => true
    case CommandSessionStarted(_) => true
    case Interrupt => s.pulse.Some? && !s.pulse.value.cancelPending && s.pulse.value.sessions != {}
    case UserInput(line) =>
      k.approves || k.typed || k.asks || SlashSaves(k.slash) || (s.panel.memoryClear && line.clearsMemory)
    case _ => EndsTurn(s, e)
  }

  /** The document in hand is written back with the grants it was left with, and no other document changes. */
  ghost predicate Written(s: Tui, e: Event, k: Kind, t: Tui) {
    t.ledger.saved ==
    if Saves(s, e, k)
    then s.ledger.saved[s.ledger.taskId := if k.slash.NewSession? then s.ledger.grants else t.ledger.grants]
    else s.ledger.saved
  }

  ghost predicate LedgerOk(s: Tui, e: Event, k: Kind, t: Tui) {
    && (forall c :: ScopeOf(t.ledger.grants, c) == ScopeAfter(s.ledger, k, c))
    && t.ledger.taskId == TaskAfter(s.ledger, k) && Written(s, e, k, t)
  }

  // ------------------------------------------------------------------------------------------
  // The pulse.

  /** The session of a command that is started joins the pulse, or begins one if none is alive. */
  function Joined(pulse: Option<Pulse>, session: SessionId): Option<Pulse> {
    if pulse.None? || pulse.value.sessions == {} then Some(Pulse(false, {session}))
    else Some(pulse.value.(sessions := pulse.value.sessions + {session}))
  }

  /** Whatever replaces or clears the session leaves the pulse behind. */
  predicate LeavesSession(k: Kind) {
    k.resumed.Some? ||
    match k.slash
    case NewSession(_) => true
    case ForkSession(_, parentSaved) => parentSaved
    case Compact => true
    case _ => false
  }

  predicate BeginsTurn(k: Kind) {
    k.asks || k.slash.StartTurn? || k.slash.StartEditLoop?
  }

  /** Every way a pulse can end. */
  predicate EndsPulse(s: Tui, e: Event) {
    e.EditLoopComplete? || e.PulseError? || EndsTurn(s, e)
  }

  function PulseAfter(s: Tui, e: Event, k: Kind): Option<Pulse> {
    if EndsPulse(s, e) || LeavesSession(k) then None
    else if BeginsTurn(k) then Some(Pulse(false, {}))
    else if k.starts && e.UserInput? then Joined(s.pulse, e.line.session)
    else if s.pulse.None? then None
    else
      match e
      case CommandSessionStarted(session) => Some(s.pulse.value.(sessions := s.pulse.value.sessions + {session}))
      case CommandSessionFinished(session) => Some(s.pulse.value.(sessions := s.pulse.value.sessions - {session}))
      case Interrupt => Some(s.pulse.value.(cancelPending := true))
      case _ => s.pulse
  }

  function ModeAfter(s: Tui, e: Event, k: Kind): Mode {
    if EndsPulse(s, e) then Mode(false, false)
    else
      Mode(if LeavesSession(k) then false else if k.slash.StartTurn? then k.slash.readOnly else s.mode.readOnly,
           s.mode.interrupted || (e.Interrupt? && s.pulse.Some? && !s.pulse.value.cancelPending))
  }

  // ------------------------------------------------------------------------------------------
  // The switches.

  function PanelAfter(s: Tui, e: Event, k: Kind): Panel {
    var renewed := EndsPulse(s, e) || LeavesSession(k) || BeginsTurn(k) ||
                 (k.starts && (s.pulse.None? || s.pulse.value.sessions == {}));
    Panel(
      s.panel.autoApprove || k.forSession,
      k.slash.PromptResume? || (s.panel.resumeSelection && !(e.UserInput? && AtResume(s) && !e.line.resume.InvalidResume?)),
      k.slash.ClearMemory? || (s.panel.memoryClear && !e.UserInput?),
      !renewed && (e.PulseComplete? || s.panel.completionPending),
      k.slash.StartEditLoop? || (s.panel.editLoop && !k.slash.NewSession? && !k.slash.Compact? && k.resumed.None?),
      QuitArmed(s, e), QuitAsked(s, e))
  }

  predicate QuitArmed(s: Tui, e: Event) {
    if e.Interrupt? then s.pulse.None? || (s.pulse.value.cancelPending && s.panel.pendingQuit)
    else s.panel.pendingQuit && !(e.UserInput? && AtPrompt(s))
  }

  /** A second interrupt in a row without a pulse asks to quit. */
  predicate QuitAsked(s: Tui, e: Event) {
    if e.Interrupt? then (if s.pulse.None? then s.panel.quitRequested || s.panel.pendingQuit
                          else s.pulse.value.cancelPending && s.panel.quitRequested)
    else s.panel.quitRequested && !(e.UserInput? && AtPrompt(s))
  }

  ghost predicate RestOk(s: Tui, e: Event, k: Kind, t: Tui) {
    t.pulse == PulseAfter(s, e, k) && t.panel == PanelAfter(s, e, k) && t.mode == ModeAfter(s, e, k)
  }

  ghost predicate Effects(s: Tui, e: Event, t: Tui) {
    LedgerOk(s, e, KindOf(s, e), t) && RestOk(s, e, KindOf(s, e), t)
  }

  // ------------------------------------------------------------------------------------------
  // What each kind of event is.

  lemma PlainKind(s: Tui, e: Event)
    requires !e.UserInput? && !e.ToolApprovalRequest?
    ensures KindOf(s, e) == PLAIN
  {
  }

  lemma BangKind(s: Tui, line: Typed)
    requires CommandTyped(s, line).Some?
    ensures var allowed := InForce(s, Some(RunCommand));
            KindOf(s, UserInput(line)) ==
            PLAIN.(relied := if !s.panel.autoApprove && allowed then Some(RunCommand) else None,
                   starts := allowed, typed := true)
  {
  }

  lemma SlashKind(s: Tui, line: Typed)
    requires AtPrompt(s) && line.bang.None? && line.slash.Some?
    ensures var slash := line.slash.value;
            var task := if slash.ResumeSession? && slash.task in s.ledger.saved then Some(slash.task) else None;
            KindOf(s, UserInput(line)) == PLAIN.(slash := slash, resumed := task, starts := slash.Reindex?)
  {
  }

  lemma ApprovalKind(s: Tui, line: Typed)
    requires AtApproval(s)
    ensures var yes, session := Approves(s, UserInput(line)), line.selection == Some(ApproveSession);
            KindOf(s, UserInput(line)) ==
            PLAIN.(starts := yes && s.desk.pending.value.InlineCommand?, approves := yes, forSession := session)
  {
  }

  lemma ElsewhereKind(s: Tui, line: Typed)
    requires s.OverlayActive() && !AtApproval(s)
    ensures var task := if AtResume(s) && line.resume.ChooseTask? && line.resume.task in s.ledger.saved
                        then Some(line.resume.task) else None;
            KindOf(s, UserInput(line)) == PLAIN.(resumed := task)
  {
  }

  lemma PlainLine(s: Tui, line: Typed)
    requires (!s.OverlayActive() && s.pulse.Some? && CommandTyped(s, line).None?) || (AtPrompt(s) && line.bang == Some(""))
    ensures KindOf(s, UserInput(line)) == PLAIN
  {
  }

  lemma AskKind(s: Tui, line: Typed)
    requires AsksModel(s, line)
    ensures KindOf(s, UserInput(line)) == PLAIN.(asks := true)
  {
  }

  lemma RemoveScope(l: Ledger, c: Capability)
    ensures forall other :: ScopeOf(l.Remove(c).grants, other) == if other == c then None else ScopeOf(l.grants, other)
    ensures l.Remove(c).taskId == l.taskId && l.Remove(c).saved == l.saved
  {
  }

  lemma NoScope()
    ensures forall c :: ScopeOf(map[], c) == None
  {
  }

  lemma RequestKind(s: Tui, request: RequestId, capability: Option<Capability>)
    ensures var relied := if !s.panel.autoApprove && AtArrival(s, capability) == Some(true) then capability else None;
            KindOf(s, ToolApprovalRequest(request, capability)) == PLAIN.(relied := relied)
  {
  }

  /** Starting a command session does to the pulse what `Joined` says. */
  lemma StartDoes(s: Tui, command: string, session: SessionId)
    ensures var t := s.StartCommandSession(command, session);
            && t.pulse == Joined(s.pulse, session) && t.mode == s.mode
            && t.ledger == s.ledger.Persist()
            && t.panel == (if s.pulse.None? || s.pulse.value.sessions == {}
                           then s.panel.(completionPending := false) else s.panel)
            && t.ran == s.ran + [command]
  {
    assert {} + {session} == {session};
  }

  // ------------------------------------------------------------------------------------------
  // The ledger.

  lemma SameLedger(s: Tui, e: Event, k: Kind, t: Tui)
    requires k.resumed.None? && k.slash == OtherCommand
    requires k.relied.Some? ==> ScopeOf(s.ledger.grants, k.relied.value) != Some(Once)
    requires t.ledger == if Saves(s, e, k) then s.ledger.Persist() else s.ledger
    ensures LedgerOk(s, e, k, t)
  {
    hide ScopeOf, Saves;
  }

  lemma UsedLedger(s: Tui, e: Event, k: Kind, t: Tui, c: Capability)
    requires k.resumed.None? && k.slash == OtherCommand && k.relied == Some(c) && c in s.ledger.grants && Saves(s, e, k)
    requires t.ledger == s.ledger.Use(c).Persist()
    ensures LedgerOk(s, e, k, t)
  {
    UseScope(s.ledger, c);
    hide ScopeOf, Saves, Ledger.Use;
  }

  lemma RequestLedger(s: Tui, request: RequestId, capability: Option<Capability>)
    ensures var e := ToolApprovalRequest(request, capability);
            LedgerOk(s, e, KindOf(s, e), s.OnToolRequest(request, capability))
  {
    var e, t := ToolApprovalRequest(request, capability), s.OnToolRequest(request, capability);
    RequestKind(s, request, capability);
    hide KindOf, LedgerOk;
    if !s.panel.autoApprove && AtArrival(s, capability) == Some(true) {
      UsedLedger(s, e, KindOf(s, e), t, capability.value);
    } else {
      SameLedger(s, e, KindOf(s, e), t);
    }
  }

  lemma EndLedger(s: Tui, e: Event)
    requires !e.UserInput? && !e.ToolApprovalRequest?
    ensures LedgerOk(s, e, KindOf(s, e), s.Next(e))
  {
    PlainKind(s, e);
    hide KindOf, LedgerOk, Tui.OnUserInput, Tui.OnToolRequest, Desk.Settle;
    if e.CommandSessionFinished? && s.pulse.Some? {
      assert s.pulse.value.sessions <= {e.session} <==> s.pulse.value.sessions - {e.session} == {};
    }
    SameLedger(s, e, KindOf(s, e), s.Next(e));
  }

  lemma BangLedger(s: Tui, line: Typed, quiet: Tui)
    requires CommandTyped(s, line).Some? && quiet.ledger == s.ledger && quiet.panel.autoApprove == s.panel.autoApprove
    ensures var e := UserInput(line);
            LedgerOk(s, e, KindOf(s, e), quiet.HandleBang(CommandTyped(s, line).value, line.session))
  {
    BangKind(s, line);
    var e, command := UserInput(line), CommandTyped(s, line).value;
    var t := quiet.HandleBang(command, line.session);
    StartDoes(quiet, command, line.session);
    if !s.panel.autoApprove && RunCommand in s.ledger.grants {
      StartDoes(quiet.(ledger := s.ledger.Use(RunCommand)), command, line.session);
      hide KindOf, LedgerOk, Tui.StartCommandSession;
      UsedLedger(s, e, KindOf(s, e), t, RunCommand);
    } else {
      hide KindOf, LedgerOk, Tui.StartCommandSession;
      SameLedger(s, e, KindOf(s, e), t);
    }
  }

  /** The commands that change what is granted. */
  lemma GrantLedgerOk(s: Tui, e: Event, k: Kind, session: SessionId)
    requires k == PLAIN.(slash := k.slash) && (k.slash.Allow? || k.slash.DenyCapability? || k.slash.StartEditLoop?)
    requires Saves(s, e, k) <==> k.slash.StartEditLoop?
    ensures LedgerOk(s, e, k, s.OnSlash(k.slash, session))
  {
    hide ScopeOf, Ledger.Put, Ledger.PutTask, Ledger.Remove, Saves, AtPrompt;
    match k.slash {
      case Allow(capability, scope) => PutScope(s.ledger, capability, scope);
      case DenyCapability(capability) => RemoveScope(s.ledger, capability);
      case StartEditLoop => EditScopes(s.ledger);
    }
  }

  /** The commands that go over to another document. */
  lemma TaskLedgerOk(s: Tui, e: Event, k: Kind, session: SessionId)
    requires k == PLAIN.(slash := k.slash, resumed := k.resumed)
    requires k.slash.NewSession? || k.slash.ForkSession? || k.slash.ResumeSession?
    requires k.resumed == if k.slash.ResumeSession? && k.slash.task in s.ledger.saved then Some(k.slash.task) else None
    requires Saves(s, e, k) <==> k.slash.NewSession? || (k.slash.ForkSession? && k.slash.parentSaved)
    ensures LedgerOk(s, e, k, s.OnSlash(k.slash, session))
  {
    hide ScopeOf, Saves, AtPrompt;
    NoScope();
  }

  /** The others at most write the document back. */
  lemma OtherLedger(s: Tui, k: Kind, session: SessionId)
    requires !k.slash.Allow? && !k.slash.DenyCapability? && !k.slash.StartEditLoop?
    requires !k.slash.NewSession? && !k.slash.ForkSession? && !k.slash.ResumeSession?
    ensures s.OnSlash(k.slash, session).ledger == if SlashSaves(k.slash) then s.ledger.Persist() else s.ledger
  {
    hide Tui.StartCommandSession;
    StartDoes(s, REINDEX, session);
  }

  lemma SlashLedger(s: Tui, line: Typed)
    requires AtPrompt(s) && line.bang.None? && line.slash.Some?
    ensures LedgerOk(s, UserInput(line), KindOf(s, UserInput(line)), s.OnIdleInput(line))
  {
    SlashKind(s, line);
    var e := UserInput(line);
    var quiet := s.(panel := s.panel.(pendingQuit := false, quitRequested := false));
    var k := KindOf(s, e);
    QuietLedger(s, quiet, e, k, quiet.OnSlash(k.slash, line.session));
    hide KindOf, LedgerOk, Tui.OnSlash;
    if k.slash.Allow? || k.slash.DenyCapability? || k.slash.StartEditLoop? {
      GrantLedgerOk(quiet, e, k, line.session);
    } else if k.slash.NewSession? || k.slash.ForkSession? || k.slash.ResumeSession? {
      TaskLedgerOk(quiet, e, k, line.session);
    } else {
      OtherLedger(quiet, k, line.session);
      SlashSame(quiet, e, k, quiet.OnSlash(k.slash, line.session));
    }
  }

  lemma SlashSame(s: Tui, e: Event, k: Kind, t: Tui)
    requires k.resumed.None? && k.relied.None? && t.ledger == if Saves(s, e, k) then s.ledger.Persist() else s.ledger
    requires !k.slash.Allow? && !k.slash.DenyCapability? && !k.slash.StartEditLoop?
    requires !k.slash.NewSession? && !k.slash.ForkSession?
    ensures LedgerOk(s, e, k, t)
  {
    hide ScopeOf, Saves;
  }

  lemma QuietLedger(s: Tui, quiet: Tui, e: Event, k: Kind, t: Tui)
    requires quiet == s.(panel := s.panel.(pendingQuit := false, quitRequested := false)) && e.UserInput?
    ensures LedgerOk(s, e, k, t) <==> LedgerOk(quiet, e, k, t)
  {
    hide ScopeOf, ScopeAfter;
  }

  lemma OverlayLedger(s: Tui, line: Typed)
    requires s.OverlayActive()
    ensures LedgerOk(s, UserInput(line), KindOf(s, UserInput(line)), s.OnOverlayInput(line))
  {
    hide Tui.StartCommandSession, Desk.Settle;
    var e, t := UserInput(line), s.OnOverlayInput(line);
    if AtApproval(s) {
      ApprovalKind(s, line);
      if s.desk.pending.value.InlineCommand? {
        var settled := s.(desk := s.desk.Settle(true, s.mode));
        StartDoes(settled, s.desk.pending.value.command, line.session);
        StartDoes(settled.(panel := s.panel.(autoApprove := true)), s.desk.pending.value.command, line.session);
      }
      hide KindOf, LedgerOk;
      SameLedger(s, e, KindOf(s, e), t);
    } else {
      ElsewhereKind(s, line);
      hide KindOf, ScopeOf;
    }
  }

  lemma LineLedger(s: Tui, line: Typed)
    ensures LedgerOk(s, UserInput(line), KindOf(s, UserInput(line)), s.OnUserInput(line))
  {
    var quiet := s.(panel := s.panel.(pendingQuit := false, quitRequested := false));
    var e := UserInput(line);
    hide KindOf, LedgerOk, Tui.OnSlash, Tui.OnOverlayInput;
    if s.OverlayActive() {
      OverlayLedger(s, line);
    } else if CommandTyped(s, line).Some? {
      BangLedger(s, line, if AtPrompt(s) then quiet else s);
      hide Tui.HandleBang;
    } else if AsksModel(s, line) {
      AskKind(s, line);
      SameLedger(s, e, KindOf(s, e), s.OnUserInput(line));
    } else if AtPrompt(s) && line.bang.None? {
      SlashLedger(s, line);
    } else {
      PlainLine(s, line);
      SameLedger(s, e, KindOf(s, e), s.OnUserInput(line));
    }
  }

  // ------------------------------------------------------------------------------------------
  // The rest.

  lemma RequestRest(s: Tui, request: RequestId, capability: Option<Capability>)
    ensures var e := ToolApprovalRequest(request, capability);
            RestOk(s, e, KindOf(s, e), s.OnToolRequest(request, capability))
  {
    RequestKind(s, request, capability);
    hide KindOf, LedgerFor, Desk.Take, Tui.FateOf;
  }

  lemma FailRest(s: Tui, e: Event)
    requires e.EditLoopComplete? || e.PulseError?
    ensures RestOk(s, e, KindOf(s, e), s.Next(e))
  {
    PlainKind(s, e);
    hide KindOf, Tui.OnUserInput, Tui.OnToolRequest, Tui.OnInterrupt, Tui.CompleteTurnIfIdle, Desk.Settle, Ledger.Persist;
  }

  lemma CompleteDoes(s: Tui)
    ensures var t := s.CompleteTurnIfIdle();
            if s.panel.completionPending && (s.pulse.None? || s.pulse.value.sessions == {}) then
              t.pulse == None && t.panel == s.panel.(completionPending := false) && t.mode == Mode(false, false)
            else t == s
  {
    hide Ledger.Persist, Desk.Settle;
  }

  lemma TurnRest(s: Tui)
    ensures RestOk(s, PulseComplete, KindOf(s, PulseComplete), s.Next(PulseComplete))
  {
    PlainKind(s, PulseComplete);
    CompleteDoes(s.(panel := s.panel.(completionPending := true)));
    hide KindOf, Tui.CompleteTurnIfIdle;
  }

  lemma FinishedRest(s: Tui, session: SessionId)
    ensures var e := CommandSessionFinished(session); RestOk(s, e, KindOf(s, e), s.Next(e))
  {
    PlainKind(s, CommandSessionFinished(session));
    CompleteDoes(s.DropSession(session));
    hide KindOf, Tui.CompleteTurnIfIdle;
    if s.pulse.Some? {
      assert s.pulse.value.sessions <= {session} <==> s.pulse.value.sessions - {session} == {};
    }
  }

  lemma InterruptRest(s: Tui)
    ensures RestOk(s, Interrupt, KindOf(s, Interrupt), s.Next(Interrupt))
  {
    PlainKind(s, Interrupt);
    hide KindOf, Desk.Settle, Ledger.Persist;
  }

  lemma OtherRest(s: Tui, e: Event)
    requires e.CommandSessionStarted? || e.OtherUpdate?
    ensures RestOk(s, e, KindOf(s, e), s.Next(e))
  {
    PlainKind(s, e);
    hide KindOf, Ledger.Persist;
  }

  lemma BangRest(s: Tui, line: Typed, quiet: Tui)
    requires CommandTyped(s, line).Some?
    requires quiet == if AtPrompt(s) then s.(panel := s.panel.(pendingQuit := false, quitRequested := false)) else s
    ensures var e := UserInput(line);
            RestOk(s, e, KindOf(s, e), quiet.HandleBang(CommandTyped(s, line).value, line.session))
  {
    BangKind(s, line);
    hide Ledger.Use, Ledger.Persist, Tui.StartCommandSession, KindOf;
    var command := CommandTyped(s, line).value;
    StartDoes(quiet, command, line.session);
    if RunCommand in s.ledger.grants {
      StartDoes(quiet.(ledger := s.ledger.Use(RunCommand)), command, line.session);
    }
  }

  lemma SlashRest(s: Tui, line: Typed)
    requires AtPrompt(s) && line.bang.None? && line.slash.Some?
    ensures RestOk(s, UserInput(line), KindOf(s, UserInput(line)), s.OnIdleInput(line))
  {
    SlashKind(s, line);
    hide KindOf, Ledger.Put, Ledger.PutTask, Ledger.Persist, Ledger.Resume, Ledger.Remove, Tui.StartCommandSession;
    if line.slash.value.Reindex? {
      StartDoes(s.(panel := s.panel.(pendingQuit := false, quitRequested := false)), REINDEX, line.session);
    }
  }

  lemma ResolvedRest(s: Tui, approved: bool, session: SessionId)
    requires s.desk.pending.Some?
    ensures var t, starts := s.ResolvePending(approved, session), approved && s.desk.pending.value.InlineCommand?;
            && t.pulse == (if starts then Joined(s.pulse, session) else s.pulse) && t.mode == s.mode
            && t.panel == if starts && (s.pulse.None? || s.pulse.value.sessions == {})
                          then s.panel.(completionPending := false) else s.panel
  {
    hide Tui.StartCommandSession, Desk.Settle, Ledger.Persist;
    if s.desk.pending.value.InlineCommand? {
      StartDoes(s.(desk := s.desk.Settle(approved, s.mode)), s.desk.pending.value.command, session);
    }
  }

  lemma ResolveRest(s: Tui, line: Typed)
    requires AtApproval(s)
    ensures RestOk(s, UserInput(line), KindOf(s, UserInput(line)), s.OnApprovalInput(line))
  {
    ApprovalKind(s, line);
    hide KindOf, Tui.ResolvePending;
    ResolvedRest(s, true, line.session);
    ResolvedRest(s, false, line.session);
    ResolvedRest(s.(panel := s.panel.(autoApprove := true)), true, line.session);
  }

  lemma OverlayRest(s: Tui, line: Typed)
    requires s.OverlayActive()
    ensures RestOk(s, UserInput(line), KindOf(s, UserInput(line)), s.OnOverlayInput(line))
  {
    if AtApproval(s) {
      ResolveRest(s, line);
    } else {
      ElsewhereKind(s, line);
    }
    hide KindOf, Tui.OnApprovalInput, Ledger.Persist, Ledger.Resume;
  }

  lemma PlainRest(s: Tui, line: Typed, quiet: Tui)
    requires !s.OverlayActive() && KindOf(s, UserInput(line)) in {PLAIN, PLAIN.(asks := true)}
    requires quiet == if AtPrompt(s) then s.(panel := s.panel.(pendingQuit := false, quitRequested := false)) else s
    ensures var k := KindOf(s, UserInput(line));
            RestOk(s, UserInput(line), k, if k.asks then quiet.BeginTurn() else quiet)
  {
    hide KindOf, Ledger.Persist;
  }

  lemma LineRest(s: Tui, line: Typed)
    ensures RestOk(s, UserInput(line), KindOf(s, UserInput(line)), s.OnUserInput(line))
  {
    var quiet := if AtPrompt(s) then s.(panel := s.panel.(pendingQuit := false, quitRequested := false)) else s;
    hide KindOf, RestOk, Tui.OnSlash, Tui.OnOverlayInput, Tui.BeginTurn;
    if s.OverlayActive() {
      OverlayRest(s, line);
    } else if CommandTyped(s, line).Some? {
      BangRest(s, line, quiet);
      hide Tui.HandleBang;
    } else if AsksModel(s, line) {
      AskKind(s, line);
      PlainRest(s, line, quiet);
    } else if AtPrompt(s) && line.bang.None? {
      SlashRest(s, line);
    } else {
      PlainLine(s, line);
      PlainRest(s, line, quiet);
    }
  }

  /** Every step, whatever the event, has exactly these effects. */
  lemma EffectsStep(s: Tui, e: Event)
    ensures Effects(s, e, s.Next(e))
  {
    hide LedgerOk, RestOk, KindOf;
    match e {
      case ToolApprovalRequest(request, capability) =>
        RequestLedger(s, request, capability);
        RequestRest(s, request, capability);
      case UserInput(line) =>
        LineLedger(s, line);
        LineRest(s, line);
      case _ =>
        EndLedger(s, e);
        match e {
          case EditLoopComplete => FailRest(s, e);
          case PulseError => FailRest(s, e);
          case PulseComplete => TurnRest(s);
          case CommandSessionFinished(session) => FinishedRest(s, session);
          case Interrupt => InterruptRest(s);
          case _ => OtherRest(s, e);
        }
    }
  }
}
