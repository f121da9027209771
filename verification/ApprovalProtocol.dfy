/** The approval protocol of the terminal mode as a state machine: one-shot responders, one pending
    approval, auto-approval, grants, read-only turns, interrupts and the ends of a pulse. */
module ApprovalProtocol {
  import opened GrantLedger
  import opened Wrappers

  /** Names the one-shot channel on which a tool request waits for its answer. */
  type RequestId = nat
  type SessionId = nat

  /** What a pending approval will do when it is settled. */
  datatype Action =
    | Tool(request: RequestId)
    | InlineCommand(command: string)

  datatype Pulse = Pulse(cancelPending: bool, sessions: set<SessionId>)

  /** One answer sent, with the mode it was sent in. */
  datatype Answer = Answer(request: RequestId, approved: bool, readOnly: bool, interrupted: bool)

  datatype Selection = ApproveOnce | ApproveSession | Deny

  datatype ResumeChoice = CancelResume | InvalidResume | ChooseTask(task: TaskId)

  /** The slash commands that touch this protocol; the rest only print or read. A fork says whether the
      parent could be saved, and `EditMemory` stands for the memory commands that change the notes at once. */
  datatype Slash =
    | Allow(capability: Capability, scope: Scope)
    | DenyCapability(capability: Capability)
    | NewSession(task: TaskId)
    | ForkSession(task: TaskId, parentSaved: bool)
    | ResumeSession(task: TaskId)
    | PromptResume
    | Compact
    | ClearMemory
    | EditMemory
    | StartTurn(readOnly: bool)
    | StartEditLoop
    | Reindex
    | OtherCommand

  /** One line typed by the user, as each route reads it. `bang` and `slash` are read from the line after
      inline-token expansion, `rawBang` and `rawEdit` from the line as typed; `clearsMemory` says that the
      line confirms clearing the notes and they could be cleared; `session` is the step id a command session
      started by this line would get. */
  datatype Typed = Typed(
    selection: Option<Selection>,
    resume: ResumeChoice,
    clearsMemory: bool,
    rawBang: Option<string>,
    rawEdit: bool,
    bang: Option<string>,
    slash: Option<Slash>,
    session: SessionId)

  datatype Event =
    | ToolApprovalRequest(request: RequestId, capability: Option<Capability>)
    | EditLoopComplete
    | CommandSessionStarted(session: SessionId)
    | CommandSessionFinished(session: SessionId)
    | PulseComplete
    | PulseError
    | OtherUpdate
    | Interrupt
    | UserInput(line: Typed)

  /** What the search index is rebuilt as. */
  const REINDEX := "/reindex"

  /** The responders: which requests came in, which answers went out, and the approval still open. */
  datatype Desk = Desk(pending: Option<Action>, received: seq<RequestId>, answers: seq<Answer>) {
    predicate Holding() {
      pending.Some? && pending.value.Tool?
    }

    function Receive(request: RequestId): Desk {
      this.(received := received + [request])
    }

    function Send(request: RequestId, approved: bool, mode: Mode): Desk {
      this.(answers := answers + [Answer(request, approved, mode.readOnly, mode.interrupted)])
    }

    /** Takes the pending approval; a tool request gets its answer. */
    function Settle(approved: bool, mode: Mode): Desk {
      var taken := this.(pending := None);
      if Holding() then taken.Send(pending.value.request, approved, mode) else taken
    }

    function Park(action: Action): Desk {
      this.(pending := Some(action))
    }

    /** The end of one request, once nothing else is pending. */
    function Conclude(request: RequestId, fate: Fate, mode: Mode): Desk {
      if fate == Asked then Park(Tool(request)) else Send(request, fate == Approved, mode)
    }

    /** A request comes in and meets one of four fates. */
    function Take(request: RequestId, fate: Fate, mode: Mode): Desk {
      if fate == RefusedAtOnce then Receive(request).Send(request, false, mode)
      else Receive(request).Settle(false, mode).Conclude(request, fate, mode)
    }
  }

  datatype Fate = RefusedAtOnce | Refused | Approved | Asked

  function FateFor(cancelPending: bool, readOnly: bool, autoApprove: bool, granted: bool): Fate {
    if cancelPending then RefusedAtOnce
    else if readOnly then Refused
    else if autoApprove || granted then Approved
    else Asked
  }

  /** Only a yes that rests on a grant uses it up; a yes and a question are written to disk. */
  function LedgerFor(l: Ledger, fate: Fate, autoApprove: bool, capability: Option<Capability>): Ledger {
    match fate
    case Approved =>
      if !autoApprove && capability.Some? && capability.value in l.grants then l.Use(capability.value).Persist()
      else l.Persist()
    case Asked => l.Persist()
    case _ => l
  }

  /** `interrupted` is history: set by an accepted interrupt, cleared when that pulse ends. */
  datatype Mode = Mode(readOnly: bool, interrupted: bool)

  /** The remaining switches of the mode. */
  datatype Panel = Panel(
    autoApprove: bool,
    resumeSelection: bool,
    memoryClear: bool,
    completionPending: bool,
    editLoop: bool,
    pendingQuit: bool,
    quitRequested: bool)

  /** `ran` is history: the commands started in sessions, in order. */
  datatype Tui = Tui(
    ledger: Ledger,
    desk: Desk,
    mode: Mode,
    pulse: Option<Pulse>,
    panel: Panel,
    ran: seq<string>)
  {
    predicate OverlayActive() {
      desk.pending.Some? || panel.resumeSelection || panel.memoryClear
    }

    predicate CancelPending() {
      pulse.Some? && pulse.value.cancelPending
    }

    predicate NoSessions() {
      pulse.None? || pulse.value.sessions == {}
    }

    function Persist(): Tui {
      this.(ledger := ledger.Persist())
    }

    function BeginTurn(): (r: Tui)
      ensures r.desk == desk && r.mode == mode && r.pulse == Some(Pulse(false, {}))
    {
      Tui(ledger.Persist(), desk, mode, Some(Pulse(false, {})), panel.(completionPending := false), ran)
    }

    function AddSession(session: SessionId): (r: Tui)
      ensures r.desk == desk && r.mode == mode && r.panel == panel
      ensures r.pulse.Some? == pulse.Some? && r.CancelPending() == CancelPending()
    {
      Tui(ledger.Persist(), desk, mode,
          if pulse.Some? then Some(pulse.value.(sessions := pulse.value.sessions + {session})) else None, panel, ran)
    }

    function DropSession(session: SessionId): Tui {
      if pulse.Some? then this.(pulse := Some(pulse.value.(sessions := pulse.value.sessions - {session}))) else this
    }

    function StartCommandSession(command: string, session: SessionId): (r: Tui)
      ensures r.desk == desk && r.mode == mode && r.pulse.Some?
      ensures r.CancelPending() ==> CancelPending()
      ensures r.panel == panel || r.panel == panel.(completionPending := false)
    {
      (if NoSessions() then BeginTurn().AddSession(session) else AddSession(session)).(ran := ran + [command])
    }

    function ResolvePending(approved: bool, session: SessionId): Tui {
      if desk.pending.None? then this
      else
        var settled := this.(desk := desk.Settle(approved, mode));
        if !approved then settled
        else if desk.Holding() then settled.Persist()
        else settled.StartCommandSession(desk.pending.value.command, session)
    }

    function Decline(): Tui {
      this.(desk := desk.Settle(false, mode))
    }

    /** Leaves the pulse, with everything that lives as long as it does. */
    function EndPulse(): Tui {
      Tui(ledger, desk, Mode(false, false), None, panel.(completionPending := false), ran)
    }

    function CompleteTurnIfIdle(): Tui {
      if panel.completionPending && NoSessions() then Decline().Persist().EndPulse() else this
    }

    predicate Granted(capability: Option<Capability>) {
      capability.Some? && capability.value in ledger.grants
    }

    function FateOf(capability: Option<Capability>): Fate {
      FateFor(CancelPending(), mode.readOnly, panel.autoApprove, Granted(capability))
    }

    function OnToolRequest(request: RequestId, capability: Option<Capability>): Tui {
      this.(ledger := LedgerFor(ledger, FateOf(capability), panel.autoApprove, capability),
            desk := desk.Take(request, FateOf(capability), mode))
    }

    function OnEditLoopComplete(): Tui {
      if pulse.Some? then Decline().Persist().EndPulse() else Decline().EndPulse()
    }

    function OnError(): Tui {
      Decline().Persist().EndPulse()
    }

    function ArmQuit(): Tui {
      if panel.pendingQuit then this.(panel := panel.(quitRequested := true))
      else this.(panel := panel.(pendingQuit := true))
    }

    function CancelPulse(): Tui
      requires pulse.Some?
    {
      Tui(if pulse.value.sessions != {} then ledger.Persist() else ledger,
          desk.Settle(false, mode), mode.(interrupted := true),
          Some(pulse.value.(cancelPending := true)),
          panel.(pendingQuit := false, quitRequested := false), ran)
    }

    function OnInterrupt(): Tui {
      if pulse.None? then ArmQuit()
      else if pulse.value.cancelPending then this
      else CancelPulse()
    }

    function HandleBang(command: string, session: SessionId): Tui {
      if command == "" then this
      else if panel.autoApprove then StartCommandSession(command, session)
      else if RunCommand in ledger.grants then
        this.(ledger := ledger.Use(RunCommand)).StartCommandSession(command, session)
      else this.(ledger := ledger.Persist(), desk := desk.Park(InlineCommand(command)))
    }

    /** Whatever replaces or clears the session also drops the pulse and the read-only flag. */
    function ResetSurface(): Tui {
      Tui(ledger, desk, mode.(readOnly := false), None, panel.(completionPending := false), ran)
    }

    function ApplyResumed(task: TaskId): Tui {
      if task in ledger.saved
      then this.(ledger := ledger.Resume(task), panel := panel.(editLoop := false)).ResetSurface()
      else this
    }

    function OnApprovalInput(line: Typed): Tui {
      match line.selection
      case Some(ApproveOnce) => ResolvePending(true, line.session)
      case Some(ApproveSession) => this.(panel := panel.(autoApprove := true)).ResolvePending(true, line.session)
      case Some(Deny) => ResolvePending(false, line.session)
      case None => this
    }

    function OnResumeInput(line: Typed): Tui {
      match line.resume
      case CancelResume => this.(panel := panel.(resumeSelection := false))
      case InvalidResume => this
      case ChooseTask(task) => this.(panel := panel.(resumeSelection := false)).ApplyResumed(task)
    }

    function OnMemoryClearInput(line: Typed): Tui {
      var s := this.(panel := panel.(memoryClear := false));
      if line.clearsMemory then s.Persist() else s
    }

    function NewDocument(task: TaskId): Tui {
      this.(ledger := ledger.NewTask(task), panel := panel.(editLoop := false)).ResetSurface()
    }

    /** The fork is given up if the parent cannot be saved first. */
    function ForkDocument(task: TaskId, parentSaved: bool): Tui {
      if parentSaved then this.(ledger := ledger.Fork(task)).ResetSurface() else this
    }

    function OnSlash(command: Slash, session: SessionId): Tui {
      match command
      case Allow(capability, scope) => this.(ledger := ledger.Put(capability, scope))
      case DenyCapability(capability) => this.(ledger := ledger.Remove(capability))
      case NewSession(task) => NewDocument(task)
      case ForkSession(task, parentSaved) => ForkDocument(task, parentSaved)
      case ResumeSession(task) => ApplyResumed(task)
      case PromptResume => this.(panel := panel.(resumeSelection := true))
      case Compact => this.(ledger := ledger.Persist(), panel := panel.(editLoop := false)).ResetSurface()
      case ClearMemory => this.(panel := panel.(memoryClear := true))
      case EditMemory => Persist()
      case StartTurn(readOnly) => this.(mode := mode.(readOnly := readOnly)).BeginTurn()
      case StartEditLoop =>
        this.(ledger := ledger.PutTask(WriteFile).PutTask(ApplyPatch).PutTask(RunCommand),
              panel := panel.(editLoop := true)).BeginTurn()
      case Reindex => StartCommandSession(REINDEX, session)
      case OtherCommand => this
    }

    function OnIdleInput(line: Typed): Tui {
      var s := this.(panel := panel.(pendingQuit := false, quitRequested := false));
      if line.bang.Some? then s.HandleBang(line.bang.value, line.session)
      else if line.slash.Some? then s.OnSlash(line.slash.value, line.session)
      else s.BeginTurn()
    }

    function OnOverlayInput(line: Typed): Tui {
      if panel.memoryClear then OnMemoryClearInput(line)
      else if panel.resumeSelection then OnResumeInput(line)
      else OnApprovalInput(line)
    }

    function OnUserInput(line: Typed): Tui {
      if OverlayActive() then OnOverlayInput(line)
      else if pulse.None? then OnIdleInput(line)
      else if (panel.editLoop && line.rawEdit) || pulse.value.cancelPending then this
      else if line.rawBang.Some? && pulse.value.sessions != {} then HandleBang(line.rawBang.value, line.session)
      else this
    }

    function Next(e: Event): Tui {
      match e
      case ToolApprovalRequest(request, capability) => OnToolRequest(request, capability)
      case EditLoopComplete => OnEditLoopComplete()
      case CommandSessionStarted(session) => AddSession(session)
      case CommandSessionFinished(session) => DropSession(session).CompleteTurnIfIdle()
      case PulseComplete => this.(panel := panel.(completionPending := true)).CompleteTurnIfIdle()
      case PulseError => OnError()
      case OtherUpdate => this
      case Interrupt => OnInterrupt()
      case UserInput(line) => OnUserInput(line)
    }
  }

  function Start(task: TaskId, force: bool): Tui {
    Tui(Ledger(task, map[], map[], [], 0), Desk(None, [], []), Mode(false, false), None,
        Panel(force, false, false, false, false, false, false), [])
  }

  /** What the runtime guarantees about an event: a request brings a new responder, and a new or forked
      session gets an id no document has yet. */
  predicate Fresh(s: Tui, e: Event) {
    match e
    case ToolApprovalRequest(request, _) => request !in s.desk.received
    case UserInput(line) =>
      line.slash.Some? && (line.slash.value.NewSession? || line.slash.value.ForkSession?) ==>
        line.slash.value.task != s.ledger.taskId && line.slash.value.task !in s.ledger.saved
    case _ => true
  }

  function Run(s: Tui, events: seq<Event>): Tui {
    if events == [] then s else Run(s, events[..|events| - 1]).Next(events[|events| - 1])
  }

  ghost predicate WellFed(s: Tui, events: seq<Event>) {
    forall i :: 0 <= i < |events| ==> Fresh(Run(s, events[..i]), events[i])
  }

  /** The guard of the one step that can hand out a once-scoped grant twice. */
  predicate ForksWithoutOnceGrant(s: Tui, e: Event) {
    e.UserInput? && e.line.slash.Some? && e.line.slash.value.ForkSession? && e.line.slash.value.parentSaved ==>
      forall c :: c in s.ledger.grants ==> s.ledger.grants[c].scope != Once
  }

  ghost predicate ForksSafely(s: Tui, events: seq<Event>) {
    forall i :: 0 <= i < |events| ==> ForksWithoutOnceGrant(Run(s, events[..i]), events[i])
  }
}
