/** The envelope stream: what is in it, and what it means for it to be well formed. */
module Envelopes {
  import opened ToolEvidence
  import opened Wrappers

  const U64_MAX: nat := 0xFFFF_FFFF_FFFF_FFFF
  const SYNTHETIC_FINAL_TEXT_BLOCK_START: nat := 1_000_000

  datatype Source = Model | Runtime | UserRequest

  datatype StreamBlock =
    | Thinking(text: string)
    | FinalText(content: string)
    | ToolCall(id: string, name: string, input: Arguments)
    | ToolResult(toolCallId: string, text: string, isError: bool)

  datatype ToolStatus = Pending | WaitingApproval | Executing | Complete | Error | Cancelled

  /** Identifies an envelope: its pulse and its sequence number. */
  datatype Frame = Frame(pulse: nat, sequence: nat)

  datatype Signal =
    | PulseStart(input: Option<string>)
    | TranscriptLine(line: string)
    | BlockStart(index: nat, block: StreamBlock)
    | BlockDelta(index: nat, delta: string)
    | BlockComplete(index: nat)
    | ToolCallStarted(callId: string, toolName: string, arguments: Arguments)
    | ToolCallArgumentsDelta(callId: string, name: Option<string>, delta: string, parsed: Option<Arguments>, invalidJson: bool)
    | ToolCallCompleted(callId: string, name: Option<string>, status: ToolStatus, text: string)
    | ToolCallFailed(callId: string, name: Option<string>, status: ToolStatus, text: string)
    | ApprovalRequest(capability: string)
    | ApprovalResolved(capability: string, scope: string, approved: bool)
    | ServerMetadata
    | MaxTurnsReached(maxTurns: nat)
    | PulseEnd(endStatus: string, changedFiles: set<string>)
    | Failure(code: string, message: string, recoverable: bool)

  datatype Envelope = Envelope(
    pulse: nat,
    sequence: nat,
    source: Source,
    requestId: Option<string>,
    parent: Option<Frame>,
    signal: Signal)

  function SourceForBlock(block: StreamBlock): Source {
    if block.ToolResult? then Runtime else Model
  }

  function SourceForSignal(signal: Signal): Source {
    match signal
    case PulseStart(_) => UserRequest
    case ApprovalResolved(_, _, _) => UserRequest
    case BlockStart(_, block) => SourceForBlock(block)
    case BlockComplete(_) => Model
    case ToolCallStarted(_, _, _) => Model
    case ToolCallArgumentsDelta(_, _, _, _, _) => Model
    case ServerMetadata => Model
    case _ => Runtime
  }

  // ------------------------------------------------------------------------------------------
  // Numbering.

  predicate NumberedFrom(envelopes: seq<Envelope>, first: nat) {
    forall i :: 0 <= i < |envelopes| ==> envelopes[i].sequence == first + i
  }

  lemma NumberedConcat(a: seq<Envelope>, b: seq<Envelope>, first: nat)
    requires NumberedFrom(a, first) && NumberedFrom(b, first + |a|)
    ensures NumberedFrom(a + b, first)
  {
  }

  // ------------------------------------------------------------------------------------------
  // Bracketing of the synthetic text blocks.

  /** `open` is the synthetic block a reader has seen started and not yet completed; every later one
      must have an index of at least `next`. */
  datatype Brackets = Broken | At(open: Option<nat>, next: nat)

  const NO_BLOCK := At(None, SYNTHETIC_FINAL_TEXT_BLOCK_START)

  function Bracket(b: Brackets, signal: Signal): Brackets {
    if b.Broken? then Broken
    else
      match signal
      case PulseStart(_) => if b.open.None? then NO_BLOCK else Broken
      case PulseEnd(_, _) => if b.open.None? then b else Broken
      case BlockStart(index, _) =>
        if index < SYNTHETIC_FINAL_TEXT_BLOCK_START then b
        else if b.open.None? && index >= b.next then At(Some(index), index + 1)
        else Broken
      case BlockDelta(index, _) =>
        if index < SYNTHETIC_FINAL_TEXT_BLOCK_START || b.open == Some(index) then b else Broken
      case BlockComplete(index) =>
        if index < SYNTHETIC_FINAL_TEXT_BLOCK_START then b
        else if b.open == Some(index) then At(None, b.next)
        else Broken
      case _ => b
  }

  function BracketAll(b: Brackets, envelopes: seq<Envelope>): Brackets {
    if envelopes == [] then b
    else Bracket(BracketAll(b, envelopes[..|envelopes| - 1]), envelopes[|envelopes| - 1].signal)
  }

  lemma BracketSnoc(b: Brackets, envelopes: seq<Envelope>, e: Envelope)
    ensures BracketAll(b, envelopes + [e]) == Bracket(BracketAll(b, envelopes), e.signal)
  {
    var all := envelopes + [e];
    assert all[..|all| - 1] == envelopes;
  }

  lemma {:induction false} BracketConcat(b: Brackets, x: seq<Envelope>, y: seq<Envelope>)
    ensures BracketAll(b, x + y) == BracketAll(BracketAll(b, x), y)
    decreases |y|
  {
    if y == [] {
      assert x + y == x;
    } else {
      var front, last := y[..|y| - 1], y[|y| - 1];
      assert x + y == (x + front) + [last] && y == front + [last];
      BracketConcat(b, x, front);
      BracketSnoc(b, x + front, last);
      BracketSnoc(BracketAll(b, x), front, last);
    }
  }

  /** What an unbroken bracketing means to a reader of the stream: a delta of a synthetic block is
      always preceded by that block's start with no other synthetic block mark in between. */
  lemma {:induction false} DeltaHasItsStart(envelopes: seq<Envelope>, n: nat) returns (m: nat)
    requires n < |envelopes| && BracketAll(NO_BLOCK, envelopes) != Broken
    requires envelopes[n].signal.BlockDelta? || envelopes[n].signal.BlockComplete?
    requires envelopes[n].signal.index >= SYNTHETIC_FINAL_TEXT_BLOCK_START
    ensures m < n && envelopes[m].signal.BlockStart? && envelopes[m].signal.index == envelopes[n].signal.index
    ensures forall k :: m < k < n ==> !Marks(envelopes[k].signal)
  {
    BracketPrefix(NO_BLOCK, envelopes, n + 1);
    assert envelopes[..n + 1][..n] == envelopes[..n];
    m := OpenedAt(envelopes[..n]);
  }

  /** Signals that open or close a synthetic block, or a pulse. */
  predicate Marks(signal: Signal) {
    || signal.PulseStart?
    || (signal.BlockStart? && signal.index >= SYNTHETIC_FINAL_TEXT_BLOCK_START)
    || (signal.BlockComplete? && signal.index >= SYNTHETIC_FINAL_TEXT_BLOCK_START)
  }

  lemma {:induction false} BracketPrefix(b: Brackets, envelopes: seq<Envelope>, n: nat)
    requires n <= |envelopes| && BracketAll(b, envelopes) != Broken
    ensures BracketAll(b, envelopes[..n]) != Broken
    decreases |envelopes|
  {
    if n == |envelopes| {
      assert envelopes[..n] == envelopes;
    } else {
      var front := envelopes[..|envelopes| - 1];
      assert front[..n] == envelopes[..n];
      BracketPrefix(b, front, n);
    }
  }

  lemma {:induction false} OpenedAt(envelopes: seq<Envelope>) returns (m: nat)
    requires BracketAll(NO_BLOCK, envelopes).At? && BracketAll(NO_BLOCK, envelopes).open.Some?
    ensures m < |envelopes| && envelopes[m].signal.BlockStart?
    ensures BracketAll(NO_BLOCK, envelopes).open == Some(envelopes[m].signal.index)
    ensures forall k :: m < k < |envelopes| ==> !Marks(envelopes[k].signal)
    decreases |envelopes|
  {
    var front, last := envelopes[..|envelopes| - 1], envelopes[|envelopes| - 1];
    if last.signal.BlockStart? && last.signal.index >= SYNTHETIC_FINAL_TEXT_BLOCK_START {
      m := |envelopes| - 1;
    } else {
      m := OpenedAt(front);
    }
  }

  // ------------------------------------------------------------------------------------------
  // Pulses.

  /** Whether a reader is inside a pulse; nothing if starts and ends do not alternate. */
  function InPulse(envelopes: seq<Envelope>): Option<bool> {
    if envelopes == [] then Some(false)
    else
      var before, signal := InPulse(envelopes[..|envelopes| - 1]), envelopes[|envelopes| - 1].signal;
      if before.None? then None
      else if signal.PulseStart? then if before.value then None else Some(true)
      else if signal.PulseEnd? then if before.value then Some(false) else None
      else before
  }

  lemma InPulseSnoc(envelopes: seq<Envelope>, e: Envelope)
    ensures InPulse(envelopes + [e]) ==
            (var before := InPulse(envelopes);
             if before.None? then None
             else if e.signal.PulseStart? then if before.value then None else Some(true)
             else if e.signal.PulseEnd? then if before.value then Some(false) else None
             else before)
  {
    var all := envelopes + [e];
    assert all[..|all| - 1] == envelopes;
  }

  predicate QuietSignals(envelopes: seq<Envelope>) {
    forall i :: 0 <= i < |envelopes| ==> !envelopes[i].signal.PulseStart? && !envelopes[i].signal.PulseEnd?
  }

  lemma {:induction false} InPulseQuiet(envelopes: seq<Envelope>, more: seq<Envelope>)
    requires QuietSignals(more)
    ensures InPulse(envelopes + more) == InPulse(envelopes)
    decreases |more|
  {
    if more == [] {
      assert envelopes + more == envelopes;
    } else {
      var front, last := more[..|more| - 1], more[|more| - 1];
      assert envelopes + more == (envelopes + front) + [last];
      InPulseQuiet(envelopes, front);
      InPulseSnoc(envelopes + front, last);
    }
  }
}
