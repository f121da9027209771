/** What the envelope normalizer does to each update, as functions on its state. */
module Normalizing {
  import opened ToolEvidence
  import opened Wrappers
  import opened Envelopes

  datatype PendingCall = PendingCall(runtimeId: string, name: string, arguments: Arguments, startFrame: Frame)

  datatype CallContext = CallContext(name: string, startFrame: Frame)

  /** The synthetic text block that is open, and the index the next one gets. */
  datatype TextBlocks = TextBlocks(open: Option<nat>, next: nat)

  datatype Tools = Tools(
    pending: map<string, PendingCall>,
    contexts: map<string, CallContext>,
    streaming: map<nat, string>,
    changedFiles: set<string>)

  const NO_TOOLS := Tools(map[], map[], map[], {})
  const NO_TEXT := TextBlocks(None, SYNTHETIC_FINAL_TEXT_BLOCK_START)

  /** What the argument accumulator and the JSON parser say about one more fragment. */
  datatype Verdict = Verdict(invalidJson: bool, parsed: Option<Arguments>)

  datatype Update =
    | LineUpdate(line: string)
    | StreamDelta(text: string)
    | StreamBlockStart(index: nat, block: StreamBlock, callId: string)
    | StreamBlockDelta(index: nat, delta: string, verdict: Verdict)
    | StreamBlockComplete(index: nat)
    | PulseComplete
    | ErrorUpdate(message: string)
    | ToolApprovalUpdate(capability: string)
    | MetadataUpdate
    | SilentUpdate

  predicate CallsTool(u: Update, id: string) {
    u.StreamBlockStart? && u.block.ToolCall? && u.block.id == id
  }

  predicate ResultOf(u: Update, id: string) {
    u.StreamBlockStart? && u.block.ToolResult? && u.block.toolCallId == id
  }

  predicate EndsTurn(u: Update) {
    u.PulseComplete? || u.ErrorUpdate?
  }

  datatype Request =
    | ApproveCapability(requestId: string, capability: string, scope: string)
    | DenyCapability(requestId: string, capability: string)
    | OtherRequest(requestId: string)

  datatype Norm = Norm(pulse: nat, nextSeq: nat, text: TextBlocks, tools: Tools, sources: map<nat, Source>)
  {
    function Stamp(signal: Signal, requestId: Option<string>, parent: Option<Frame>, source: Option<Source>): Envelope {
      Envelope(pulse, nextSeq, if source.Some? then source.value else SourceForSignal(signal), requestId, parent, signal)
    }

    function Plain(signal: Signal): Envelope {
      Stamp(signal, None, None, None)
    }

    /** The state after one more envelope; the counter saturates. */
    function Advance(): Norm {
      this.(nextSeq := if nextSeq < U64_MAX then nextSeq + 1 else U64_MAX)
    }

    function SourceAt(index: nat): Option<Source> {
      if index in sources then Some(sources[index]) else None
    }

    function StartPulse(number: nat, input: Option<string>): (Norm, Envelope) {
      var n := Norm(number, nextSeq, NO_TEXT, NO_TOOLS, map[]);
      (n.Advance(), n.Plain(PulseStart(input)))
    }

    function CloseText(): (Norm, seq<Envelope>) {
      if text.open.None? then (this, [])
      else
        var index := text.open.value;
        (this.(text := text.(open := None), sources := sources - {index}).Advance(),
         [Stamp(BlockComplete(index), None, None, SourceAt(index))])
    }

    function OpenText(): (Norm, seq<Envelope>) {
      if text.open.Some? then (this, [])
      else
        var index := text.next;
        (this.(text := TextBlocks(Some(index), if index < U64_MAX then index + 1 else U64_MAX),
               sources := sources[index := Model]).Advance(),
         [Stamp(BlockStart(index, FinalText("")), None, None, Some(Model))])
    }

    /** Close the open text block, then say one thing. */
    function CloseAndSay(signal: Signal): (Norm, seq<Envelope>) {
      var (n, closing) := CloseText();
      (n.Advance(), closing + [n.Plain(signal)])
    }

    function RecordToolCall(sourceId: string, name: string, arguments: Arguments, callId: string): (Norm, Envelope) {
      var frame := Frame(pulse, nextSeq);
      (this.(tools := tools.(
               pending := tools.pending[sourceId := PendingCall(callId, name, arguments, frame)],
               contexts := tools.contexts[callId := CallContext(name, frame)])).Advance(),
       Plain(ToolCallStarted(callId, name, arguments)))
    }

    function RecordToolResult(sourceId: string, output: string, isError: bool): (Norm, Envelope) {
      if sourceId in tools.pending then
        var call := tools.pending[sourceId];
        var signal := if isError then ToolCallFailed(call.runtimeId, Some(call.name), Error, output)
                      else ToolCallCompleted(call.runtimeId, Some(call.name), Complete, output);
        (this.(tools := tools.(
                 pending := tools.pending - {sourceId},
                 contexts := tools.contexts - {call.runtimeId},
                 changedFiles := tools.changedFiles +
                                 if isError then {} else ChangedFiles(call.name, call.arguments))).Advance(),
         Stamp(signal, None, Some(call.startFrame), None))
      else
        (Advance(), Plain(if isError then ToolCallFailed(sourceId, None, Error, output)
                          else ToolCallCompleted(sourceId, None, Complete, output)))
    }

    predicate Runs(callId: string) {
      exists key :: key in tools.pending && tools.pending[key].runtimeId == callId
    }

    function RecordArgumentsDelta(callId: string, delta: string, verdict: Verdict): (Norm, Envelope) {
      var known := callId in tools.contexts;
      var parsed := if Runs(callId) then verdict.parsed else None;
      var pending := map key | key in tools.pending ::
                       if tools.pending[key].runtimeId == callId && parsed.Some?
                       then tools.pending[key].(arguments := parsed.value) else tools.pending[key];
      (this.(tools := tools.(pending := pending)).Advance(),
       Stamp(ToolCallArgumentsDelta(callId, if known then Some(tools.contexts[callId].name) else None,
                                    delta, parsed, verdict.invalidJson),
             None, if known then Some(tools.contexts[callId].startFrame) else None, None))
    }

    function NormalizeBlock(block: StreamBlock, callId: string): (Norm, seq<Envelope>) {
      match block
      case ToolCall(id, name, input) => var (n, e) := RecordToolCall(id, name, input, callId); (n, [e])
      case ToolResult(id, text, isError) => var (n, e) := RecordToolResult(id, text, isError); (n, [e])
      case _ => (this, [])
    }

    function LinkStream(index: nat, block: StreamBlock): Norm {
      if block.ToolCall? && block.id in tools.pending
      then this.(tools := tools.(streaming := tools.streaming[index := tools.pending[block.id].runtimeId]))
      else this
    }

    function OnBlockStart(index: nat, block: StreamBlock, callId: string): (Norm, seq<Envelope>) {
      var (n0, closing) := CloseText();
      var source := SourceForBlock(block);
      var n1 := n0.(sources := n0.sources[index := source]);
      var (n2, tool) := n1.Advance().NormalizeBlock(block, callId);
      (n2.LinkStream(index, block), closing + [n1.Stamp(BlockStart(index, block), None, None, Some(source))] + tool)
    }

    function OnBlockDelta(index: nat, delta: string, verdict: Verdict): (Norm, seq<Envelope>) {
      var first := Stamp(BlockDelta(index, delta), None, None, SourceAt(index));
      if index in tools.streaming then
        var (n, second) := Advance().RecordArgumentsDelta(tools.streaming[index], delta, verdict);
        (n, [first, second])
      else (Advance(), [first])
    }

    function OnBlockComplete(index: nat): (Norm, seq<Envelope>) {
      (this.(tools := tools.(streaming := tools.streaming - {index}), sources := sources - {index}).Advance(),
       [Stamp(BlockComplete(index), None, None, SourceAt(index))])
    }

    function OnStreamDelta(delta: string): (Norm, seq<Envelope>) {
      var (n, opening) := OpenText();
      var index := n.text.open.value;
      var said := n.Stamp(BlockDelta(index, delta), None, None, n.SourceAt(index));
      (n.Advance(), if text.open.Some? then [said] else [opening[0], said])
    }

    function Resolve(changedFiles: set<string>): set<string> {
      if changedFiles == {} then tools.changedFiles else changedFiles
    }

    /** The tool bookkeeping of the turn is dropped; its changed files stay until the next start. */
    function ForgetTurn(): Norm {
      this.(tools := Tools(map[], map[], map[], tools.changedFiles), sources := map[])
    }

    function FinishTurn(status: string, changedFiles: set<string>): (Norm, seq<Envelope>) {
      var (n, closing) := CloseText();
      var forgotten := n.ForgetTurn();
      (forgotten.Advance(), closing + [forgotten.Plain(PulseEnd(status, Resolve(changedFiles)))])
    }

    function EmitError(code: string, message: string, recoverable: bool, changedFiles: set<string>): (Norm, seq<Envelope>) {
      var (n, said) := CloseAndSay(Failure(code, message, recoverable));
      if recoverable then (n, said)
      else
        var forgotten := n.ForgetTurn();
        (forgotten.Advance(), said + [forgotten.Plain(PulseEnd("failed", Resolve(changedFiles)))])
    }

    function EmitMaxTurns(maxTurns: nat, changedFiles: set<string>): (Norm, seq<Envelope>) {
      var (n, closing) := CloseText();
      var m := n.ForgetTurn();
      (m.Advance().Advance(),
       closing + [m.Plain(MaxTurnsReached(maxTurns))] + [m.Advance().Plain(PulseEnd("failed", Resolve(changedFiles)))])
    }

    function Normalize(update: Update, changedFiles: set<string>): (Norm, seq<Envelope>) {
      match update
      case LineUpdate(line) => CloseAndSay(TranscriptLine(line))
      case StreamDelta(delta) => OnStreamDelta(delta)
      case StreamBlockStart(index, block, callId) => OnBlockStart(index, block, callId)
      case StreamBlockDelta(index, delta, verdict) => OnBlockDelta(index, delta, verdict)
      case StreamBlockComplete(index) => OnBlockComplete(index)
      case PulseComplete => FinishTurn("completed", changedFiles)
      case ErrorUpdate(message) => EmitError("runtime_error", message, false, changedFiles)
      case ToolApprovalUpdate(capability) => CloseAndSay(ApprovalRequest(capability))
      case MetadataUpdate => (Advance(), [Plain(ServerMetadata)])
      case SilentUpdate => (this, [])
    }

    function NormalizeRequest(request: Request): (Norm, seq<Envelope>) {
      match request
      case ApproveCapability(id, capability, scope) =>
        (Advance(), [Stamp(ApprovalResolved(capability, scope, true), Some(id), None, None)])
      case DenyCapability(id, capability) =>
        (Advance(), [Stamp(ApprovalResolved(capability, "once", false), Some(id), None, None)])
      case OtherRequest(_) => (this, [])
    }
  }

  const NEW_NORMALIZER := Norm(0, 1, NO_TEXT, NO_TOOLS, map[])

  // ------------------------------------------------------------------------------------------
  // What every step keeps.

  /** Text indices stay in the synthetic range, and there is room for some more envelopes. */
  ghost predicate TextOk(n: Norm) {
    && SYNTHETIC_FINAL_TEXT_BLOCK_START <= n.text.next <= SYNTHETIC_FINAL_TEXT_BLOCK_START + n.nextSeq
    && (n.text.open.Some? ==> SYNTHETIC_FINAL_TEXT_BLOCK_START <= n.text.open.value < n.text.next)
  }

  predicate Room(n: Norm, count: nat) {
    n.nextSeq + count + SYNTHETIC_FINAL_TEXT_BLOCK_START <= U64_MAX
  }

  function View(n: Norm): Brackets {
    At(n.text.open, n.text.next)
  }

  /** `after` comes from `before` by handing out `envelopes`: consecutive numbers, the same pulse, and
      the text blocks bracketed from the one state to the other. */
  ghost predicate Follows(before: Norm, envelopes: seq<Envelope>, after: Norm) {
    && NumberedFrom(envelopes, before.nextSeq)
    && after.nextSeq == before.nextSeq + |envelopes|
    && after.pulse == before.pulse
    && TextOk(after)
    && BracketAll(View(before), envelopes) == View(after)
  }

  lemma FollowsNone(n: Norm, m: Norm)
    requires TextOk(n) && m.text == n.text && m.nextSeq == n.nextSeq && m.pulse == n.pulse
    ensures Follows(n, [], m)
  {
  }

  lemma FollowsThen(a: Norm, x: seq<Envelope>, b: Norm, y: seq<Envelope>, c: Norm)
    requires Follows(a, x, b) && Follows(b, y, c)
    ensures Follows(a, x + y, c)
  {
    NumberedConcat(x, y, a.nextSeq);
    BracketConcat(View(a), x, y);
  }

  /** One envelope, stamped by a state that agrees with `before` on everything a reader can see. */
  lemma FollowsOne(before: Norm, e: Envelope, after: Norm)
    requires TextOk(after) && e.sequence == before.nextSeq && after.nextSeq == before.nextSeq + 1
    requires after.pulse == before.pulse && Bracket(View(before), e.signal) == View(after)
    ensures Follows(before, [e], after)
  {
    assert [e] == [] + [e];
    BracketSnoc(View(before), [], e);
  }

  lemma CloseTextFollows(n: Norm)
    requires TextOk(n) && Room(n, 1)
    ensures Follows(n, n.CloseText().1, n.CloseText().0)
    ensures n.CloseText().0.text.open == None && |n.CloseText().1| <= 1
    ensures n.CloseText().0.tools == n.tools
  {
    if n.text.open.None? {
      FollowsNone(n, n);
    } else {
      FollowsOne(n, n.CloseText().1[0], n.CloseText().0);
    }
  }

  lemma CloseAndSayFollows(n: Norm, signal: Signal)
    requires TextOk(n) && Room(n, 2)
    requires !Marks(signal) && !signal.BlockDelta?
    ensures Follows(n, n.CloseAndSay(signal).1, n.CloseAndSay(signal).0)
    ensures n.CloseAndSay(signal).0.text.open == None
  {
    var (m, closing) := n.CloseText();
    CloseTextFollows(n);
    hide BracketAll;
    FollowsOne(m, m.Plain(signal), m.Advance());
    FollowsThen(n, closing, m, [m.Plain(signal)], m.Advance());
  }

  lemma {:induction false} StreamDeltaFollows(n: Norm, delta: string)
    requires TextOk(n) && Room(n, 2)
    ensures Follows(n, n.OnStreamDelta(delta).1, n.OnStreamDelta(delta).0)
  {
    var (m, opening) := n.OpenText();
    hide BracketAll;
    if n.text.open.None? {
      FollowsOne(n, opening[0], m);
    } else {
      FollowsNone(n, m);
    }
    var e := m.Stamp(BlockDelta(m.text.open.value, delta), None, None, m.SourceAt(m.text.open.value));
    FollowsOne(m, e, m.Advance());
    FollowsThen(n, opening, m, [e], m.Advance());
    assert opening + [e] == n.OnStreamDelta(delta).1;
  }

  lemma NormalizeBlockFollows(n: Norm, block: StreamBlock, callId: string)
    requires TextOk(n) && Room(n, 1)
    ensures Follows(n, n.NormalizeBlock(block, callId).1, n.NormalizeBlock(block, callId).0)
    ensures |n.NormalizeBlock(block, callId).1| <= 1
  {
    var (m, tool) := n.NormalizeBlock(block, callId);
    hide BracketAll, ChangedFiles;
    if block.ToolCall? || block.ToolResult? {
      FollowsOne(n, tool[0], m);
    } else {
      FollowsNone(n, m);
    }
  }

  lemma BlockStartFollows(n: Norm, index: nat, block: StreamBlock, callId: string)
    requires TextOk(n) && Room(n, 3) && index < SYNTHETIC_FINAL_TEXT_BLOCK_START
    ensures Follows(n, n.OnBlockStart(index, block, callId).1, n.OnBlockStart(index, block, callId).0)
  {
    hide BracketAll, Norm.CloseText, Norm.NormalizeBlock;
    var (n0, closing) := n.CloseText();
    CloseTextFollows(n);
    var source := SourceForBlock(block);
    var n1 := n0.(sources := n0.sources[index := source]);
    var start := n1.Stamp(BlockStart(index, block), None, None, Some(source));
    FollowsOne(n0, start, n1.Advance());
    FollowsThen(n, closing, n0, [start], n1.Advance());
    var (n2, tool) := n1.Advance().NormalizeBlock(block, callId);
    NormalizeBlockFollows(n1.Advance(), block, callId);
    FollowsThen(n, closing + [start], n1.Advance(), tool, n2);
    var n3 := n2.LinkStream(index, block);
    FollowsNone(n2, n3);
    FollowsThen(n, closing + [start] + tool, n2, [], n3);
    assert closing + [start] + tool + [] == closing + [start] + tool;
  }

  lemma BlockDeltaFollows(n: Norm, index: nat, delta: string, verdict: Verdict)
    requires TextOk(n) && Room(n, 2) && index < SYNTHETIC_FINAL_TEXT_BLOCK_START
    ensures Follows(n, n.OnBlockDelta(index, delta, verdict).1, n.OnBlockDelta(index, delta, verdict).0)
  {
    hide BracketAll;
    var first := n.Stamp(BlockDelta(index, delta), None, None, n.SourceAt(index));
    FollowsOne(n, first, n.Advance());
    if index in n.tools.streaming {
      var (m, second) := n.Advance().RecordArgumentsDelta(n.tools.streaming[index], delta, verdict);
      FollowsOne(n.Advance(), second, m);
      FollowsThen(n, [first], n.Advance(), [second], m);
      assert [first] + [second] == [first, second];
    }
  }

  lemma FinishTurnFollows(n: Norm, status: string, changedFiles: set<string>)
    requires TextOk(n) && Room(n, 2)
    ensures Follows(n, n.FinishTurn(status, changedFiles).1, n.FinishTurn(status, changedFiles).0)
    ensures n.FinishTurn(status, changedFiles).0.text.open == None
  {
    hide BracketAll, Norm.CloseText;
    var (m, closing) := n.CloseText();
    CloseTextFollows(n);
    var f := m.ForgetTurn();
    var end := f.Plain(PulseEnd(status, n.Resolve(changedFiles)));
    FollowsOne(m, end, f.Advance());
    FollowsThen(n, closing, m, [end], f.Advance());
  }

  lemma EmitErrorFollows(n: Norm, code: string, message: string, recoverable: bool, changedFiles: set<string>)
    requires TextOk(n) && Room(n, 3)
    ensures Follows(n, n.EmitError(code, message, recoverable, changedFiles).1,
                    n.EmitError(code, message, recoverable, changedFiles).0)
    ensures n.EmitError(code, message, recoverable, changedFiles).0.text.open == None
  {
    hide BracketAll, Norm.CloseAndSay;
    var failure := Failure(code, message, recoverable);
    var (m, said) := n.CloseAndSay(failure);
    CloseAndSayFollows(n, failure);
    if !recoverable {
      var f := m.ForgetTurn();
      var end := f.Plain(PulseEnd("failed", n.Resolve(changedFiles)));
      CloseAndSaySize(n, failure);
      FollowsOne(m, end, f.Advance());
      FollowsThen(n, said, m, [end], f.Advance());
    }
  }

  lemma CloseAndSaySize(n: Norm, signal: Signal)
    ensures |n.CloseAndSay(signal).1| <= 2
  {
  }

  lemma EmitMaxTurnsFollows(n: Norm, maxTurns: nat, changedFiles: set<string>)
    requires TextOk(n) && Room(n, 3)
    ensures Follows(n, n.EmitMaxTurns(maxTurns, changedFiles).1, n.EmitMaxTurns(maxTurns, changedFiles).0)
    ensures n.EmitMaxTurns(maxTurns, changedFiles).0.text.open == None
  {
    hide BracketAll, Norm.CloseText;
    var (m, closing) := n.CloseText();
    CloseTextFollows(n);
    var f := m.ForgetTurn();
    var reached := f.Plain(MaxTurnsReached(maxTurns));
    var end := f.Advance().Plain(PulseEnd("failed", n.Resolve(changedFiles)));
    FollowsOne(m, reached, f.Advance());
    FollowsThen(n, closing, m, [reached], f.Advance());
    FollowsOne(f.Advance(), end, f.Advance().Advance());
    FollowsThen(n, closing + [reached], f.Advance(), [end], f.Advance().Advance());
  }

  /** A provider block whose index stays below the synthetic range. */
  predicate ProviderIndexOk(update: Update) {
    update.StreamBlockStart? || update.StreamBlockDelta? || update.StreamBlockComplete? ==>
      update.index < SYNTHETIC_FINAL_TEXT_BLOCK_START
  }

  /** Every update keeps the numbering and the bracketing, and an ended pulse has no open text block. */
  lemma NormalizeFollows(n: Norm, update: Update, changedFiles: set<string>)
    requires TextOk(n) && Room(n, 3) && ProviderIndexOk(update)
    ensures Follows(n, n.Normalize(update, changedFiles).1, n.Normalize(update, changedFiles).0)
    ensures update.PulseComplete? || update.ErrorUpdate? ==> n.Normalize(update, changedFiles).0.text.open == None
  {
    hide BracketAll, Norm.CloseText, Norm.CloseAndSay, Norm.OnStreamDelta, Norm.OnBlockStart, Norm.OnBlockDelta,
      Norm.FinishTurn, Norm.EmitError;
    match update {
      case LineUpdate(line) => CloseAndSayFollows(n, TranscriptLine(line));
      case StreamDelta(delta) => StreamDeltaFollows(n, delta);
      case StreamBlockStart(index, block, callId) => BlockStartFollows(n, index, block, callId);
      case StreamBlockDelta(index, delta, verdict) => BlockDeltaFollows(n, index, delta, verdict);
      case StreamBlockComplete(index) => FollowsOne(n, n.OnBlockComplete(index).1[0], n.OnBlockComplete(index).0);
      case PulseComplete => FinishTurnFollows(n, "completed", changedFiles);
      case ErrorUpdate(message) => EmitErrorFollows(n, "runtime_error", message, false, changedFiles);
      case ToolApprovalUpdate(capability) => CloseAndSayFollows(n, ApprovalRequest(capability));
      case MetadataUpdate => FollowsOne(n, n.Plain(ServerMetadata), n.Advance());
      case SilentUpdate => FollowsNone(n, n);
    }
  }

  lemma {:induction false} BrokenStays(envelopes: seq<Envelope>)
    ensures BracketAll(Broken, envelopes) == Broken
    decreases |envelopes|
  {
    if envelopes != [] {
      BrokenStays(envelopes[..|envelopes| - 1]);
    }
  }

  /** Outside the provider range a block that starts leaves itself open in the stream. */
  lemma {:induction false} BadStartBreaks(n: Norm, index: nat, block: StreamBlock, callId: string)
    requires TextOk(n) && Room(n, 3) && index >= SYNTHETIC_FINAL_TEXT_BLOCK_START
    ensures !Follows(n, n.OnBlockStart(index, block, callId).1, n.OnBlockStart(index, block, callId).0)
  {
    hide BracketAll, Norm.CloseText, Norm.NormalizeBlock;
    var (n0, closing) := n.CloseText();
    CloseTextFollows(n);
    var source := SourceForBlock(block);
    var n1 := n0.(sources := n0.sources[index := source]);
    var start := n1.Stamp(BlockStart(index, block), None, None, Some(source));
    var (n2, tool) := n1.Advance().NormalizeBlock(block, callId);
    BracketConcat(View(n), closing + [start], tool);
    BracketSnoc(View(n), closing, start);
    ToolEnvelopesBracketNothing(n1.Advance(), block, callId, BracketAll(View(n), closing + [start]));
  }

  lemma {:induction false} ToolEnvelopesBracketNothing(n: Norm, block: StreamBlock, callId: string, b: Brackets)
    ensures BracketAll(b, n.NormalizeBlock(block, callId).1) == b
    ensures n.NormalizeBlock(block, callId).0.text == n.text
  {
    hide ChangedFiles;
    var tool := n.NormalizeBlock(block, callId).1;
    if tool != [] {
      assert tool == [] + [tool[0]];
      BracketSnoc(b, [], tool[0]);
    }
  }

  /** A delta outside the provider range does no harm exactly when it names the text block that is open. */
  lemma {:induction false} BadDeltaIff(n: Norm, index: nat, delta: string, verdict: Verdict)
    requires TextOk(n) && Room(n, 2) && index >= SYNTHETIC_FINAL_TEXT_BLOCK_START
    ensures Follows(n, n.OnBlockDelta(index, delta, verdict).1, n.OnBlockDelta(index, delta, verdict).0) <==>
            n.text.open == Some(index)
  {
    hide BracketAll;
    var first := n.Stamp(BlockDelta(index, delta), None, None, n.SourceAt(index));
    var (m, said) := n.OnBlockDelta(index, delta, verdict);
    assert [first] == [] + [first];
    BracketSnoc(View(n), [], first);
    BracketNone(View(n));
    if index in n.tools.streaming {
      var second := said[1];
      assert said == [first] + [second];
      BracketSnoc(View(n), [first], second);
    } else {
      assert said == [first];
    }
  }

  lemma BracketNone(b: Brackets)
    ensures BracketAll(b, []) == b
  {
  }

  lemma {:induction false} BadCompleteBreaks(n: Norm, index: nat)
    requires TextOk(n) && Room(n, 1) && index >= SYNTHETIC_FINAL_TEXT_BLOCK_START
    ensures !Follows(n, n.OnBlockComplete(index).1, n.OnBlockComplete(index).0)
  {
    hide BracketAll;
    var e := n.OnBlockComplete(index).1[0];
    assert [e] == [] + [e];
    BracketSnoc(View(n), [], e);
    BracketNone(View(n));
  }

  /** Exactly which updates keep numbering and bracketing: those whose block index is a provider's, and a
      delta that names the synthetic text block which happens to be open. */
  lemma {:induction false} NormalizeFollowsIff(n: Norm, update: Update, changedFiles: set<string>)
    requires TextOk(n) && Room(n, 3)
    ensures Follows(n, n.Normalize(update, changedFiles).1, n.Normalize(update, changedFiles).0) <==>
            ProviderIndexOk(update) || (update.StreamBlockDelta? && n.text.open == Some(update.index))
  {
    hide Follows, Norm.OnBlockStart, Norm.OnBlockDelta, Norm.OnBlockComplete;
    if ProviderIndexOk(update) {
      NormalizeFollows(n, update, changedFiles);
    } else {
      match update {
        case StreamBlockStart(index, block, callId) => BadStartBreaks(n, index, block, callId);
        case StreamBlockDelta(index, delta, verdict) => BadDeltaIff(n, index, delta, verdict);
        case StreamBlockComplete(index) => BadCompleteBreaks(n, index);
      }
    }
  }

  /** A stream that such an index breaks: the provider's block is taken for the synthetic one. */
  lemma ProviderIndexClash(n: Norm)
    requires n == NEW_NORMALIZER
    ensures var (a, x) := n.Normalize(StreamDelta("hi"), {});
            var (b, y) := a.Normalize(StreamBlockComplete(SYNTHETIC_FINAL_TEXT_BLOCK_START), {});
            var (c, z) := b.Normalize(PulseComplete, {});
            BracketAll(NO_BLOCK, x + y + z) == Broken
  {
    var (a, x) := n.Normalize(StreamDelta("hi"), {});
    var (b, y) := a.Normalize(StreamBlockComplete(SYNTHETIC_FINAL_TEXT_BLOCK_START), {});
    var (c, z) := b.Normalize(PulseComplete, {});
    var i := SYNTHETIC_FINAL_TEXT_BLOCK_START;
    assert x == [x[0], x[1]] && y == [y[0]] && z == [z[0], z[1]];
    assert x[0].signal == BlockStart(i, FinalText("")) && x[1].signal == BlockDelta(i, "hi");
    assert y[0].signal == BlockComplete(i) && z[0].signal == BlockComplete(i);
    var s0 := [x[0]];
    assert x + y + z == (((([] + [x[0]]) + [x[1]]) + [y[0]]) + [z[0]]) + [z[1]];
    BracketSnoc(NO_BLOCK, [], x[0]);
    BracketSnoc(NO_BLOCK, [] + [x[0]], x[1]);
    BracketSnoc(NO_BLOCK, ([] + [x[0]]) + [x[1]], y[0]);
    BracketSnoc(NO_BLOCK, (([] + [x[0]]) + [x[1]]) + [y[0]], z[0]);
    BracketSnoc(NO_BLOCK, ((([] + [x[0]]) + [x[1]]) + [y[0]]) + [z[0]], z[1]);
  }

  /** Numbers and text indices are kept by every update, whatever index it names. */
  ghost predicate Numbers(before: Norm, envelopes: seq<Envelope>, after: Norm) {
    NumberedFrom(envelopes, before.nextSeq) && after.nextSeq == before.nextSeq + |envelopes| && TextOk(after)
  }

  lemma NormalizeNumbers(n: Norm, update: Update, changedFiles: set<string>)
    requires TextOk(n) && Room(n, 3)
    ensures Numbers(n, n.Normalize(update, changedFiles).1, n.Normalize(update, changedFiles).0)
    ensures n.Normalize(update, changedFiles).0.pulse == n.pulse
  {
    hide BracketAll;
    if ProviderIndexOk(update) {
      NormalizeFollows(n, update, changedFiles);
    } else if update.StreamBlockStart? {
      hide Norm.CloseText, Norm.NormalizeBlock;
      var (n0, closing) := n.CloseText();
      CloseTextFollows(n);
      var n1 := n0.(sources := n0.sources[update.index := SourceForBlock(update.block)]).Advance();
      NormalizeBlockFollows(n1, update.block, update.callId);
    }
  }

  /** So what is left to an update's index is the brackets. */
  lemma {:induction false} BracketsIff(n: Norm, update: Update, changedFiles: set<string>)
    requires TextOk(n) && Room(n, 3)
    ensures BracketAll(View(n), n.Normalize(update, changedFiles).1) == View(n.Normalize(update, changedFiles).0) <==>
            ProviderIndexOk(update) || (update.StreamBlockDelta? && n.text.open == Some(update.index))
  {
    hide BracketAll, Norm.Normalize, TextOk, ProviderIndexOk;
    NormalizeNumbers(n, update, changedFiles);
    NormalizeFollowsIff(n, update, changedFiles);
  }

  // ------------------------------------------------------------------------------------------
  // Tool results point back at the start of their call.

  /** Envelope `m` of the log announced a call of that id and name, under that frame. */
  ghost predicate StartedAt(log: seq<Envelope>, m: int, callId: string, name: string, frame: Frame) {
    && 0 <= m < |log|
    && log[m].signal.ToolCallStarted?
    && log[m].signal.callId == callId && log[m].signal.toolName == name
    && Frame(log[m].pulse, log[m].sequence) == frame
  }

  ghost predicate CallStarted(log: seq<Envelope>, callId: string, name: string, frame: Frame) {
    exists m :: StartedAt(log, m, callId, name, frame)
  }

  ghost predicate Grounded(tools: Tools, log: seq<Envelope>) {
    && (forall key :: key in tools.pending ==>
          CallStarted(log, tools.pending[key].runtimeId, tools.pending[key].name, tools.pending[key].startFrame))
    && (forall callId :: callId in tools.contexts ==>
          CallStarted(log, callId, tools.contexts[callId].name, tools.contexts[callId].startFrame))
  }

  predicate AboutCall(signal: Signal) {
    signal.ToolCallCompleted? || signal.ToolCallFailed? || signal.ToolCallArgumentsDelta?
  }

  /** A result or a fragment of arguments that names its tool carries the frame of an earlier start with the
      same id and name, and anything else carries none. */
  ghost predicate PointsBack(log: seq<Envelope>, e: Envelope) {
    if AboutCall(e.signal) && e.signal.name.Some?
    then e.parent.Some? && CallStarted(log, e.signal.callId, e.signal.name.value, e.parent.value)
    else e.parent.None?
  }

  ghost predicate AllPointBack(log: seq<Envelope>, added: seq<Envelope>) {
    forall i :: 0 <= i < |added| ==> PointsBack(log, added[i])
  }

  lemma CallStartedLater(log: seq<Envelope>, more: seq<Envelope>, callId: string, name: string, frame: Frame)
    requires CallStarted(log, callId, name, frame)
    ensures CallStarted(log + more, callId, name, frame)
  {
    var m :| StartedAt(log, m, callId, name, frame);
    assert (log + more)[m] == log[m];
    assert StartedAt(log + more, m, callId, name, frame);
  }

  lemma GroundedLater(tools: Tools, log: seq<Envelope>, more: seq<Envelope>)
    requires Grounded(tools, log)
    ensures Grounded(tools, log + more)
  {
    hide CallStarted;
    forall key | key in tools.pending
      ensures CallStarted(log + more, tools.pending[key].runtimeId, tools.pending[key].name, tools.pending[key].startFrame)
    {
      CallStartedLater(log, more, tools.pending[key].runtimeId, tools.pending[key].name, tools.pending[key].startFrame);
    }
    forall callId | callId in tools.contexts
      ensures CallStarted(log + more, callId, tools.contexts[callId].name, tools.contexts[callId].startFrame)
    {
      CallStartedLater(log, more, callId, tools.contexts[callId].name, tools.contexts[callId].startFrame);
    }
  }

  /** Nothing in `later` is known that was not known before, except for changed arguments. */
  ghost predicate NoNewCalls(before: Tools, later: Tools) {
    && (forall key :: key in later.pending ==>
          && key in before.pending
          && later.pending[key] == before.pending[key].(arguments := later.pending[key].arguments))
    && (forall callId :: callId in later.contexts ==>
          callId in before.contexts && later.contexts[callId] == before.contexts[callId])
  }

  lemma NoNewCallsGrounded(before: Tools, later: Tools, log: seq<Envelope>)
    requires Grounded(before, log) && NoNewCalls(before, later)
    ensures Grounded(later, log)
  {
    hide CallStarted;
  }

  lemma ToolCallGrounded(n: Norm, sourceId: string, name: string, arguments: Arguments, callId: string, log: seq<Envelope>)
    requires Grounded(n.tools, log)
    ensures var (m, e) := n.RecordToolCall(sourceId, name, arguments, callId);
            Grounded(m.tools, log + [e]) && PointsBack(log, e)
  {
    var (after, e) := n.RecordToolCall(sourceId, name, arguments, callId);
    GroundedLater(n.tools, log, [e]);
    assert StartedAt(log + [e], |log|, callId, name, Frame(n.pulse, n.nextSeq));
    assert CallStarted(log + [e], callId, name, Frame(n.pulse, n.nextSeq));
    hide CallStarted;
  }

  lemma ToolResultPointsBack(n: Norm, sourceId: string, text: string, isError: bool, log: seq<Envelope>)
    requires Grounded(n.tools, log)
    ensures var (m, e) := n.RecordToolResult(sourceId, text, isError); Grounded(m.tools, log) && PointsBack(log, e)
  {
    hide ChangedFiles, CallStarted;
    NoNewCallsGrounded(n.tools, n.RecordToolResult(sourceId, text, isError).0.tools, log);
  }

  lemma DeltaPointsBack(n: Norm, index: nat, delta: string, verdict: Verdict, log: seq<Envelope>)
    requires Grounded(n.tools, log)
    ensures var (m, added) := n.OnBlockDelta(index, delta, verdict); NoNewCalls(n.tools, m.tools) && AllPointBack(log, added)
  {
    hide CallStarted;
  }

  /** Every update keeps the known calls grounded in the log, and every tool envelope it emits points back. */
  lemma ResultsPointBack(n: Norm, update: Update, changedFiles: set<string>, log: seq<Envelope>)
    requires Grounded(n.tools, log)
    ensures var (m, added) := n.Normalize(update, changedFiles);
            Grounded(m.tools, log + added) && AllPointBack(log, added)
  {
    hide Grounded, NoNewCalls, PointsBack;
    var (m, added) := n.Normalize(update, changedFiles);
    if update.StreamBlockStart? {
      BlockStartPointsBack(n, update.index, update.block, update.callId, log);
    } else {
      if update.StreamBlockDelta? {
        DeltaPointsBack(n, update.index, update.delta, update.verdict, log);
      } else {
        OthersAddNoCalls(n, update, changedFiles, log);
      }
      hide Norm.Normalize;
      NoNewCallsGrounded(n.tools, m.tools, log);
      GroundedLater(m.tools, log, added);
    }
  }

  lemma OthersAddNoCalls(n: Norm, update: Update, changedFiles: set<string>, log: seq<Envelope>)
    requires !update.StreamBlockStart? && !update.StreamBlockDelta?
    ensures var (m, added) := n.Normalize(update, changedFiles); NoNewCalls(n.tools, m.tools) && AllPointBack(log, added)
  {
    hide CallStarted;
  }

  lemma BlockStartPointsBack(n: Norm, index: nat, block: StreamBlock, callId: string, log: seq<Envelope>)
    requires Grounded(n.tools, log)
    ensures var (m, added) := n.OnBlockStart(index, block, callId);
            Grounded(m.tools, log + added) && AllPointBack(log, added)
  {
    hide Grounded, ChangedFiles, CallStarted;
    var (n0, closing) := n.CloseText();
    var source := SourceForBlock(block);
    var n1 := n0.(sources := n0.sources[index := source]);
    var start := n1.Stamp(BlockStart(index, block), None, None, Some(source));
    var told := log + (closing + [start]);
    assert n1.Advance().tools == n.tools && AllPointBack(log, closing + [start]);
    var (n2, tool) := n1.Advance().NormalizeBlock(block, callId);
    var n3 := n2.LinkStream(index, block);
    assert log + (closing + [start] + tool) == told + tool;
    if block.ToolCall? {
      GroundedLater(n.tools, log, closing + [start]);
      ToolCallGrounded(n1.Advance(), block.id, block.name, block.input, callId, told);
      NoNewCallsGrounded(n2.tools, n3.tools, told + tool);
      assert AllPointBack(log, tool);
    } else if block.ToolResult? {
      ToolResultPointsBack(n1.Advance(), block.toolCallId, block.text, block.isError, log);
      GroundedLater(n2.tools, log, closing + [start] + tool);
    } else {
      GroundedLater(n2.tools, log, closing + [start] + tool);
    }
  }
}
