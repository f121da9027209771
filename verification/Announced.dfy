/** What the envelopes of a pulse say, told by its updates alone: every block, tool call and result, line and
    end, in order, with its payload. */
module Announced {
  import opened ToolEvidence
  import opened Wrappers
  import opened Envelopes
  import opened Normalizing

  // ------------------------------------------------------------------------------------------
  // Tool calls, as the updates of a pulse tell them.

  /** The call of that id that still waits for its result: where it was made. */
  function OpenCall(updates: seq<Update>, id: string): (r: Option<nat>)
    ensures r.Some? ==> r.value < |updates| && CallsTool(updates[r.value], id)
  {
    if updates == [] then None
    else
      var front, last := updates[..|updates| - 1], updates[|updates| - 1];
      if CallsTool(last, id) then Some(|front|)
      else if ResultOf(last, id) || EndsTurn(last) then None
      else OpenCall(front, id)
  }

  /** The runtime id of the call whose arguments are streamed at an index. */
  function StreamedCall(updates: seq<Update>, index: nat): Option<string> {
    if updates == [] then None
    else
      var front, last := updates[..|updates| - 1], updates[|updates| - 1];
      match last
      case StreamBlockStart(i, ToolCall(_, _, _), callId) => if i == index then Some(callId) else StreamedCall(front, index)
      case StreamBlockComplete(i) => if i == index then None else StreamedCall(front, index)
      case PulseComplete => None
      case ErrorUpdate(_) => None
      case _ => StreamedCall(front, index)
  }

  /** The arguments of the call made at `at`: those it came with, until what was streamed of them parses. */
  function LatestArguments(updates: seq<Update>, at: nat): Arguments
    requires at < |updates| && updates[at].StreamBlockStart? && updates[at].block.ToolCall?
  {
    if |updates| == at + 1 then updates[at].block.input
    else
      var front, last := updates[..|updates| - 1], updates[|updates| - 1];
      if last.StreamBlockDelta? && last.verdict.parsed.Some? && StreamedCall(front, last.index) == Some(updates[at].callId)
      then last.verdict.parsed.value
      else LatestArguments(front, at)
  }

  /** The tool of the last call under a runtime id, until a result settles that id. */
  function KnownTool(updates: seq<Update>, callId: string): Option<string> {
    if updates == [] then None
    else
      var front, last := updates[..|updates| - 1], updates[|updates| - 1];
      match last
      case StreamBlockStart(_, ToolCall(_, name, _), c) => if c == callId then Some(name) else KnownTool(front, callId)
      case StreamBlockStart(_, ToolResult(id, _, _), _) =>
        var call := OpenCall(front, id);
        if call.Some? && front[call.value].callId == callId then None else KnownTool(front, callId)
      case PulseComplete => None
      case ErrorUpdate(_) => None
      case _ => KnownTool(front, callId)
  }

  /** Some call under that runtime id still waits for its result. */
  ghost predicate Waits(updates: seq<Update>, callId: string) {
    exists id :: OpenCall(updates, id).Some? && updates[OpenCall(updates, id).value].callId == callId
  }

  /** The files changed by the calls that got a good result. */
  function FilesChanged(updates: seq<Update>): set<string> {
    if updates == [] then {}
    else
      var front, last := updates[..|updates| - 1], updates[|updates| - 1];
      var call := if last.StreamBlockStart? && last.block.ToolResult? then OpenCall(front, last.block.toolCallId) else None;
      FilesChanged(front) +
      if call.Some? && !last.block.isError
      then ChangedFiles(front[call.value].block.name, LatestArguments(front, call.value)) else {}
  }

  /** Whose block is open at a provider's index. */
  function BlockSource(updates: seq<Update>, index: nat): Option<Source> {
    if updates == [] then None
    else
      var front, last := updates[..|updates| - 1], updates[|updates| - 1];
      match last
      case StreamBlockStart(i, block, _) =>
        if i == index then Some(if block.ToolResult? then Runtime else Model) else BlockSource(front, index)
      case StreamBlockComplete(i) => if i == index then None else BlockSource(front, index)
      case PulseComplete => None
      case ErrorUpdate(_) => None
      case _ => BlockSource(front, index)
  }

  // ------------------------------------------------------------------------------------------
  // What is said.

  function Say(pulse: nat, signal: Signal, source: Source): Envelope {
    Envelope(pulse, 0, source, None, None, signal)
  }

  predicate Synthetic(index: nat) {
    index >= SYNTHETIC_FINAL_TEXT_BLOCK_START
  }

  /** What is left of an envelope apart from numbers and frames: the marks of a synthetic text block are the
      normalizer's own, its text is loose. */
  function SeenOf(e: Envelope): seq<Envelope> {
    match e.signal
    case BlockStart(index, _) => if Synthetic(index) then [] else [e.(sequence := 0, parent := None)]
    case BlockComplete(index) => if Synthetic(index) then [] else [e.(sequence := 0, parent := None)]
    case BlockDelta(index, delta) =>
      if Synthetic(index) then [Say(e.pulse, BlockDelta(SYNTHETIC_FINAL_TEXT_BLOCK_START, delta), Model)]
      else [e.(sequence := 0, parent := None)]
    case _ => [e.(sequence := 0, parent := None)]
  }

  function Seen(envelopes: seq<Envelope>): seq<Envelope> {
    if envelopes == [] then [] else Seen(envelopes[..|envelopes| - 1]) + SeenOf(envelopes[|envelopes| - 1])
  }

  /** A result is a failure exactly when it is an error, and is told under the call it answers. */
  function ResultSignal(updates: seq<Update>, id: string, text: string, isError: bool): Signal {
    var call := OpenCall(updates, id);
    var callId, name := if call.Some? then updates[call.value].callId else id,
                        if call.Some? then Some(updates[call.value].block.name) else None;
    if isError then ToolCallFailed(callId, name, Error, text) else ToolCallCompleted(callId, name, Complete, text)
  }

  function Or(source: Option<Source>, default: Source): Source {
    if source.Some? then source.value else default
  }

  /** What one more update makes the envelopes say. */
  ghost function Said(pulse: nat, updates: seq<Update>, u: Update, files: set<string>): seq<Envelope> {
    match u
    case LineUpdate(line) => [Say(pulse, TranscriptLine(line), Runtime)]
    case StreamDelta(delta) => [Say(pulse, BlockDelta(SYNTHETIC_FINAL_TEXT_BLOCK_START, delta), Model)]
    case StreamBlockStart(index, block, callId) =>
      SeenOf(Say(pulse, BlockStart(index, block), if block.ToolResult? then Runtime else Model)) +
      (match block
       case ToolCall(_, name, input) => [Say(pulse, ToolCallStarted(callId, name, input), Model)]
       case ToolResult(id, text, isError) => [Say(pulse, ResultSignal(updates, id, text, isError), Runtime)]
       case _ => [])
    case StreamBlockDelta(index, delta, verdict) =>
      var call := StreamedCall(updates, index);
      SeenOf(Say(pulse, BlockDelta(index, delta), Or(BlockSource(updates, index), Runtime))) +
      if call.None? then []
      else [Say(pulse, ToolCallArgumentsDelta(call.value, KnownTool(updates, call.value), delta,
                                              if Waits(updates, call.value) then verdict.parsed else None,
                                              verdict.invalidJson), Model)]
    case StreamBlockComplete(index) => SeenOf(Say(pulse, BlockComplete(index), Or(BlockSource(updates, index), Model)))
    case PulseComplete => [Say(pulse, PulseEnd("completed", if files == {} then FilesChanged(updates) else files), Runtime)]
    case ErrorUpdate(message) =>
      [Say(pulse, Failure("runtime_error", message, false), Runtime),
       Say(pulse, PulseEnd("failed", if files == {} then FilesChanged(updates) else files), Runtime)]
    case ToolApprovalUpdate(capability) => [Say(pulse, ApprovalRequest(capability), Runtime)]
    case MetadataUpdate => [Say(pulse, ServerMetadata, Model)]
    case SilentUpdate => []
  }

  // ------------------------------------------------------------------------------------------
  // The normalizer knows what the updates tell.

  ghost predicate KnowsPending(pending: map<string, PendingCall>, updates: seq<Update>) {
    forall id ::
      var call := OpenCall(updates, id);
      && (id in pending <==> call.Some?)
      && (call.Some? ==>
            && pending[id].runtimeId == updates[call.value].callId
            && pending[id].name == updates[call.value].block.name
            && pending[id].arguments == LatestArguments(updates, call.value))
  }

  ghost predicate KnowsStreams(streaming: map<nat, string>, updates: seq<Update>) {
    forall index ::
      && (index in streaming <==> StreamedCall(updates, index).Some?)
      && (index in streaming ==> streaming[index] == StreamedCall(updates, index).value)
  }

  ghost predicate KnowsTools(contexts: map<string, CallContext>, updates: seq<Update>) {
    forall callId ::
      && (callId in contexts <==> KnownTool(updates, callId).Some?)
      && (callId in contexts ==> contexts[callId].name == KnownTool(updates, callId).value)
  }

  ghost predicate KnowsSources(sources: map<nat, Source>, updates: seq<Update>) {
    forall index ::
      !Synthetic(index) ==>
        && (index in sources <==> BlockSource(updates, index).Some?)
        && (index in sources ==> sources[index] == BlockSource(updates, index).value)
  }

  predicate KnowsText(text: TextBlocks) {
    Synthetic(text.next) && (text.open.Some? ==> Synthetic(text.open.value))
  }

  ghost predicate Knows(n: Norm, updates: seq<Update>) {
    && KnowsPending(n.tools.pending, updates)
    && KnowsStreams(n.tools.streaming, updates)
    && KnowsTools(n.tools.contexts, updates)
    && KnowsSources(n.sources, updates)
    && KnowsText(n.text)
    && n.tools.changedFiles == FilesChanged(updates)
  }

  lemma OneMore(updates: seq<Update>, u: Update)
    ensures (updates + [u])[..|updates|] == updates && (updates + [u])[|updates|] == u
  {
  }

  lemma TextEffects(n: Norm, u: Update, files: set<string>)
    requires KnowsText(n.text)
    ensures KnowsText(n.Normalize(u, files).0.text) && n.Normalize(u, files).0.pulse == n.pulse
  {
    hide ChangedFiles;
  }

  /** What an update does to the sources, whatever it says. */
  lemma SourceEffects(n: Norm, u: Update, files: set<string>)
    requires KnowsText(n.text)
    ensures var after := n.Normalize(u, files).0.sources;
            forall index :: !Synthetic(index) ==>
              && (index in after <==> index in SourcesAfter(n.sources, u))
              && (index in after ==> after[index] == SourcesAfter(n.sources, u)[index])
  {
    hide ChangedFiles, Norm.RecordArgumentsDelta;
    if u.StreamBlockDelta? && u.index in n.tools.streaming {
      DeltaSources(n.Advance(), n.tools.streaming[u.index], u.delta, u.verdict);
    }
  }

  lemma DeltaSources(n: Norm, callId: string, delta: string, verdict: Verdict)
    ensures n.RecordArgumentsDelta(callId, delta, verdict).0.sources == n.sources
  {
  }

  /** What an update other than a block start does to the tools. */
  lemma ToolEffects(n: Norm, u: Update, files: set<string>)
    requires !u.StreamBlockStart?
    ensures n.Normalize(u, files).0.tools ==
            match u
            case StreamBlockDelta(index, _, verdict) =>
              if index in n.tools.streaming
              then n.RecordArgumentsDelta(n.tools.streaming[index], "", verdict).0.tools else n.tools
            case StreamBlockComplete(index) => n.tools.(streaming := n.tools.streaming - {index})
            case PulseComplete => NO_TOOLS.(changedFiles := n.tools.changedFiles)
            case ErrorUpdate(_) => NO_TOOLS.(changedFiles := n.tools.changedFiles)
            case _ => n.tools
  {
  }

  function SourcesAfter(sources: map<nat, Source>, u: Update): map<nat, Source> {
    match u
    case StreamBlockStart(index, block, _) => sources[index := SourceForBlock(block)]
    case StreamBlockComplete(index) => sources - {index}
    case PulseComplete => map[]
    case ErrorUpdate(_) => map[]
    case _ => sources
  }

  lemma BlockEffects(n: Norm, index: nat, block: StreamBlock, callId: string)
    ensures var after := n.OnBlockStart(index, block, callId).0.tools;
            match block
            case ToolCall(id, name, input) =>
              && id in after.pending && after.pending == n.tools.pending[id := after.pending[id]]
              && after.pending[id].runtimeId == callId && after.pending[id].name == name
              && after.pending[id].arguments == input
              && callId in after.contexts && after.contexts == n.tools.contexts[callId := after.contexts[callId]]
              && after.contexts[callId].name == name
              && after.streaming == n.tools.streaming[index := callId] && after.changedFiles == n.tools.changedFiles
            case ToolResult(id, _, isError) =>
              && after.pending == n.tools.pending - {id} && after.streaming == n.tools.streaming
              && after.contexts == n.tools.contexts - (if id in n.tools.pending then {n.tools.pending[id].runtimeId} else {})
              && after.changedFiles == n.tools.changedFiles +
                                       if id in n.tools.pending && !isError
                                       then ChangedFiles(n.tools.pending[id].name, n.tools.pending[id].arguments) else {}
            case _ => after == n.tools
  {
    hide ChangedFiles;
    if block.ToolResult? && block.toolCallId !in n.tools.pending {
      assert n.tools.pending - {block.toolCallId} == n.tools.pending;
      assert n.tools.contexts - {} == n.tools.contexts;
    }
  }

  lemma SourcesStep(n: Norm, updates: seq<Update>, u: Update, files: set<string>)
    requires KnowsText(n.text) && KnowsSources(n.sources, updates)
    ensures KnowsSources(n.Normalize(u, files).0.sources, updates + [u])
  {
    hide Norm.Normalize, Synthetic, KnowsText;
    SourceEffects(n, u, files);
    OneMore(updates, u);
  }

  lemma StreamsStep(n: Norm, updates: seq<Update>, u: Update, files: set<string>)
    requires KnowsStreams(n.tools.streaming, updates)
    ensures KnowsStreams(n.Normalize(u, files).0.tools.streaming, updates + [u])
  {
    hide KnowsText, Norm.OnBlockStart, SourcesAfter;
    OneMore(updates, u);
    if u.StreamBlockStart? {
      BlockEffects(n, u.index, u.block, u.callId);
    } else {
      ToolEffects(n, u, files);
    }
    hide Norm.Normalize;
  }

  lemma ToolsStep(n: Norm, updates: seq<Update>, u: Update, files: set<string>)
    requires KnowsPending(n.tools.pending, updates) && KnowsTools(n.tools.contexts, updates)
    ensures KnowsTools(n.Normalize(u, files).0.tools.contexts, updates + [u])
  {
    hide KnowsText, Norm.OnBlockStart, SourcesAfter, OpenCall, LatestArguments, ChangedFiles;
    OneMore(updates, u);
    if u.StreamBlockStart? {
      BlockEffects(n, u.index, u.block, u.callId);
    } else {
      ToolEffects(n, u, files);
    }
    hide Norm.Normalize;
  }

  lemma FilesStep(n: Norm, updates: seq<Update>, u: Update, files: set<string>)
    requires KnowsPending(n.tools.pending, updates)
    requires n.tools.changedFiles == FilesChanged(updates)
    ensures n.Normalize(u, files).0.tools.changedFiles == FilesChanged(updates + [u])
  {
    hide KnowsText, Norm.OnBlockStart, SourcesAfter, OpenCall, LatestArguments, ChangedFiles;
    OneMore(updates, u);
    if u.StreamBlockStart? {
      BlockEffects(n, u.index, u.block, u.callId);
    } else {
      ToolEffects(n, u, files);
    }
    hide Norm.Normalize;
  }

  lemma OpenCallMore(updates: seq<Update>, u: Update, id: string)
    ensures OpenCall(updates + [u], id) ==
            if CallsTool(u, id) then Some(|updates|)
            else if ResultOf(u, id) || EndsTurn(u) then None
            else OpenCall(updates, id)
  {
    OneMore(updates, u);
  }

  lemma ArgumentsMore(updates: seq<Update>, u: Update, at: nat)
    requires at < |updates| && updates[at].StreamBlockStart? && updates[at].block.ToolCall?
    ensures LatestArguments(updates + [u], at) ==
            if u.StreamBlockDelta? && u.verdict.parsed.Some? && StreamedCall(updates, u.index) == Some(updates[at].callId)
            then u.verdict.parsed.value else LatestArguments(updates, at)
  {
    OneMore(updates, u);
  }

  lemma ArgumentsFirst(updates: seq<Update>, u: Update)
    requires u.StreamBlockStart? && u.block.ToolCall?
    ensures LatestArguments(updates + [u], |updates|) == u.block.input
  {
  }

  lemma PendingStep(n: Norm, updates: seq<Update>, u: Update, files: set<string>)
    requires KnowsPending(n.tools.pending, updates) && KnowsStreams(n.tools.streaming, updates)
    ensures KnowsPending(n.Normalize(u, files).0.tools.pending, updates + [u])
  {
    hide KnowsText, Norm.OnBlockStart, Norm.RecordArgumentsDelta, SourcesAfter, OpenCall, LatestArguments, StreamedCall;
    hide ChangedFiles;
    if u.StreamBlockStart? {
      BlockEffects(n, u.index, u.block, u.callId);
    } else {
      ToolEffects(n, u, files);
    }
    var after := n.Normalize(u, files).0.tools;
    hide Norm.Normalize;
    if u.StreamBlockDelta? && u.index in n.tools.streaming {
      ReplacedArguments(n, n.tools.streaming[u.index], "", u.verdict);
    }
    forall id
      ensures var call := OpenCall(updates + [u], id);
              && (id in after.pending <==> call.Some?)
              && (call.Some? ==>
                    && after.pending[id].runtimeId == (updates + [u])[call.value].callId
                    && after.pending[id].name == (updates + [u])[call.value].block.name
                    && after.pending[id].arguments == LatestArguments(updates + [u], call.value))
    {
      OpenCallMore(updates, u, id);
      if CallsTool(u, id) {
        ArgumentsFirst(updates, u);
      } else if OpenCall(updates + [u], id).Some? {
        ArgumentsMore(updates, u, OpenCall(updates, id).value);
      }
    }
  }

  /** Parsed arguments replace those of every waiting call under that runtime id. */
  lemma ReplacedArguments(n: Norm, callId: string, delta: string, verdict: Verdict)
    ensures var after := n.RecordArgumentsDelta(callId, delta, verdict).0.tools.pending;
            && after.Keys == n.tools.pending.Keys
            && forall id :: id in after ==>
                 after[id] == if verdict.parsed.Some? && n.tools.pending[id].runtimeId == callId
                              then n.tools.pending[id].(arguments := verdict.parsed.value) else n.tools.pending[id]
  {
    assert forall id :: id in n.tools.pending && n.tools.pending[id].runtimeId == callId ==> n.Runs(callId);
  }

  /** Whatever a pulse is told, the normalizer knows its calls, streams and files from the updates alone. */
  lemma KnowsStep(n: Norm, updates: seq<Update>, u: Update, files: set<string>)
    requires Knows(n, updates)
    ensures Knows(n.Normalize(u, files).0, updates + [u]) && n.Normalize(u, files).0.pulse == n.pulse
  {
    PendingStep(n, updates, u, files);
    StreamsStep(n, updates, u, files);
    ToolsStep(n, updates, u, files);
    SourcesStep(n, updates, u, files);
    FilesStep(n, updates, u, files);
    TextEffects(n, u, files);
    hide KnowsPending, KnowsStreams, KnowsTools, KnowsSources, KnowsText, Norm.Normalize, FilesChanged;
  }

  lemma KnowsNothing(n: Norm)
    requires n.text == NO_TEXT && n.tools == NO_TOOLS && n.sources == map[]
    ensures Knows(n, [])
  {
  }

  // ------------------------------------------------------------------------------------------
  // The envelopes say it.

  lemma {:induction false} SeenConcat(x: seq<Envelope>, y: seq<Envelope>)
    ensures Seen(x + y) == Seen(x) + Seen(y)
    decreases |y|
  {
    hide SeenOf;
    if y == [] {
      assert x + y == x;
    } else {
      var front, last := y[..|y| - 1], y[|y| - 1];
      assert (x + y)[..|x + y| - 1] == x + front;
      SeenConcat(x, front);
    }
  }

  lemma SeenOne(e: Envelope)
    ensures Seen([e]) == SeenOf(e)
  {
    hide SeenOf;
    assert [e][..0] == [] && Seen([]) == [];
  }

  lemma ClosingUnseen(n: Norm)
    requires KnowsText(n.text)
    ensures Seen(n.CloseText().1) == []
  {
    if n.text.open.Some? {
      SeenOne(n.CloseText().1[0]);
    }
  }

  lemma CloseAndSaySeen(n: Norm, signal: Signal)
    requires KnowsText(n.text) && !signal.BlockStart? && !signal.BlockDelta? && !signal.BlockComplete?
    ensures Seen(n.CloseAndSay(signal).1) == [Say(n.pulse, signal, SourceForSignal(signal))]
  {
    var (m, closing) := n.CloseText();
    ClosingUnseen(n);
    SeenConcat(closing, [m.Plain(signal)]);
    SeenOne(m.Plain(signal));
    hide Seen;
  }

  lemma DeltaSeen(n: Norm, delta: string)
    requires KnowsText(n.text)
    ensures Seen(n.OnStreamDelta(delta).1) ==
            [Say(n.pulse, BlockDelta(SYNTHETIC_FINAL_TEXT_BLOCK_START, delta), Model)]
  {
    var said := n.OnStreamDelta(delta).1;
    SeenOne(said[|said| - 1]);
    if n.text.open.None? {
      SeenOne(said[0]);
      SeenConcat([said[0]], [said[1]]);
      assert said == [said[0]] + [said[1]];
    } else {
      assert said == [said[0]];
    }
    hide Seen;
  }

  lemma ToolSeen(n: Norm, updates: seq<Update>, block: StreamBlock, callId: string)
    requires KnowsPending(n.tools.pending, updates)
    ensures Seen(n.NormalizeBlock(block, callId).1) ==
            match block
            case ToolCall(_, name, input) => [Say(n.pulse, ToolCallStarted(callId, name, input), Model)]
            case ToolResult(id, text, isError) => [Say(n.pulse, ResultSignal(updates, id, text, isError), Runtime)]
            case _ => []
  {
    hide ChangedFiles, OpenCall, LatestArguments;
    if block.ToolCall? || block.ToolResult? {
      SeenOne(n.NormalizeBlock(block, callId).1[0]);
    }
    hide Seen;
  }

  lemma StartSeen(n: Norm, updates: seq<Update>, index: nat, block: StreamBlock, callId: string)
    requires KnowsText(n.text) && KnowsPending(n.tools.pending, updates)
    ensures Seen(n.OnBlockStart(index, block, callId).1) ==
            Said(n.pulse, updates, StreamBlockStart(index, block, callId), {})
  {
    hide Norm.NormalizeBlock, KnowsPending, ResultSignal, Seen;
    var (n0, closing) := n.CloseText();
    ClosingUnseen(n);
    var source := SourceForBlock(block);
    var n1 := n0.(sources := n0.sources[index := source]);
    var start := n1.Stamp(BlockStart(index, block), None, None, Some(source));
    SeenConcat(closing, [start]);
    SeenOne(start);
    ToolSeen(n1.Advance(), updates, block, callId);
    SeenConcat(closing + [start], n1.Advance().NormalizeBlock(block, callId).1);
  }

  lemma BlockDeltaSeen(n: Norm, updates: seq<Update>, index: nat, delta: string, verdict: Verdict)
    requires Knows(n, updates)
    ensures Seen(n.OnBlockDelta(index, delta, verdict).1) ==
            Said(n.pulse, updates, StreamBlockDelta(index, delta, verdict), {})
  {
    hide FilesChanged, LatestArguments, Seen, KnowsText, KnownTool, OpenCall, BlockSource, StreamedCall;
    var first := n.Stamp(BlockDelta(index, delta), None, None, n.SourceAt(index));
    SeenOne(first);
    if index in n.tools.streaming {
      var callId := n.tools.streaming[index];
      WaitsIff(n, updates, callId);
      var second := n.Advance().RecordArgumentsDelta(callId, delta, verdict).1;
      SeenOne(second);
      SeenConcat([first], [second]);
      assert [first, second] == [first] + [second];
    } else {
      assert n.OnBlockDelta(index, delta, verdict).1 == [first];
    }
  }

  lemma WaitsIff(n: Norm, updates: seq<Update>, callId: string)
    requires KnowsPending(n.tools.pending, updates)
    ensures n.Runs(callId) <==> Waits(updates, callId)
  {
    hide OpenCall, LatestArguments;
    if n.Runs(callId) {
      var id :| id in n.tools.pending && n.tools.pending[id].runtimeId == callId;
      assert OpenCall(updates, id).Some?;
    }
    if Waits(updates, callId) {
      var id :| OpenCall(updates, id).Some? && updates[OpenCall(updates, id).value].callId == callId;
      assert id in n.tools.pending;
    }
  }

  lemma EndSeen(n: Norm, updates: seq<Update>, status: string, files: set<string>)
    requires Knows(n, updates)
    ensures Seen(n.FinishTurn(status, files).1) ==
            [Say(n.pulse, PulseEnd(status, if files == {} then FilesChanged(updates) else files), Runtime)]
  {
    hide KnowsPending, KnowsStreams, KnowsTools, KnowsSources, FilesChanged, Seen;
    ClosingUnseen(n);
    var forgotten := n.CloseText().0.ForgetTurn();
    var end := forgotten.Plain(PulseEnd(status, n.Resolve(files)));
    SeenConcat(n.CloseText().1, [end]);
    SeenOne(end);
  }

  /** An error is told as it is, and ends the pulse as failed unless it is recoverable. */
  lemma ErrorSeen(n: Norm, updates: seq<Update>, code: string, message: string, recoverable: bool, files: set<string>)
    requires Knows(n, updates)
    ensures Seen(n.EmitError(code, message, recoverable, files).1) ==
            [Say(n.pulse, Failure(code, message, recoverable), Runtime)] +
            if recoverable then []
            else [Say(n.pulse, PulseEnd("failed", if files == {} then FilesChanged(updates) else files), Runtime)]
  {
    hide KnowsPending, KnowsStreams, KnowsTools, KnowsSources, FilesChanged, Seen;
    CloseAndSaySeen(n, Failure(code, message, recoverable));
    var (m, said) := n.CloseAndSay(Failure(code, message, recoverable));
    var end := m.ForgetTurn().Plain(PulseEnd("failed", n.Resolve(files)));
    SeenConcat(said, [end]);
    SeenOne(end);
  }

  /** Reaching the limit is told, and ends the pulse as failed. */
  lemma MaxTurnsSeen(n: Norm, updates: seq<Update>, maxTurns: nat, files: set<string>)
    requires Knows(n, updates)
    ensures Seen(n.EmitMaxTurns(maxTurns, files).1) ==
            [Say(n.pulse, MaxTurnsReached(maxTurns), Runtime),
             Say(n.pulse, PulseEnd("failed", if files == {} then FilesChanged(updates) else files), Runtime)]
  {
    hide KnowsPending, KnowsStreams, KnowsTools, KnowsSources, FilesChanged, Seen;
    ClosingUnseen(n);
    var closing, m := n.CloseText().1, n.CloseText().0.ForgetTurn();
    var limit, end := m.Plain(MaxTurnsReached(maxTurns)), m.Advance().Plain(PulseEnd("failed", n.Resolve(files)));
    SeenConcat(closing, [limit]);
    SeenConcat(closing + [limit], [end]);
    SeenOne(limit);
    SeenOne(end);
  }

  /** One more update is announced as it should be, whatever came before it in the pulse. */
  lemma NormalizeAnnounces(n: Norm, updates: seq<Update>, u: Update, files: set<string>)
    requires Knows(n, updates)
    ensures Seen(n.Normalize(u, files).1) == Said(n.pulse, updates, u, files)
  {
    hide Seen, Norm.CloseAndSay, Norm.OnStreamDelta, Norm.OnBlockStart, Norm.OnBlockDelta, Norm.FinishTurn, Norm.EmitError;
    hide FilesChanged, ResultSignal;
    match u {
      case LineUpdate(line) => CloseAndSaySeen(n, TranscriptLine(line));
      case StreamDelta(delta) => DeltaSeen(n, delta);
      case StreamBlockStart(index, block, callId) => StartSeen(n, updates, index, block, callId);
      case StreamBlockDelta(index, delta, verdict) => BlockDeltaSeen(n, updates, index, delta, verdict);
      case StreamBlockComplete(index) => SeenOne(n.OnBlockComplete(index).1[0]);
      case PulseComplete => EndSeen(n, updates, "completed", files);
      case ErrorUpdate(message) => ErrorSeen(n, updates, "runtime_error", message, false, files);
      case ToolApprovalUpdate(capability) => CloseAndSaySeen(n, ApprovalRequest(capability));
      case MetadataUpdate => SeenOne(n.Plain(ServerMetadata));
      case SilentUpdate => NothingSeen();
    }
  }

  lemma NothingSeen()
    ensures Seen([]) == []
  {
  }

  // ------------------------------------------------------------------------------------------
  // A whole pulse.

  function NormalizeAll(n: Norm, updates: seq<Update>): (Norm, seq<Envelope>) {
    if updates == [] then (n, [])
    else
      var (m, front) := NormalizeAll(n, updates[..|updates| - 1]);
      var (k, last) := m.Normalize(updates[|updates| - 1], {});
      (k, front + last)
  }

  /** What the envelopes of a pulse say between its start and its end. */
  ghost function Announcements(pulse: nat, updates: seq<Update>): seq<Envelope> {
    if updates == [] then []
    else
      var front := updates[..|updates| - 1];
      Announcements(pulse, front) + Said(pulse, front, updates[|updates| - 1], {})
  }

  /** Each update is announced once, in order, whatever the updates are: every tool call and every result under
      its name, a result as failed exactly when it is an error. */
  lemma {:induction false} PulseAnnounced(n: Norm, updates: seq<Update>)
    requires n.text == NO_TEXT && n.tools == NO_TOOLS && n.sources == map[]
    ensures Seen(NormalizeAll(n, updates).1) == Announcements(n.pulse, updates)
    ensures Knows(NormalizeAll(n, updates).0, updates) && NormalizeAll(n, updates).0.pulse == n.pulse
    decreases |updates|
  {
    hide Norm.Normalize, Knows, Said, Seen;
    if updates == [] {
      KnowsNothing(n);
      NothingSeen();
    } else {
      var front, last := updates[..|updates| - 1], updates[|updates| - 1];
      PulseAnnounced(n, front);
      var (m, before) := NormalizeAll(n, front);
      NormalizeAnnounces(m, front, last, {});
      KnowsStep(m, front, last, {});
      SeenConcat(before, m.Normalize(last, {}).1);
      assert front + [last] == updates;
    }
  }
}
