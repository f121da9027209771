/** The envelope normalizer as an object: counters, maps and the open text block are updated in place. */
module Normalizer {
  import opened ToolEvidence
  import opened Wrappers
  import opened Envelopes
  import opened Normalizing
  import opened Announced

  class Normalizer {
    var pulse: nat
    var nextSeq: nat
    var openFinalTextBlock: Option<nat>
    var nextSyntheticBlockIndex: nat
    var pendingToolCalls: map<string, PendingCall>
    var pendingToolCallContexts: map<string, CallContext>
    var streamingToolCallBlocks: map<nat, string>
    var turnChangedFiles: set<string>
    var blockSources: map<nat, Source>

    ghost function Abs(): Norm
      reads this
    {
      Norm(pulse, nextSeq, TextBlocks(openFinalTextBlock, nextSyntheticBlockIndex),
           Tools(pendingToolCalls, pendingToolCallContexts, streamingToolCallBlocks, turnChangedFiles), blockSources)
    }

    constructor ()
      ensures Abs() == NEW_NORMALIZER
    {
      pulse, nextSeq, openFinalTextBlock := 0, 1, None;
      nextSyntheticBlockIndex := SYNTHETIC_FINAL_TEXT_BLOCK_START;
      pendingToolCalls, pendingToolCallContexts, streamingToolCallBlocks := map[], map[], map[];
      turnChangedFiles, blockSources := {}, map[];
    }

    method NextEnvelopeWithSource(signal: Signal, requestId: Option<string>, parent: Option<Frame>, source: Option<Source>)
      returns (e: Envelope)
      modifies `nextSeq
      ensures e == old(Abs()).Stamp(signal, requestId, parent, source)
      ensures Abs() == old(Abs()).Advance()
    {
      var sequence := nextSeq;
      e := Envelope(
        pulse, sequence, if source.Some? then source.value else SourceForSignal(signal), requestId, parent, signal);
      nextSeq := if sequence < U64_MAX then sequence + 1 else U64_MAX;
    }

    method NextEnvelope(signal: Signal) returns (e: Envelope)
      modifies `nextSeq
      ensures e == old(Abs()).Plain(signal) && Abs() == old(Abs()).Advance()
    {
      e := NextEnvelopeWithSource(signal, None, None, None);
    }

    method StartPulse(number: nat, input: Option<string>) returns (e: Envelope)
      modifies this
      ensures (Abs(), e) == old(Abs()).StartPulse(number, input)
    {
      pulse := number;
      pendingToolCalls, pendingToolCallContexts, streamingToolCallBlocks := map[], map[], map[];
      blockSources, turnChangedFiles := map[], {};
      openFinalTextBlock := None;
      nextSyntheticBlockIndex := SYNTHETIC_FINAL_TEXT_BLOCK_START;
      e := NextEnvelope(PulseStart(input));
    }

    function SourceAt(index: nat): Option<Source>
      reads `blockSources
    {
      if index in blockSources then Some(blockSources[index]) else None
    }

    method CloseOpenFinalTextBlock() returns (r: seq<Envelope>)
      modifies `openFinalTextBlock, `blockSources, `nextSeq
      ensures (Abs(), r) == old(Abs()).CloseText()
    {
      if openFinalTextBlock.None? {
        return [];
      }
      var index := openFinalTextBlock.value;
      openFinalTextBlock := None;
      var source := SourceAt(index);
      blockSources := blockSources - {index};
      var e := NextEnvelopeWithSource(BlockComplete(index), None, None, source);
      return [e];
    }

    method EnsureOpenFinalTextBlock() returns (index: nat, r: seq<Envelope>)
      modifies `openFinalTextBlock, `nextSyntheticBlockIndex, `blockSources, `nextSeq
      ensures (Abs(), r) == old(Abs()).OpenText()
      ensures openFinalTextBlock == Some(index)
    {
      if openFinalTextBlock.Some? {
        return openFinalTextBlock.value, [];
      }
      index := nextSyntheticBlockIndex;
      nextSyntheticBlockIndex := if index < U64_MAX then index + 1 else U64_MAX;
      openFinalTextBlock := Some(index);
      blockSources := blockSources[index := Model];
      var e := NextEnvelopeWithSource(BlockStart(index, FinalText("")), None, None, Some(Model));
      return index, [e];
    }

    method CloseAndSay(signal: Signal) returns (r: seq<Envelope>)
      modifies `openFinalTextBlock, `blockSources, `nextSeq
      ensures (Abs(), r) == old(Abs()).CloseAndSay(signal)
    {
      r := CloseOpenFinalTextBlock();
      var e := NextEnvelope(signal);
      r := r + [e];
    }

    method RecordToolCall(sourceId: string, name: string, arguments: Arguments, callId: string) returns (e: Envelope)
      modifies `pendingToolCalls, `pendingToolCallContexts, `nextSeq
      ensures (Abs(), e) == old(Abs()).RecordToolCall(sourceId, name, arguments, callId)
    {
      e := NextEnvelope(ToolCallStarted(callId, name, arguments));
      var frame := Frame(e.pulse, e.sequence);
      pendingToolCalls := pendingToolCalls[sourceId := PendingCall(callId, name, arguments, frame)];
      pendingToolCallContexts := pendingToolCallContexts[callId := CallContext(name, frame)];
    }

    method RecordToolResult(sourceId: string, text: string, isError: bool) returns (e: Envelope)
      modifies `pendingToolCalls, `pendingToolCallContexts, `turnChangedFiles, `nextSeq
      ensures (Abs(), e) == old(Abs()).RecordToolResult(sourceId, text, isError)
    {
      hide ChangedFiles;
      if sourceId in pendingToolCalls {
        var call := pendingToolCalls[sourceId];
        pendingToolCalls := pendingToolCalls - {sourceId};
        pendingToolCallContexts := pendingToolCallContexts - {call.runtimeId};
        if !isError {
          turnChangedFiles := NoteChangedFiles(turnChangedFiles, call.name, call.arguments);
        }
        assert old(turnChangedFiles) + {} == old(turnChangedFiles);
        var signal := if isError then ToolCallFailed(call.runtimeId, Some(call.name), Error, text)
                      else ToolCallCompleted(call.runtimeId, Some(call.name), Complete, text);
        e := NextEnvelopeWithSource(signal, None, Some(call.startFrame), None);
        return;
      }
      e := NextEnvelope(if isError then ToolCallFailed(sourceId, None, Error, text)
                        else ToolCallCompleted(sourceId, None, Complete, text));
    }

    method RecordToolCallArgumentsDelta(callId: string, delta: string, verdict: Verdict) returns (e: Envelope)
      modifies `pendingToolCalls, `nextSeq
      ensures (Abs(), e) == old(Abs()).RecordArgumentsDelta(callId, delta, verdict)
    {
      var name: Option<string>, parent: Option<Frame> := None, None;
      if callId in pendingToolCallContexts {
        name := Some(pendingToolCallContexts[callId].name);
        parent := Some(pendingToolCallContexts[callId].startFrame);
      }
      var arguments: Option<Arguments> := None;
      if exists key :: key in pendingToolCalls && pendingToolCalls[key].runtimeId == callId {
        arguments := verdict.parsed;
      }
      pendingToolCalls := map key | key in pendingToolCalls ::
        if pendingToolCalls[key].runtimeId == callId && arguments.Some?
        then pendingToolCalls[key].(arguments := arguments.value) else pendingToolCalls[key];
      e := NextEnvelopeWithSource(
        ToolCallArgumentsDelta(callId, name, delta, arguments, verdict.invalidJson), None, parent, None);
    }

    method NormalizeStreamBlock(block: StreamBlock, callId: string) returns (r: seq<Envelope>)
      modifies `pendingToolCalls, `pendingToolCallContexts, `turnChangedFiles, `nextSeq
      ensures (Abs(), r) == old(Abs()).NormalizeBlock(block, callId)
    {
      hide Norm.RecordToolCall, Norm.RecordToolResult;
      match block {
        case ToolCall(id, name, input) =>
          var e := RecordToolCall(id, name, input, callId);
          return [e];
        case ToolResult(id, text, isError) =>
          var e := RecordToolResult(id, text, isError);
          return [e];
        case Thinking(_) => return [];
        case FinalText(_) => return [];
      }
    }

    method OnStreamBlockStart(index: nat, block: StreamBlock, callId: string) returns (r: seq<Envelope>)
      modifies this
      ensures (Abs(), r) == old(Abs()).OnBlockStart(index, block, callId)
    {
      hide Norm.CloseText, Norm.NormalizeBlock;
      r := CloseOpenFinalTextBlock();
      var source := SourceForBlock(block);
      blockSources := blockSources[index := source];
      var start := NextEnvelopeWithSource(BlockStart(index, block), None, None, Some(source));
      var tool := NormalizeStreamBlock(block, callId);
      r := r + [start] + tool;
      if block.ToolCall? && block.id in pendingToolCalls {
        streamingToolCallBlocks := streamingToolCallBlocks[index := pendingToolCalls[block.id].runtimeId];
      }
    }

    method OnStreamBlockDelta(index: nat, delta: string, verdict: Verdict) returns (r: seq<Envelope>)
      modifies this
      ensures (Abs(), r) == old(Abs()).OnBlockDelta(index, delta, verdict)
    {
      hide Norm.RecordArgumentsDelta;
      var first := NextEnvelopeWithSource(BlockDelta(index, delta), None, None, SourceAt(index));
      r := [first];
      if index in streamingToolCallBlocks {
        var second := RecordToolCallArgumentsDelta(streamingToolCallBlocks[index], delta, verdict);
        r := [first, second];
      }
    }

    method OnStreamBlockComplete(index: nat) returns (r: seq<Envelope>)
      modifies this
      ensures (Abs(), r) == old(Abs()).OnBlockComplete(index)
    {
      streamingToolCallBlocks := streamingToolCallBlocks - {index};
      var source := SourceAt(index);
      blockSources := blockSources - {index};
      var e := NextEnvelopeWithSource(BlockComplete(index), None, None, source);
      return [e];
    }

    method OnStreamDelta(delta: string) returns (r: seq<Envelope>)
      modifies this
      ensures (Abs(), r) == old(Abs()).OnStreamDelta(delta)
    {
      var index;
      index, r := EnsureOpenFinalTextBlock();
      var e := NextEnvelopeWithSource(BlockDelta(index, delta), None, None, SourceAt(index));
      ghost var opening := r;
      r := r + [e];
      assert r == if opening == [] then [e] else [opening[0], e];
    }

    method ForgetTurn()
      modifies `pendingToolCalls, `pendingToolCallContexts, `streamingToolCallBlocks, `blockSources
      ensures Abs() == old(Abs()).ForgetTurn()
    {
      pendingToolCalls, pendingToolCallContexts, streamingToolCallBlocks := map[], map[], map[];
      blockSources := map[];
    }

    method FinishTurnWithStatus(status: string, changedFiles: set<string>) returns (r: seq<Envelope>)
      modifies this
      ensures (Abs(), r) == old(Abs()).FinishTurn(status, changedFiles)
    {
      hide Norm.CloseText;
      var resolved := if changedFiles == {} then turnChangedFiles else changedFiles;
      r := CloseOpenFinalTextBlock();
      ForgetTurn();
      var e := NextEnvelope(PulseEnd(status, resolved));
      r := r + [e];
    }

    method EmitError(code: string, message: string, recoverable: bool, changedFiles: set<string>) returns (r: seq<Envelope>)
      modifies this
      ensures (Abs(), r) == old(Abs()).EmitError(code, message, recoverable, changedFiles)
    {
      hide Norm.CloseAndSay;
      CloseAndSayKeepsTools(Abs(), Failure(code, message, recoverable));
      r := CloseAndSay(Failure(code, message, recoverable));
      if !recoverable {
        var resolved := if changedFiles == {} then turnChangedFiles else changedFiles;
        ForgetTurn();
        var e := NextEnvelope(PulseEnd("failed", resolved));
        r := r + [e];
      }
    }

    method EmitMaxTurnsReached(maxTurns: nat, changedFiles: set<string>) returns (r: seq<Envelope>)
      modifies this
      ensures (Abs(), r) == old(Abs()).EmitMaxTurns(maxTurns, changedFiles)
    {
      hide Norm.CloseText;
      r := CloseOpenFinalTextBlock();
      var resolved := if changedFiles == {} then turnChangedFiles else changedFiles;
      ForgetTurn();
      var reached := NextEnvelope(MaxTurnsReached(maxTurns));
      var end := NextEnvelope(PulseEnd("failed", resolved));
      r := r + [reached] + [end];
    }

    method NormalizeUiUpdate(update: Update, changedFiles: set<string>) returns (r: seq<Envelope>)
      modifies this
      ensures (Abs(), r) == old(Abs()).Normalize(update, changedFiles)
    {
      hide Norm.CloseAndSay, Norm.OnStreamDelta, Norm.OnBlockStart, Norm.OnBlockDelta, Norm.OnBlockComplete,
        Norm.FinishTurn, Norm.EmitError;
      match update {
        case LineUpdate(line) => r := CloseAndSay(TranscriptLine(line));
        case StreamDelta(delta) => r := OnStreamDelta(delta);
        case StreamBlockStart(index, block, callId) => r := OnStreamBlockStart(index, block, callId);
        case StreamBlockDelta(index, delta, verdict) => r := OnStreamBlockDelta(index, delta, verdict);
        case StreamBlockComplete(index) => r := OnStreamBlockComplete(index);
        case PulseComplete => r := FinishTurnWithStatus("completed", changedFiles);
        case ErrorUpdate(message) => r := EmitError("runtime_error", message, false, changedFiles);
        case ToolApprovalUpdate(capability) => r := CloseAndSay(ApprovalRequest(capability));
        case MetadataUpdate =>
          var e := NextEnvelope(ServerMetadata);
          r := [e];
        case SilentUpdate => r := [];
      }
    }

    method NormalizeRuntimeRequest(request: Request) returns (r: seq<Envelope>)
      modifies `nextSeq
      ensures (Abs(), r) == old(Abs()).NormalizeRequest(request)
    {
      match request {
        case ApproveCapability(id, capability, scope) =>
          var e := NextEnvelopeWithSource(ApprovalResolved(capability, scope, true), Some(id), None, None);
          r := [e];
        case DenyCapability(id, capability) =>
          var e := NextEnvelopeWithSource(ApprovalResolved(capability, "once", false), Some(id), None, None);
          r := [e];
        case OtherRequest(_) => r := [];
      }
    }
  }

  lemma CloseAndSayKeepsTools(n: Norm, signal: Signal)
    ensures n.CloseAndSay(signal).0.tools == n.tools
  {
  }

  /** The object fed a pulse, whatever it went through before: its envelopes say what the updates tell. */
  method NormalizePulse(normalizer: Normalizer, number: nat, input: Option<string>, updates: seq<Update>)
    returns (envelopes: seq<Envelope>)
    modifies normalizer
    ensures Seen(envelopes) == [Say(number, PulseStart(input), UserRequest)] + Announcements(number, updates)
    ensures Knows(normalizer.Abs(), updates)
  {
    hide Norm.Normalize, Seen, Announcements, Knows;
    var start := normalizer.StartPulse(number, input);
    ghost var begun := normalizer.Abs();
    envelopes := [start];
    for i := 0 to |updates|
      invariant normalizer.Abs() == NormalizeAll(begun, updates[..i]).0
      invariant envelopes == [start] + NormalizeAll(begun, updates[..i]).1
    {
      assert updates[..i + 1][..i] == updates[..i];
      ghost var before := NormalizeAll(begun, updates[..i]).1;
      var more := normalizer.NormalizeUiUpdate(updates[i], {});
      assert ([start] + before) + more == [start] + (before + more);
      envelopes := envelopes + more;
    }
    assert updates[..|updates|] == updates;
    PulseAnnounced(begun, updates);
    SeenConcat([start], NormalizeAll(begun, updates).1);
    SeenOne(start);
  }
}
