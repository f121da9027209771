/** From the updates of a pulse to envelopes and back: the record of a pulse holds the text that was streamed. */
module PulseRoundTrip {
  import opened ToolEvidence
  import opened Wrappers
  import opened Envelopes
  import opened Normalizing
  import opened BatchRecords
  import opened HeardText
  import opened Announced

  // ------------------------------------------------------------------------------------------
  // The names of blocks in the envelopes.

  /** The index under which a block appears while the loose text has index `loose`. */
  function Name(key: Key, loose: nat): nat {
    if key.Loose? then loose else key.index
  }

  function Named(blocks: Blocks<Key>, loose: nat): Blocks<nat> {
    if blocks == [] then [] else [(Name(blocks[0].0, loose), blocks[0].1)] + Named(blocks[1..], loose)
  }

  predicate Proper(key: Key) {
    key.Given? ==> key.index < SYNTHETIC_FINAL_TEXT_BLOCK_START
  }

  predicate AllProper(blocks: Blocks<Key>) {
    forall i :: 0 <= i < |blocks| ==> Proper(blocks[i].0)
  }

  lemma NamesDiffer(key: Key, other: Key, loose: nat)
    requires Proper(key) && Proper(other) && loose >= SYNTHETIC_FINAL_TEXT_BLOCK_START
    ensures Name(key, loose) == Name(other, loose) <==> key == other
  {
  }

  lemma {:induction false} NamedStarted(blocks: Blocks<Key>, key: Key, content: string, loose: nat)
    requires AllProper(blocks) && Proper(key) && loose >= SYNTHETIC_FINAL_TEXT_BLOCK_START
    ensures Named(Started(blocks, key, content), loose) == Started(Named(blocks, loose), Name(key, loose), content)
    ensures AllProper(Started(blocks, key, content))
  {
    if blocks == [] {
      assert Named([(key, content)][1..], loose) == [];
    } else {
      NamesDiffer(blocks[0].0, key, loose);
      NamedStarted(blocks[1..], key, content, loose);
      NamedCons((key, content), blocks[1..], loose);
      NamedCons(blocks[0], Started(blocks[1..], key, content), loose);
    }
  }

  lemma NamedCons(first: (Key, string), rest: Blocks<Key>, loose: nat)
    ensures Named([first] + rest, loose) == [(Name(first.0, loose), first.1)] + Named(rest, loose)
  {
    assert ([first] + rest)[1..] == rest;
  }

  lemma {:induction false} NamedExtended(blocks: Blocks<Key>, key: Key, delta: string, loose: nat)
    requires AllProper(blocks) && Proper(key) && loose >= SYNTHETIC_FINAL_TEXT_BLOCK_START
    ensures Named(Extended(blocks, key, delta), loose) == Extended(Named(blocks, loose), Name(key, loose), delta)
    ensures AllProper(Extended(blocks, key, delta))
  {
    if blocks != [] {
      NamesDiffer(blocks[0].0, key, loose);
      NamedExtended(blocks[1..], key, delta, loose);
      NamedCons((key, blocks[0].1 + delta), blocks[1..], loose);
      NamedCons(blocks[0], Extended(blocks[1..], key, delta), loose);
    }
  }

  lemma {:induction false} NamedRemoved(blocks: Blocks<Key>, key: Key, loose: nat)
    requires AllProper(blocks) && Proper(key) && loose >= SYNTHETIC_FINAL_TEXT_BLOCK_START
    ensures Removed(Named(blocks, loose), Name(key, loose)) ==
            (Removed(blocks, key).0, Named(Removed(blocks, key).1, loose))
    ensures AllProper(Removed(blocks, key).1)
  {
    if blocks != [] {
      NamesDiffer(blocks[0].0, key, loose);
      NamedRemoved(blocks[1..], key, loose);
      NamedCons(blocks[0], Removed(blocks[1..], key).1, loose);
    }
  }

  lemma NamedAnyway(blocks: Blocks<Key>, loose: nat, other: nat)
    requires Count(blocks, Loose) == 0
    ensures Named(blocks, loose) == Named(blocks, other)
  {
  }

  // ------------------------------------------------------------------------------------------
  // The same steps on both sides.

  /** The turn being read holds what was heard, with the loose text under that index. */
  ghost predicate Agree(h: Heard, t: Turn, loose: nat) {
    && AllProper(h.open) && loose >= SYNTHETIC_FINAL_TEXT_BLOCK_START
    && t.response == h.completed && t.blocks == Named(h.open, loose)
    && Count(h.open, Loose) <= 1
  }

  lemma StartsTogether(h: Heard, t: Turn, loose: nat, key: Key, content: string)
    requires Agree(h, t, loose) && Proper(key)
    ensures Agree(h.Start(key, content), t.Read(BlockStart(Name(key, loose), FinalText(content))), loose)
  {
    NamedStarted(h.open, key, content, loose);
    Counts(h.open, key, content, Loose);
  }

  lemma ExtendsTogether(h: Heard, t: Turn, loose: nat, key: Key, delta: string)
    requires Agree(h, t, loose) && Proper(key)
    ensures Agree(h.Extend(key, delta), t.Read(BlockDelta(Name(key, loose), delta)), loose)
  {
    NamedExtended(h.open, key, delta, loose);
    Counts(h.open, key, delta, Loose);
  }

  lemma CompletesTogether(h: Heard, t: Turn, loose: nat, key: Key)
    requires Agree(h, t, loose) && Proper(key)
    ensures Agree(h.Complete(key), t.Read(BlockComplete(Name(key, loose))), loose)
  {
    NamedRemoved(h.open, key, loose);
    Counts(h.open, key, "", Loose);
  }

  // ------------------------------------------------------------------------------------------
  // Reading a stretch inside a pulse.

  predicate Inner(envelopes: seq<Envelope>) {
    forall i :: 0 <= i < |envelopes| ==> !envelopes[i].signal.PulseStart? && !envelopes[i].signal.PulseEnd?
  }

  function TurnAfter(t: Turn, envelopes: seq<Envelope>): Turn {
    if envelopes == [] then t
    else TurnAfter(t, envelopes[..|envelopes| - 1]).Read(envelopes[|envelopes| - 1].signal)
  }

  lemma {:induction false} TurnAfterThen(t: Turn, x: seq<Envelope>, y: seq<Envelope>)
    ensures TurnAfter(t, x + y) == TurnAfter(TurnAfter(t, x), y)
    decreases |y|
  {
    hide Turn.Read;
    if y == [] {
      assert x + y == x;
    } else {
      assert (x + y)[..|x + y| - 1] == x + y[..|y| - 1];
      TurnAfterThen(t, x, y[..|y| - 1]);
    }
  }

  lemma TurnAfterOne(t: Turn, e: Envelope)
    ensures TurnAfter(t, [e]) == t.Read(e.signal)
  {
    hide Turn.Read;
    assert [e][..0] == [];
    assert TurnAfter(t, []) == t;
  }

  lemma ReadInside(f: Fold, e: Envelope)
    requires f.current.Some? && !e.signal.PulseStart? && !e.signal.PulseEnd?
    ensures f.Read(e).current.Some? && f.Read(e).records == f.records && f.Read(e).lastStatus == f.lastStatus
    ensures f.Read(e).current.value == f.current.value.Read(e.signal)
    ensures f.Read(e).current.value.pulse == f.current.value.pulse
    ensures f.Read(e).current.value.input == f.current.value.input
  {
    ReadKeepsHeading(f.current.value, e.signal);
    hide Turn.Complete;
  }

  /** A whole stretch inside a pulse changes nothing but the turn under way. */
  lemma {:induction false} ReadStretch(f: Fold, envelopes: seq<Envelope>)
    requires f.current.Some? && Inner(envelopes)
    ensures var g := ReadAll(f, envelopes);
            && g.current == Some(TurnAfter(f.current.value, envelopes))
            && g.records == f.records && g.lastStatus == f.lastStatus
            && g.current.value.pulse == f.current.value.pulse && g.current.value.input == f.current.value.input
    decreases |envelopes|
  {
    hide Fold.Read, Turn.Read;
    if envelopes != [] {
      var front, last := envelopes[..|envelopes| - 1], envelopes[|envelopes| - 1];
      ReadStretch(f, front);
      ReadInside(ReadAll(f, front), last);
    }
  }

  // ------------------------------------------------------------------------------------------
  // What each update does to the turn.

  function LooseIndex(text: TextBlocks): nat {
    if text.open.Some? then text.open.value else SYNTHETIC_FINAL_TEXT_BLOCK_START
  }

  /** Normalizer, updates and envelope reader agree on the text and on the open blocks. */
  ghost predicate Tells(text: TextBlocks, h: Heard, t: Turn) {
    && text.next >= SYNTHETIC_FINAL_TEXT_BLOCK_START
    && Agree(h, t, LooseIndex(text))
    && (text.open.Some? <==> Count(h.open, Loose) > 0)
  }

  /** By these envelopes the reader comes to agree with what is heard. */
  ghost predicate Told(t: Turn, envelopes: seq<Envelope>, text: TextBlocks, h: Heard) {
    Inner(envelopes) && Tells(text, h, TurnAfter(t, envelopes))
  }

  lemma ToldThen(t: Turn, x: seq<Envelope>, y: seq<Envelope>, text: TextBlocks, h: Heard)
    requires Inner(x) && Told(TurnAfter(t, x), y, text, h)
    ensures Told(t, x + y, text, h)
  {
    hide Tells;
    TurnAfterThen(t, x, y);
  }

  lemma ToldOne(t: Turn, e: Envelope, text: TextBlocks, h: Heard)
    requires !e.signal.PulseStart? && !e.signal.PulseEnd? && Tells(text, h, t.Read(e.signal))
    ensures Told(t, [e], text, h)
  {
    hide Tells, Turn.Read;
    TurnAfterOne(t, e);
  }

  /** An envelope that is about no text block. */
  lemma ToldAside(t: Turn, e: Envelope, text: TextBlocks, h: Heard)
    requires !e.signal.PulseStart? && !e.signal.PulseEnd? && !e.signal.BlockDelta? && !e.signal.BlockComplete?
    requires e.signal.BlockStart? ==> !e.signal.block.FinalText?
    requires Tells(text, h, t)
    ensures Told(t, [e], text, h)
  {
    hide CommandEvidence, Named, Started, Extended, Removed;
    ToldOne(t, e, text, h);
  }

  lemma CloseTold(n: Norm, h: Heard, t: Turn)
    requires Tells(n.text, h, t)
    ensures Told(t, n.CloseText().1, n.CloseText().0.text, h.Complete(Loose))
    ensures n.CloseText().0.text.open.None? && Count(h.Complete(Loose).open, Loose) == 0
  {
    hide Turn.Read;
    Counts(h.open, Loose, "", Loose);
    if n.text.open.Some? {
      var e := n.CloseText().1[0];
      CompletesTogether(h, t, n.text.open.value, Loose);
      NamedAnyway(h.Complete(Loose).open, n.text.open.value, SYNTHETIC_FINAL_TEXT_BLOCK_START);
      ToldOne(t, e, n.CloseText().0.text, h.Complete(Loose));
    }
  }

  lemma SayTold(n: Norm, h: Heard, t: Turn, signal: Signal)
    requires Tells(n.text, h, t) && (signal.TranscriptLine? || signal.ApprovalRequest?)
    ensures Told(t, n.CloseAndSay(signal).1, n.CloseAndSay(signal).0.text, h.Complete(Loose))
  {
    hide Tells, Turn.Read, Heard.Complete;
    var (m, closing) := n.CloseText();
    CloseTold(n, h, t);
    ToldAside(TurnAfter(t, closing), m.Plain(signal), m.text, h.Complete(Loose));
    ToldThen(t, closing, [m.Plain(signal)], m.text, h.Complete(Loose));
  }

  lemma OpenTold(n: Norm, h: Heard, t: Turn)
    requires Tells(n.text, h, t)
    ensures Told(t, n.OpenText().1, n.OpenText().0.text,
                 if Count(h.open, Loose) > 0 then h else h.Start(Loose, ""))
    ensures n.OpenText().0.text.open.Some?
  {
    hide Turn.Read;
    if n.text.open.None? {
      NamedAnyway(h.open, SYNTHETIC_FINAL_TEXT_BLOCK_START, n.text.next);
      StartsTogether(h, t, n.text.next, Loose, "");
      Counts(h.open, Loose, "", Loose);
      ToldOne(t, n.OpenText().1[0], n.OpenText().0.text, h.Start(Loose, ""));
    }
  }

  lemma DeltaTold(n: Norm, h: Heard, t: Turn, delta: string)
    requires Tells(n.text, h, t)
    ensures Told(t, n.OnStreamDelta(delta).1, n.OnStreamDelta(delta).0.text, h.Hear(StreamDelta(delta)))
  {
    hide Turn.Read, Named, Started, Extended, AllProper;
    var (m, opening) := n.OpenText();
    var begun := if Count(h.open, Loose) > 0 then h else h.Start(Loose, "");
    OpenTold(n, h, t);
    var e := m.Stamp(BlockDelta(m.text.open.value, delta), None, None, m.SourceAt(m.text.open.value));
    var u := TurnAfter(t, opening);
    ExtendsTogether(begun, u, m.text.open.value, Loose, delta);
    Counts(begun.open, Loose, delta, Loose);
    ToldOne(u, e, m.text, begun.Extend(Loose, delta));
    ToldThen(t, opening, [e], m.text, begun.Extend(Loose, delta));
    assert opening + [e] == n.OnStreamDelta(delta).1;
  }

  lemma ToolTold(n: Norm, h: Heard, t: Turn, block: StreamBlock, callId: string)
    requires Tells(n.text, h, t)
    ensures Told(t, n.NormalizeBlock(block, callId).1, n.NormalizeBlock(block, callId).0.text, h)
  {
    hide ChangedFiles, Tells;
    var (m, tool) := n.NormalizeBlock(block, callId);
    if block.ToolCall? || block.ToolResult? {
      ToldAside(t, tool[0], m.text, h);
    }
  }

  lemma BlockStartTold(text: TextBlocks, h: Heard, t: Turn, e: Envelope)
    requires Tells(text, h, t) && e.signal.BlockStart? && e.signal.index < SYNTHETIC_FINAL_TEXT_BLOCK_START
    ensures Told(t, [e], text,
                 if e.signal.block.FinalText? then h.Start(Given(e.signal.index), e.signal.block.content) else h)
  {
    hide Turn.Read, Named, Started, AllProper;
    var key := Given(e.signal.index);
    if e.signal.block.FinalText? {
      StartsTogether(h, t, LooseIndex(text), key, e.signal.block.content);
      Counts(h.open, key, e.signal.block.content, Loose);
      ToldOne(t, e, text, h.Start(key, e.signal.block.content));
    } else {
      ToldAside(t, e, text, h);
    }
  }

  lemma StartTold(n: Norm, h: Heard, t: Turn, index: nat, block: StreamBlock, callId: string)
    requires Tells(n.text, h, t) && index < SYNTHETIC_FINAL_TEXT_BLOCK_START
    ensures Told(t, n.OnBlockStart(index, block, callId).1, n.OnBlockStart(index, block, callId).0.text,
                 h.Hear(StreamBlockStart(index, block, callId)))
  {
    hide Norm.CloseText, Norm.NormalizeBlock, Tells, Turn.Read, Heard.Complete, Heard.Start;
    var (n0, closing) := n.CloseText();
    CloseTold(n, h, t);
    var source := SourceForBlock(block);
    var n1 := n0.(sources := n0.sources[index := source]);
    var start := n1.Stamp(BlockStart(index, block), None, None, Some(source));
    var after := h.Hear(StreamBlockStart(index, block, callId));
    BlockStartTold(n0.text, h.Complete(Loose), TurnAfter(t, closing), start);
    ToldThen(t, closing, [start], n0.text, after);
    var (n2, tool) := n1.Advance().NormalizeBlock(block, callId);
    ToolTold(n1.Advance(), after, TurnAfter(t, closing + [start]), block, callId);
    ToldThen(t, closing + [start], tool, n2.text, after);
  }

  lemma BlockDeltaTold(n: Norm, h: Heard, t: Turn, index: nat, delta: string, verdict: Verdict)
    requires Tells(n.text, h, t) && index < SYNTHETIC_FINAL_TEXT_BLOCK_START
    ensures Told(t, n.OnBlockDelta(index, delta, verdict).1, n.OnBlockDelta(index, delta, verdict).0.text,
                 h.Extend(Given(index), delta))
  {
    hide Turn.Read, Named, Extended, AllProper;
    var first := n.Stamp(BlockDelta(index, delta), None, None, n.SourceAt(index));
    ExtendsTogether(h, t, LooseIndex(n.text), Given(index), delta);
    Counts(h.open, Given(index), delta, Loose);
    ToldOne(t, first, n.text, h.Extend(Given(index), delta));
    if index in n.tools.streaming {
      hide Tells;
      var (m, second) := n.Advance().RecordArgumentsDelta(n.tools.streaming[index], delta, verdict);
      ToldAside(TurnAfter(t, [first]), second, m.text, h.Extend(Given(index), delta));
      ToldThen(t, [first], [second], m.text, h.Extend(Given(index), delta));
      assert [first] + [second] == [first, second];
    }
  }

  lemma BlockCompleteTold(n: Norm, h: Heard, t: Turn, index: nat)
    requires Tells(n.text, h, t) && index < SYNTHETIC_FINAL_TEXT_BLOCK_START
    ensures Told(t, n.OnBlockComplete(index).1, n.OnBlockComplete(index).0.text, h.Complete(Given(index)))
  {
    hide Turn.Read, Named, Removed, AllProper;
    CompletesTogether(h, t, LooseIndex(n.text), Given(index));
    Counts(h.open, Given(index), "", Loose);
    ToldOne(t, n.OnBlockComplete(index).1[0], n.text, h.Complete(Given(index)));
  }

  lemma NothingTold(t: Turn, text: TextBlocks, h: Heard)
    requires Tells(text, h, t)
    ensures Told(t, [], text, h)
  {
    hide Tells;
  }

  lemma UpdateTold(n: Norm, h: Heard, t: Turn, update: Update)
    requires Tells(n.text, h, t) && Within(update)
    ensures Told(t, n.Normalize(update, {}).1, n.Normalize(update, {}).0.text, h.Hear(update))
  {
    hide Norm.CloseAndSay, Norm.OnStreamDelta, Norm.OnBlockStart, Norm.OnBlockDelta, Norm.OnBlockComplete;
    hide Told, Tells, Heard.Complete, Heard.Extend, Heard.Start;
    match update {
      case LineUpdate(line) => SayTold(n, h, t, TranscriptLine(line));
      case StreamDelta(delta) => DeltaTold(n, h, t, delta);
      case StreamBlockStart(index, block, callId) => StartTold(n, h, t, index, block, callId);
      case StreamBlockDelta(index, delta, verdict) => BlockDeltaTold(n, h, t, index, delta, verdict);
      case StreamBlockComplete(index) => BlockCompleteTold(n, h, t, index);
      case ToolApprovalUpdate(capability) => SayTold(n, h, t, ApprovalRequest(capability));
      case MetadataUpdate => ToldAside(t, n.Plain(ServerMetadata), n.text, h);
      case SilentUpdate => NothingTold(t, n.text, h);
    }
  }

  /** The updates of a pulse, from its first: the turn read off the envelopes is the text heard. */
  lemma {:induction false} UpdatesTold(n: Norm, t: Turn, updates: seq<Update>)
    requires n.text == NO_TEXT && t.response == "" && t.blocks == [] && AllWithin(updates)
    ensures Told(t, NormalizeAll(n, updates).1, NormalizeAll(n, updates).0.text, HearAll(updates))
    decreases |updates|
  {
    hide Tells, Heard.Hear, Norm.Normalize, Turn.Read;
    if updates == [] {
      SilenceTold(t);
    } else {
      var front, last := updates[..|updates| - 1], updates[|updates| - 1];
      UpdatesTold(n, t, front);
      var (m, x) := NormalizeAll(n, front);
      UpdateTold(m, HearAll(front), TurnAfter(t, x), last);
      ToldThen(t, x, m.Normalize(last, {}).1, m.Normalize(last, {}).0.text, HearAll(updates));
    }
  }

  lemma SilenceTold(t: Turn)
    requires t.response == "" && t.blocks == []
    ensures Told(t, [], NO_TEXT, SILENCE)
  {
  }

  // ------------------------------------------------------------------------------------------
  // What the results leave in the record.

  /** The evidence a reader of envelopes takes down. */
  function EvidenceOf(signal: Signal): seq<Evidence> {
    if (signal.ToolCallCompleted? || signal.ToolCallFailed?) && signal.name.Some? then
      var evidence := CommandEvidence(signal.name.value, signal.status == Error);
      if evidence.Some? then [evidence.value] else []
    else []
  }

  function EvidenceIn(envelopes: seq<Envelope>): seq<Evidence> {
    if envelopes == [] then []
    else EvidenceIn(envelopes[..|envelopes| - 1]) + EvidenceOf(envelopes[|envelopes| - 1].signal)
  }

  lemma {:induction false} EvidenceConcat(x: seq<Envelope>, y: seq<Envelope>)
    ensures EvidenceIn(x + y) == EvidenceIn(x) + EvidenceIn(y)
    decreases |y|
  {
    hide EvidenceOf;
    if y == [] {
      assert x + y == x;
    } else {
      assert (x + y)[..|x + y| - 1] == x + y[..|y| - 1];
      EvidenceConcat(x, y[..|y| - 1]);
    }
  }

  lemma EvidenceOne(e: Envelope)
    ensures EvidenceIn([e]) == EvidenceOf(e.signal)
  {
    hide EvidenceOf;
    assert [e][..0] == [] && EvidenceIn([]) == [];
  }

  lemma SeenEvidence(e: Envelope)
    ensures EvidenceIn(SeenOf(e)) == EvidenceOf(e.signal)
  {
    var seen := SeenOf(e);
    if seen == [] {
      assert EvidenceIn([]) == [];
    } else {
      EvidenceOne(seen[0]);
      assert seen == [seen[0]];
    }
    hide EvidenceIn;
  }

  lemma {:induction false} EvidenceSeen(envelopes: seq<Envelope>)
    ensures EvidenceIn(Seen(envelopes)) == EvidenceIn(envelopes)
    decreases |envelopes|
  {
    hide SeenOf, EvidenceOf;
    if envelopes != [] {
      var front, last := envelopes[..|envelopes| - 1], envelopes[|envelopes| - 1];
      EvidenceSeen(front);
      EvidenceConcat(Seen(front), SeenOf(last));
      SeenEvidence(last);
    }
  }

  lemma ReadEvidence(t: Turn, signal: Signal)
    ensures t.Read(signal).commands == t.commands + EvidenceOf(signal)
  {
    hide CommandEvidence, Started, Extended, Removed;
  }

  lemma {:induction false} TurnEvidence(t: Turn, envelopes: seq<Envelope>)
    ensures TurnAfter(t, envelopes).commands == t.commands + EvidenceIn(envelopes)
    decreases |envelopes|
  {
    hide Turn.Read, EvidenceOf;
    if envelopes != [] {
      var front, last := envelopes[..|envelopes| - 1], envelopes[|envelopes| - 1];
      TurnEvidence(t, front);
      ReadEvidence(TurnAfter(t, front), last.signal);
    }
  }

  lemma SaidEvidence(pulse: nat, updates: seq<Update>, u: Update)
    requires Within(u)
    ensures EvidenceIn(Said(pulse, updates, u, {})) ==
            if u.StreamBlockStart? && u.block.ToolResult?
            then EvidenceOf(ResultSignal(updates, u.block.toolCallId, u.block.text, u.block.isError)) else []
  {
    hide CommandEvidence, OpenCall, StreamedCall, KnownTool, BlockSource, EvidenceIn;
    var said := Said(pulse, updates, u, {});
    if |said| == 2 {
      EvidenceOne(said[0]);
      EvidenceOne(said[1]);
      EvidenceConcat([said[0]], [said[1]]);
      assert said == [said[0]] + [said[1]];
    } else if |said| == 1 {
      EvidenceOne(said[0]);
      assert said == [said[0]];
    } else {
      NoEvidence();
    }
  }

  lemma NoEvidence()
    ensures EvidenceIn([]) == []
  {
  }

  lemma {:induction false} AnnouncedEvidence(pulse: nat, updates: seq<Update>)
    requires AllWithin(updates)
    ensures EvidenceIn(Announcements(pulse, updates)) == Commands(updates)
    decreases |updates|
  {
    hide Said, CommandEvidence, OpenCall, ProviderIndexOk;
    if updates == [] {
      NoEvidence();
    } else {
      var front, last := updates[..|updates| - 1], updates[|updates| - 1];
      AnnouncedEvidence(pulse, front);
      EvidenceConcat(Announcements(pulse, front), Said(pulse, front, last, {}));
      SaidEvidence(pulse, front, last);
    }
  }

  lemma {:induction false} PulseEvidence(n: Norm, t: Turn, updates: seq<Update>)
    requires n.text == NO_TEXT && n.tools == NO_TOOLS && n.sources == map[]
    requires t.commands == [] && AllWithin(updates)
    ensures TurnAfter(t, NormalizeAll(n, updates).1).commands == Commands(updates)
    ensures NormalizeAll(n, updates).0.tools.changedFiles == FilesChanged(updates)
  {
    hide AllWithin, NormalizeAll, TurnAfter, Seen, Announcements;
    PulseAnnounced(n, updates);
    var body := NormalizeAll(n, updates).1;
    TurnEvidence(t, body);
    EvidenceSeen(body);
    AnnouncedEvidence(n.pulse, updates);
  }

  // ------------------------------------------------------------------------------------------
  // The round trip.

  /** The envelopes of one pulse. */
  function PulseLog(
      n: Norm, number: nat, input: Option<string>, updates: seq<Update>, status: string, files: set<string>)
    : seq<Envelope>
  {
    var (m, start) := n.StartPulse(number, input);
    var (k, body) := NormalizeAll(m, updates);
    [start] + body + k.FinishTurn(status, files).1
  }

  lemma FinishSplits(n: Norm, status: string, files: set<string>)
    ensures exists end: Envelope :: n.FinishTurn(status, files).1 == n.CloseText().1 + [end] &&
                                    end.signal == PulseEnd(status, n.Resolve(files))
  {
    var forgotten := n.CloseText().0.ForgetTurn();
    var end := forgotten.Plain(PulseEnd(status, n.Resolve(files)));
    assert n.FinishTurn(status, files).1 == n.CloseText().1 + [end];
  }

  /** Whatever the normalizer went through before, the stream of one pulse is read back as one record with
      the pulse's number, its input, for response precisely the text its updates tell, block by block in the
      order of completion, for commands those of the answered calls, failed where the result was an error, and
      for files those of the calls that did not fail, unless others are given; and as a summary with its
      status. */
  lemma PulseRecorded(
      n: Norm, number: nat, input: Option<string>, updates: seq<Update>, status: string, files: set<string>)
    requires AllWithin(updates)
    ensures var derived := Derive(PulseLog(n, number, input, updates, status, files));
            && |derived.records| == 1
            && derived.records[0].pulse == number
            && derived.records[0].input == (if input.Some? then input.value else "")
            && derived.records[0].response == HearAll(updates).Whole()
            && derived.records[0].commands == Commands(updates)
            && derived.records[0].changedFiles == (if files == {} then FilesChanged(updates) else files)
            && derived.summary.Some? && derived.summary.value.status == status
            && derived.summary.value.totalTurns == 1
  {
    hide NormalizeAll, HearAll, TurnAfter, Norm.FinishTurn, Norm.CloseText, Turn.Read, Contents, Tells, AllWithin;
    hide Heard.Complete;
    var (m, start) := n.StartPulse(number, input);
    var (k, body) := NormalizeAll(m, updates);
    var t := Turn(number, if input.Some? then input.value else "", "", [], {}, []);
    UpdatesTold(m, t, updates);
    FinishSplits(k, status, files);
    var end: Envelope :| k.FinishTurn(status, files).1 == k.CloseText().1 + [end] &&
                         end.signal == PulseEnd(status, k.Resolve(files));
    var middle := body + k.CloseText().1;
    PulseEvidence(m, t, updates);
    CloseTold(k, HearAll(updates), TurnAfter(t, body));
    CloseKeeps(k, TurnAfter(t, body));
    TurnAfterThen(t, body, k.CloseText().1);
    ToldThen(t, body, k.CloseText().1, k.CloseText().0.text, HearAll(updates).Complete(Loose));
    assert PulseLog(n, number, input, updates, status, files) == [start] + middle + [end];
    StretchRecorded(start, t, middle, end);
    TellsWhole(k.CloseText().0.text, HearAll(updates), TurnAfter(t, middle));
  }

  lemma CloseKeeps(n: Norm, t: Turn)
    ensures TurnAfter(t, n.CloseText().1).commands == t.commands
  {
    TurnEvidence(t, n.CloseText().1);
    if n.text.open.Some? {
      EvidenceOne(n.CloseText().1[0]);
    }
    hide TurnAfter;
  }

  lemma TellsWhole(text: TextBlocks, h: Heard, t: Turn)
    requires Tells(text, h.Complete(Loose), t)
    ensures t.response + Contents(t.blocks) == h.Whole()
  {
    hide Heard.Complete;
    NamedContents(h.Complete(Loose).open, LooseIndex(text));
  }

  lemma NamedContents(blocks: Blocks<Key>, loose: nat)
    ensures Contents(Named(blocks, loose)) == Contents(blocks)
  {
  }

  lemma StretchRecorded(start: Envelope, t: Turn, middle: seq<Envelope>, end: Envelope)
    requires start.signal.PulseStart? && end.signal.PulseEnd? && Inner(middle)
    requires t == Turn(start.pulse, if start.signal.input.Some? then start.signal.input.value else "", "", [], {}, [])
    ensures var derived, turn := Derive([start] + middle + [end]), TurnAfter(t, middle);
            && |derived.records| == 1
            && derived.records[0].pulse == t.pulse && derived.records[0].input == t.input
            && derived.records[0].response == turn.response + Contents(turn.blocks)
            && derived.records[0].commands == turn.commands
            && derived.records[0].changedFiles == end.signal.changedFiles
            && derived.summary.Some? && derived.summary.value.status == end.signal.endStatus
            && derived.summary.value.totalTurns == 1
  {
    hide TurnAfter, Turn.Read, Fold.Read, Turn.IntoRecord, Inner;
    var f := NOTHING_READ.Read(start);
    StartReading(start);
    ReadStretch(f, middle);
    ReadOne(NOTHING_READ, start);
    ReadAllConcat(NOTHING_READ, [start], middle);
    ReadAllConcat(NOTHING_READ, [start] + middle, [end]);
    ReadOne(ReadAll(f, middle), end);
    EndReading(ReadAll(f, middle), end);
  }

  lemma StartReading(start: Envelope)
    requires start.signal.PulseStart?
    ensures var input := if start.signal.input.Some? then start.signal.input.value else "";
            NOTHING_READ.Read(start) == NOTHING_READ.(current := Some(Turn(start.pulse, input, "", [], {}, [])))
  {
  }

  lemma EndReading(f: Fold, end: Envelope)
    requires f.current.Some? && f.records == [] && end.signal.PulseEnd?
    ensures var derived, turn := Finished(f.Read(end)), f.current.value;
            && |derived.records| == 1
            && derived.records[0].pulse == turn.pulse && derived.records[0].input == turn.input
            && derived.records[0].response == turn.response + Contents(turn.blocks)
            && derived.records[0].commands == turn.commands
            && derived.records[0].changedFiles == end.signal.changedFiles
            && derived.summary.Some? && derived.summary.value.status == end.signal.endStatus
            && derived.summary.value.totalTurns == 1
  {
    hide Contents;
    var record := f.current.value.(changedFiles := end.signal.changedFiles).IntoRecord();
    assert f.records + [record] == [record];
  }
}
