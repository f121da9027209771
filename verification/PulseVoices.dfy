/** What the pulse task passes on, told by the stream alone: the text of each block as its own normaliser gives
    it, and everything else as it is. */
module PulseVoices {
  import opened Wrappers
  import opened Envelopes
  import opened Normalizing
  import opened LocalApiProtocol
  import opened PulseTask

  // ------------------------------------------------------------------------------------------
  // What should be said.

  /** The texts among the chunks of a normaliser. */
  function Texts(chunks: seq<Chunk>): seq<string> {
    if chunks == [] then []
    else Texts(chunks[..|chunks| - 1]) + if chunks[|chunks| - 1].Text? then [chunks[|chunks| - 1].text] else []
  }

  /** The normaliser of a text under way, and what it has given so far. */
  datatype Voice<N> = Voice(normaliser: Option<N>, said: seq<string>)

  function Speak<N>(env: Env<N>, said: seq<string>, n: N, text: string): Voice<N> {
    var (m, chunks) := env.normalise(n, text);
    Voice(Some(m), said + Texts(chunks))
  }

  /** The loose text goes through one normaliser for the whole pulse. */
  function LooseVoice<N>(env: Env<N>, updates: seq<StreamUpdate>): (v: Voice<N>)
    ensures v.normaliser.Some?
  {
    if updates == [] then Voice(Some(env.initial), [])
    else
      var v := LooseVoice(env, updates[..|updates| - 1]);
      match updates[|updates| - 1]
      case Delta(text) => Speak(env, v.said, v.normaliser.value, text)
      case _ => v
  }

  /** Each text block has a new normaliser, which is flushed when the block is done; what is streamed of any
      other block is passed on as it is. */
  function BlockVoice<N>(env: Env<N>, updates: seq<StreamUpdate>, index: nat): Voice<N> {
    if updates == [] then Voice(None, [])
    else
      var v := BlockVoice(env, updates[..|updates| - 1], index);
      match updates[|updates| - 1]
      case BlockBegun(i, Thinking(content), _) =>
        if i != index then v
        else if content == "" then Voice(Some(env.initial), v.said)
        else Speak(env, v.said, env.initial, content)
      case BlockBegun(i, FinalText(content), _) =>
        if i != index then v
        else if content == "" then Voice(Some(env.initial), v.said)
        else Speak(env, v.said, env.initial, content)
      case BlockMore(i, delta) =>
        if i != index then v
        else if v.normaliser.Some? then Speak(env, v.said, v.normaliser.value, delta)
        else Voice(None, v.said + [delta])
      case BlockDone(i) =>
        if i != index || v.normaliser.None? then v
        else Voice(None, v.said + Texts(env.finish(v.normaliser.value)))
      case _ => v
  }

  /** What is passed on at once, apart from text. */
  function Passed(update: StreamUpdate): seq<Event> {
    match update
    case Delta(_) => []
    case BlockMore(_, _) => []
    case BlockBegun(index, Thinking(_), callId) => [ModelUpdate(StreamBlockStart(index, Thinking(""), callId))]
    case BlockBegun(index, FinalText(_), callId) => [ModelUpdate(StreamBlockStart(index, FinalText(""), callId))]
    case BlockBegun(index, block, callId) => [ModelUpdate(StreamBlockStart(index, block, callId))]
    case BlockDone(index) => [ModelUpdate(StreamBlockComplete(index))]
    case ApprovalAsked(capability) => [ModelUpdate(ToolApprovalUpdate(capability))]
    case Transcript(line) => [ModelUpdate(LineUpdate(line))]
    case Metadata => [ModelUpdate(MetadataUpdate)]
    case CommandStarted(session) => [SessionStarted(session)]
    case CommandFinished(session) => [SessionFinished(session)]
    case StreamError(message) => [TurnError(message)]
    case OtherStreamUpdate => [ModelUpdate(SilentUpdate)]
  }

  function AllPassed(updates: seq<StreamUpdate>): seq<Event> {
    if updates == [] then [] else AllPassed(updates[..|updates| - 1]) + Passed(updates[|updates| - 1])
  }

  // ------------------------------------------------------------------------------------------
  // What was sent.

  predicate IsText(e: Event) {
    e.ModelUpdate? && (e.update.StreamDelta? || e.update.StreamBlockDelta?)
  }

  /** The text in one event, if it is of that block, or loose. */
  function TextIn(e: Event, key: Option<nat>): seq<string> {
    if !e.ModelUpdate? then []
    else
      match e.update
      case StreamDelta(text) => if key.None? then [text] else []
      case StreamBlockDelta(index, delta, _) => if key == Some(index) then [delta] else []
      case _ => []
  }

  function SentTo(sent: seq<Event>, key: Option<nat>): seq<string> {
    if sent == [] then [] else SentTo(sent[..|sent| - 1], key) + TextIn(sent[|sent| - 1], key)
  }

  /** Everything but text. */
  function Others(sent: seq<Event>): seq<Event> {
    if sent == [] then []
    else Others(sent[..|sent| - 1]) + if IsText(sent[|sent| - 1]) then [] else [sent[|sent| - 1]]
  }

  /** Each fragment of a block carries what the accumulator says of it. */
  predicate Judged<N>(env: Env<N>, sent: seq<Event>) {
    forall i :: 0 <= i < |sent| && sent[i].ModelUpdate? && sent[i].update.StreamBlockDelta? ==>
                  sent[i].update.verdict == env.verdict(sent[i].update.index, sent[i].update.delta)
  }

  /** What was sent is what the stream so far gives: each text piece by piece, everything else once, in order. */
  ghost predicate Conveys<N>(env: Env<N>, sent: seq<Event>, updates: seq<StreamUpdate>) {
    && Others(sent) == AllPassed(updates)
    && SentTo(sent, None) == LooseVoice(env, updates).said
    && (forall index :: SentTo(sent, Some(index)) == BlockVoice(env, updates, index).said)
    && Judged(env, sent)
  }

  /** A block is begun before its text is sent, and done after. */
  predicate InTurn(update: StreamUpdate, piece: seq<Event>) {
    && (update.BlockBegun? ==> piece != [] && piece[..1] == Passed(update))
    && (update.BlockDone? ==> piece != [] && piece[|piece| - 1..] == Passed(update))
  }

  /** `cuts[i]` is where the first `i` updates of the stream have been passed on. */
  ghost predicate InStep<N>(env: Env<N>, sent: seq<Event>, updates: seq<StreamUpdate>, cuts: seq<nat>) {
    && |cuts| == |updates| + 1 && cuts[0] == 0 && cuts[|updates|] == |sent|
    && (forall i, j :: 0 <= i < j < |cuts| ==> cuts[i] <= cuts[j])
    && (forall i :: 0 <= i < |cuts| ==> cuts[i] <= |sent|)
    && (forall i :: 0 <= i < |cuts| ==> Conveys(env, sent[..cuts[i]], updates[..i]))
    && (forall i :: 0 <= i < |updates| ==> InTurn(updates[i], sent[cuts[i]..cuts[i + 1]]))
  }

  // ------------------------------------------------------------------------------------------
  // Forwarding conveys.

  lemma {:induction false} SentConcat(x: seq<Event>, y: seq<Event>, key: Option<nat>)
    ensures SentTo(x + y, key) == SentTo(x, key) + SentTo(y, key)
    ensures Others(x + y) == Others(x) + Others(y)
    decreases |y|
  {
    hide TextIn, IsText;
    if y == [] {
      assert x + y == x;
    } else {
      assert (x + y)[..|x + y| - 1] == x + y[..|y| - 1];
      SentConcat(x, y[..|y| - 1], key);
    }
  }

  lemma SentOne(e: Event, key: Option<nat>)
    ensures SentTo([e], key) == TextIn(e, key)
    ensures Others([e]) == if IsText(e) then [] else [e]
  {
    hide TextIn, IsText;
    assert [e][..0] == [] && SentTo([], key) == [] && Others([]) == [];
  }

  lemma {:induction false} TextsCons(first: Chunk, rest: seq<Chunk>)
    ensures Texts([first] + rest) == (if first.Text? then [first.text] else []) + Texts(rest)
    decreases |rest|
  {
    if rest == [] {
      assert [first] + rest == [first] && [first][..0] == [];
    } else {
      assert ([first] + rest)[..|rest|] == [first] + rest[..|rest| - 1];
      TextsCons(first, rest[..|rest| - 1]);
    }
  }

  /** The texts of the chunks go out under the block's index, or loose. */
  lemma {:induction false} EmittedSays<N>(env: Env<N>, chunks: seq<Chunk>, index: Option<nat>, key: Option<nat>)
    ensures SentTo(Emitted(env, chunks, index), key) == if key == index then Texts(chunks) else []
    ensures Others(Emitted(env, chunks, index)) == [] && Judged(env, Emitted(env, chunks, index))
    ensures forall i :: 0 <= i < |Emitted(env, chunks, index)| ==>
              TextIn(Emitted(env, chunks, index)[i], index) != []
  {
    hide SentTo, Others, Texts;
    if chunks == [] {
      NothingSent(key);
    } else {
      EmittedSays(env, chunks[1..], index, key);
      TextsCons(chunks[0], chunks[1..]);
      assert chunks == [chunks[0]] + chunks[1..];
      if chunks[0].Text? {
        var first, rest := Emitted(env, chunks, index)[0], Emitted(env, chunks[1..], index);
        SentConcat([first], rest, key);
        SentOne(first, key);
      }
    }
  }

  lemma NothingSent(key: Option<nat>)
    ensures SentTo([], key) == [] && Others([]) == [] && Texts([]) == []
  {
  }

  /** The task has the normalisers of the voices under way. */
  ghost predicate Voices<N>(env: Env<N>, t: Task<N>, updates: seq<StreamUpdate>) {
    && t.loose == LooseVoice(env, updates).normaliser.value
    && forall index ::
         && (index in t.blocks <==> BlockVoice(env, updates, index).normaliser.Some?)
         && (index in t.blocks ==> t.blocks[index] == BlockVoice(env, updates, index).normaliser.value)
  }

  lemma OneMore<N>(env: Env<N>, updates: seq<StreamUpdate>, u: StreamUpdate)
    ensures (updates + [u])[..|updates|] == updates && (updates + [u])[|updates|] == u
  {
  }

  lemma VoicesStep<N>(env: Env<N>, t: Task<N>, updates: seq<StreamUpdate>, u: StreamUpdate)
    requires Voices(env, t, updates)
    ensures Voices(env, Forward(env, t, u).0, updates + [u])
  {
    hide Emitted, Texts;
    OneMore(env, updates, u);
  }

  lemma PieceSays<N>(env: Env<N>, t: Task<N>, updates: seq<StreamUpdate>, u: StreamUpdate, key: Option<nat>)
    requires Voices(env, t, updates)
    ensures var piece := Forward(env, t, u).1;
            && Others(piece) == Passed(u) && Judged(env, piece) && InTurn(u, piece)
            && (key.None? ==> LooseVoice(env, updates).said + SentTo(piece, key) == LooseVoice(env, updates + [u]).said)
            && (key.Some? ==> BlockVoice(env, updates, key.value).said + SentTo(piece, key) ==
                              BlockVoice(env, updates + [u], key.value).said)
  {
    hide SentTo, Others, Emitted, Texts, Judged, InTurn;
    OneMore(env, updates, u);
    NothingSent(key);
    InTurnAnyway(u, Forward(env, t, u).1);
    match u {
      case Delta(text) => EmittedSays(env, env.normalise(t.loose, text).1, None, key);
      case BlockBegun(index, block, callId) => BegunSays(env, t, index, block, callId, key);
      case BlockMore(index, delta) => MoreSays(env, t, index, delta, key);
      case BlockDone(index) => DoneSays(env, t, index, key);
      case _ =>
        SentOne(Passed(u)[0], key);
        JudgedOne(env, Passed(u)[0]);
    }
  }

  lemma InTurnAnyway(u: StreamUpdate, piece: seq<Event>)
    ensures !u.BlockBegun? && !u.BlockDone? ==> InTurn(u, piece)
  {
  }

  lemma JudgedOne<N>(env: Env<N>, e: Event)
    requires !IsText(e)
    ensures Judged(env, [e])
  {
  }

  lemma JudgedConcat<N>(env: Env<N>, x: seq<Event>, y: seq<Event>)
    requires Judged(env, x) && Judged(env, y)
    ensures Judged(env, x + y)
  {
  }

  /** Text behind an event that is none. */
  lemma StartThenText<N>(env: Env<N>, start: Event, chunks: seq<Chunk>, index: nat, key: Option<nat>)
    requires !IsText(start)
    ensures var piece := [start] + Emitted(env, chunks, Some(index));
            && Others(piece) == [start] && Judged(env, piece) && piece[..1] == [start]
            && SentTo(piece, key) == if key == Some(index) then Texts(chunks) else []
  {
    hide SentTo, Others, Emitted, Texts, Judged, TextIn;
    var said := Emitted(env, chunks, Some(index));
    SentOne(start, key);
    JudgedOne(env, start);
    EmittedSays(env, chunks, Some(index), key);
    SentConcat([start], said, key);
    JudgedConcat(env, [start], said);
    assert TextIn(start, key) == [] by { NoTextIn(start, key); }
  }

  lemma NoTextIn(e: Event, key: Option<nat>)
    requires !IsText(e)
    ensures TextIn(e, key) == []
  {
  }

  lemma TextThenDone<N>(env: Env<N>, done: Event, chunks: seq<Chunk>, index: nat, key: Option<nat>)
    requires !IsText(done)
    ensures var piece := Emitted(env, chunks, Some(index)) + [done];
            && Others(piece) == [done] && Judged(env, piece) && piece[|piece| - 1..] == [done]
            && SentTo(piece, key) == if key == Some(index) then Texts(chunks) else []
  {
    hide SentTo, Others, Emitted, Texts, Judged, TextIn;
    var said := Emitted(env, chunks, Some(index));
    SentOne(done, key);
    JudgedOne(env, done);
    EmittedSays(env, chunks, Some(index), key);
    SentConcat(said, [done], key);
    JudgedConcat(env, said, [done]);
    assert TextIn(done, key) == [] by { NoTextIn(done, key); }
  }

  function ContentOf(block: StreamBlock): string {
    match block
    case Thinking(text) => text
    case FinalText(content) => content
    case _ => ""
  }

  lemma BegunIs<N>(env: Env<N>, t: Task<N>, index: nat, block: StreamBlock, callId: string)
    ensures var u := BlockBegun(index, block, callId);
            && |Passed(u)| == 1 && !IsText(Passed(u)[0])
            && Forward(env, t, u).1 ==
               if ContentOf(block) == "" then Passed(u)
               else Passed(u) + Emitted(env, env.normalise(env.initial, ContentOf(block)).1, Some(index))
  {
    hide Emitted;
  }

  lemma BegunSays<N>(env: Env<N>, t: Task<N>, index: nat, block: StreamBlock, callId: string, key: Option<nat>)
    ensures var u := BlockBegun(index, block, callId);
            var piece, content := Forward(env, t, u).1, ContentOf(block);
            && Others(piece) == Passed(u) && Judged(env, piece) && InTurn(u, piece)
            && SentTo(piece, key) ==
               if key == Some(index) && content != "" then Texts(env.normalise(env.initial, content).1) else []
  {
    hide SentTo, Others, Emitted, Texts, Judged, TextIn, IsText, Forward, Passed, ContentOf;
    var u := BlockBegun(index, block, callId);
    BegunIs(env, t, index, block, callId);
    var start := Passed(u)[0];
    assert Passed(u) == [start];
    if ContentOf(block) != "" {
      StartThenText(env, start, env.normalise(env.initial, ContentOf(block)).1, index, key);
    } else {
      SentOne(start, key);
      JudgedOne(env, start);
      NoTextIn(start, key);
    }
  }

  lemma MoreSays<N>(env: Env<N>, t: Task<N>, index: nat, delta: string, key: Option<nat>)
    ensures var piece := Forward(env, t, BlockMore(index, delta)).1;
            && Others(piece) == [] && Judged(env, piece)
            && SentTo(piece, key) == if key != Some(index) then []
                                     else if index in t.blocks then Texts(env.normalise(t.blocks[index], delta).1)
                                     else [delta]
  {
    hide SentTo, Others, Emitted, Texts;
    if index in t.blocks {
      EmittedSays(env, env.normalise(t.blocks[index], delta).1, Some(index), key);
    } else {
      SentOne(Forward(env, t, BlockMore(index, delta)).1[0], key);
    }
  }

  lemma DoneSays<N>(env: Env<N>, t: Task<N>, index: nat, key: Option<nat>)
    ensures var piece := Forward(env, t, BlockDone(index)).1;
            && Others(piece) == Passed(BlockDone(index)) && Judged(env, piece) && InTurn(BlockDone(index), piece)
            && SentTo(piece, key) ==
               if key == Some(index) && index in t.blocks then Texts(env.finish(t.blocks[index])) else []
  {
    hide SentTo, Others, Emitted, Texts, Judged, TextIn;
    var done := ModelUpdate(StreamBlockComplete(index));
    if index in t.blocks {
      TextThenDone(env, done, env.finish(t.blocks[index]), index, key);
    } else {
      SentOne(done, key);
      JudgedOne(env, done);
      NoTextIn(done, key);
      assert Forward(env, t, BlockDone(index)).1 == [done];
    }
  }

  lemma ConveysStep<N>(env: Env<N>, t: Task<N>, sent: seq<Event>, updates: seq<StreamUpdate>, u: StreamUpdate)
    requires Voices(env, t, updates) && Conveys(env, sent, updates)
    ensures Conveys(env, sent + Forward(env, t, u).1, updates + [u])
    ensures InTurn(u, Forward(env, t, u).1)
  {
    hide SentTo, Others, Forward, LooseVoice, BlockVoice, Voices, Passed, Judged, InTurn;
    var piece := Forward(env, t, u).1;
    PieceSays(env, t, updates, u, None);
    SentConcat(sent, piece, None);
    JudgedConcat(env, sent, piece);
    assert AllPassed(updates + [u]) == AllPassed(updates) + Passed(u) by { OneMore(env, updates, u); }
    forall index ensures SentTo(sent + piece, Some(index)) == BlockVoice(env, updates + [u], index).said {
      PieceSays(env, t, updates, u, Some(index));
      SentConcat(sent, piece, Some(index));
    }
  }

  /** Forwarding one more update keeps all of it. */
  lemma {:induction false} InStepMore<N>(
      env: Env<N>, t: Task<N>, sent: seq<Event>, updates: seq<StreamUpdate>, cuts: seq<nat>, n: nat)
    requires n < |updates| && Voices(env, t, updates[..n]) && InStep(env, sent, updates[..n], cuts)
    ensures var (next, piece) := Forward(env, t, updates[n]);
            && Voices(env, next, updates[..n + 1])
            && InStep(env, sent + piece, updates[..n + 1], cuts + [|sent| + |piece|])
  {
    hide Forward, Voices, Conveys, InTurn;
    var u, before := updates[n], updates[..n];
    var (next, piece) := Forward(env, t, u);
    var after, more, all := before + [u], cuts + [|sent| + |piece|], sent + piece;
    assert updates[..n + 1] == after;
    VoicesStep(env, t, before, u);
    assert before[..n] == before && sent[..cuts[n]] == sent;
    assert Conveys(env, sent[..cuts[n]], before[..n]);
    ConveysStep(env, t, sent, before, u);
    forall i | 0 <= i < |more| ensures Conveys(env, all[..more[i]], after[..i]) {
      if i <= n {
        assert all[..more[i]] == sent[..cuts[i]] && after[..i] == before[..i];
        assert Conveys(env, sent[..cuts[i]], before[..i]);
      } else {
        assert all[..more[i]] == all && after[..i] == after;
      }
    }
    forall i | 0 <= i < |after| ensures InTurn(after[i], all[more[i]..more[i + 1]]) {
      if i < n {
        assert all[more[i]..more[i + 1]] == sent[cuts[i]..cuts[i + 1]];
      } else {
        assert all[more[i]..more[i + 1]] == piece;
      }
    }
  }

  lemma InStepAtFirst<N>(env: Env<N>, t: Task<N>, updates: seq<StreamUpdate>)
    requires t == Task(map[], env.initial)
    ensures Voices(env, t, updates[..0]) && InStep(env, [], updates[..0], [0])
  {
  }

  // ------------------------------------------------------------------------------------------
  // The flush.

  function Completions(order: seq<nat>): seq<Event> {
    seq(|order|, i requires 0 <= i < |order| => ModelUpdate(StreamBlockComplete(order[i])))
  }

  predicate Distinct(order: seq<nat>) {
    forall i, j :: 0 <= i < j < |order| ==> order[i] != order[j]
  }

  predicate CompletesBlock(e: Event, index: nat) {
    e == ModelUpdate(StreamBlockComplete(index))
  }

  /** The text of a block is sent before its completion. */
  ghost predicate DoneAfterText(tail: seq<Event>) {
    forall i :: 0 <= i < |tail| && tail[i].ModelUpdate? && tail[i].update.StreamBlockDelta? ==>
                  exists k :: i < k < |tail| && CompletesBlock(tail[k], tail[i].update.index)
  }

  /** These blocks, and no others, were flushed and completed, each once. */
  ghost predicate Flushed<N>(env: Env<N>, blocks: map<nat, N>, order: seq<nat>, tail: seq<Event>) {
    && Distinct(order) && (forall index :: index in order <==> index in blocks)
    && Others(tail) == Completions(order) && SentTo(tail, None) == []
    && (forall index :: SentTo(tail, Some(index)) == if index in blocks then Texts(env.finish(blocks[index])) else [])
    && Judged(env, tail) && DoneAfterText(tail)
  }

  /** One more block. */
  lemma FlushedStep<N>(env: Env<N>, blocks: map<nat, N>, order: seq<nat>, tail: seq<Event>, index: nat, n: N)
    requires Flushed(env, blocks, order, tail) && index !in blocks
    ensures var piece := Emitted(env, env.finish(n), Some(index)) + [ModelUpdate(StreamBlockComplete(index))];
            Flushed(env, blocks[index := n], order + [index], tail + piece)
  {
    hide SentTo, Others, Emitted, Texts, Judged, DoneAfterText;
    var said, done := Emitted(env, env.finish(n), Some(index)), ModelUpdate(StreamBlockComplete(index));
    var piece := said + [done];
    forall key ensures SentTo(piece, key) == (if key == Some(index) then Texts(env.finish(n)) else [])
      ensures SentTo(tail + piece, key) == SentTo(tail, key) + SentTo(piece, key)
      ensures Others(tail + piece) == Others(tail) + [done]
    {
      EmittedSays(env, env.finish(n), Some(index), key);
      SentOne(done, key);
      SentConcat(said, [done], key);
      SentConcat(tail, piece, key);
    }
    EmittedSays(env, env.finish(n), Some(index), None);
    JudgedOne(env, done);
    JudgedConcat(env, said, [done]);
    JudgedConcat(env, tail, piece);
    DoneLater(tail, said, index);
    var more := order + [index];
    assert Completions(more) == Completions(order) + [done];
    assert SentTo(tail + piece, None) == [];
    assert forall i :: i in more <==> i in order || i == index;
  }

  lemma DoneLater(tail: seq<Event>, said: seq<Event>, index: nat)
    requires DoneAfterText(tail) && forall i :: 0 <= i < |said| ==> TextIn(said[i], Some(index)) != []
    ensures DoneAfterText(tail + (said + [ModelUpdate(StreamBlockComplete(index))]))
  {
    var all := tail + (said + [ModelUpdate(StreamBlockComplete(index))]);
    forall i | 0 <= i < |all| && all[i].ModelUpdate? && all[i].update.StreamBlockDelta?
      ensures exists k :: i < k < |all| && CompletesBlock(all[k], all[i].update.index)
    {
      if i < |tail| {
        var k :| i < k < |tail| && CompletesBlock(tail[k], tail[i].update.index);
        assert CompletesBlock(all[k], all[i].update.index);
      } else {
        assert all[i] == said[i - |tail|];
        assert CompletesBlock(all[|all| - 1], all[i].update.index);
      }
    }
  }

  lemma NothingFlushed<N>(env: Env<N>)
    ensures Flushed(env, map[], [], [])
  {
  }

  /** What the end of the stream leaves in a normaliser. */
  function Left<N>(env: Env<N>, v: Voice<N>): seq<string> {
    if v.normaliser.Some? then Texts(env.finish(v.normaliser.value)) else []
  }

  /** The same, told by the stream: exactly the text blocks it left open. */
  ghost predicate LeftFlushed<N>(env: Env<N>, updates: seq<StreamUpdate>, order: seq<nat>, tail: seq<Event>) {
    && Distinct(order) && (forall index :: index in order <==> BlockVoice(env, updates, index).normaliser.Some?)
    && Others(tail) == Completions(order) && SentTo(tail, None) == []
    && (forall index :: SentTo(tail, Some(index)) == Left(env, BlockVoice(env, updates, index)))
    && Judged(env, tail) && DoneAfterText(tail)
  }

  lemma FlushedIsLeft<N>(env: Env<N>, t: Task<N>, updates: seq<StreamUpdate>, order: seq<nat>, tail: seq<Event>)
    requires Voices(env, t, updates) && Flushed(env, t.blocks, order, tail)
    ensures LeftFlushed(env, updates, order, tail)
  {
    hide BlockVoice, LooseVoice, SentTo, Others, Texts, Judged, DoneAfterText, Distinct;
  }
}
