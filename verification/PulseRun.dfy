/** One pulse from its stream to its last update. */
module PulseRun {
  import opened Wrappers
  import opened Envelopes
  import opened Normalizing
  import opened LocalApiProtocol
  import opened PulseTask
  import opened PulseVoices

  /** The loop that sends the texts among some chunks. */
  method EmitNormalisedChunks<N>(env: Env<N>, chunks: seq<Chunk>, index: Option<nat>) returns (sent: seq<Event>)
    ensures sent == Emitted(env, chunks, index)
  {
    hide Emitted;
    sent := [];
    assert chunks[0..] == chunks;
    for i := 0 to |chunks|
      invariant sent + Emitted(env, chunks[i..], index) == Emitted(env, chunks, index)
    {
      EmittedStep(env, chunks, i, index);
      ghost var rest := Emitted(env, chunks[i + 1..], index);
      match chunks[i] {
        case Text(text) =>
          var update := if index.Some? then StreamBlockDelta(index.value, text, env.verdict(index.value, text))
                        else StreamDelta(text);
          assert sent + ([ModelUpdate(update)] + rest) == (sent + [ModelUpdate(update)]) + rest;
          sent := sent + [ModelUpdate(update)];
        case TaggedToolCall => assert [] + rest == rest;
      }
    }
    NothingEmitted(env, index);
    assert chunks[|chunks|..] == [];
    assert sent + [] == sent;
  }

  lemma EmittedStep<N>(env: Env<N>, chunks: seq<Chunk>, i: nat, index: Option<nat>)
    requires i < |chunks|
    ensures Emitted(env, chunks[i..], index) ==
            (if chunks[i].TaggedToolCall? then []
             else [ModelUpdate(
                     if index.Some?
                     then StreamBlockDelta(index.value, chunks[i].text, env.verdict(index.value, chunks[i].text))
                     else StreamDelta(chunks[i].text))]) + Emitted(env, chunks[i + 1..], index)
  {
    assert chunks[i..][1..] == chunks[i + 1..];
  }

  lemma NothingEmitted<N>(env: Env<N>, index: Option<nat>)
    ensures Emitted(env, [], index) == []
  {
  }

  /** The blocks left open are flushed and completed, in whatever order the hash map has them. */
  method FlushBlocks<N>(env: Env<N>, blocks: map<nat, N>, ghost sent: seq<Event>)
    returns (tail: seq<Event>, ghost order: seq<nat>)
    requires AllStreamed(sent) && BlocksOk(Task(blocks, env.initial)) && OpenTexts(sent) == blocks.Keys
    ensures AllStreamed(sent + tail) && Terminals(sent + tail) == Terminals(sent) && OpenTexts(sent + tail) == {}
    ensures Flushed(env, blocks, order, tail)
  {
    hide Forward, OpenTexts, Terminals, AllStreamed, InsidePulse, Emitted, Flushed, Parts, BlocksOk;
    tail, order := [], [];
    var left := blocks;
    ghost var done: map<nat, N> := map[];
    assert Parts(blocks, left, done) by { NoneDone(blocks); }
    NothingFlushed(env);
    assert sent + [] == sent;
    while left.Keys != {}
      invariant AllStreamed(sent + tail) && BlocksOk(Task(left, env.initial)) && OpenTexts(sent + tail) == left.Keys
      invariant Terminals(sent + tail) == Terminals(sent)
      invariant Parts(blocks, left, done) && Flushed(env, done, order, tail)
      decreases |left|
    {
      var index :| index in left.Keys;
      PartsStep(blocks, left, done, index);
      BlockFlushed(env, left, done, sent, order, tail, index);
      DoneRemoves(env, left, index);
      var piece := EmitNormalisedChunks(env, env.finish(left[index]), Some(index));
      piece := piece + [ModelUpdate(StreamBlockComplete(index))];
      tail, order, done := tail + piece, order + [index], done[index := left[index]];
      left := left - {index};
    }
    assert done == blocks by { AllDone(blocks, left, done); }
  }

  /** The blocks are those still open and those done. */
  ghost predicate Parts<N>(blocks: map<nat, N>, left: map<nat, N>, done: map<nat, N>) {
    && left.Keys !! done.Keys && left.Keys + done.Keys == blocks.Keys
    && (forall i :: i in left ==> left[i] == blocks[i]) && (forall i :: i in done ==> done[i] == blocks[i])
  }

  lemma PartsStep<N>(blocks: map<nat, N>, left: map<nat, N>, done: map<nat, N>, index: nat)
    requires Parts(blocks, left, done) && index in left
    ensures Parts(blocks, left - {index}, done[index := left[index]]) && index !in done
  {
    var l, d := left - {index}, done[index := left[index]];
    assert l.Keys == left.Keys - {index} && d.Keys == done.Keys + {index};
  }

  lemma NoneDone<N>(blocks: map<nat, N>)
    ensures Parts(blocks, blocks, map[])
  {
  }

  lemma AllDone<N>(blocks: map<nat, N>, left: map<nat, N>, done: map<nat, N>)
    requires Parts(blocks, left, done) && left.Keys == {}
    ensures done == blocks
  {
  }

  lemma BlockFlushed<N>(
      env: Env<N>, left: map<nat, N>, done: map<nat, N>, sent: seq<Event>, order: seq<nat>, tail: seq<Event>, index: nat)
    requires AllStreamed(sent + tail) && BlocksOk(Task(left, env.initial)) && OpenTexts(sent + tail) == left.Keys
    requires index in left && index !in done && Flushed(env, done, order, tail)
    ensures var piece := Emitted(env, env.finish(left[index]), Some(index)) + [ModelUpdate(StreamBlockComplete(index))];
            && AllStreamed(sent + (tail + piece)) && BlocksOk(Task(left - {index}, env.initial))
            && OpenTexts(sent + (tail + piece)) == (left - {index}).Keys
            && Terminals(sent + (tail + piece)) == Terminals(sent + tail)
            && Flushed(env, done[index := left[index]], order + [index], tail + piece)
  {
    hide Forward, OpenTexts, Terminals, AllStreamed, InsidePulse, Emitted, Flushed;
    var piece := Emitted(env, env.finish(left[index]), Some(index)) + [ModelUpdate(StreamBlockComplete(index))];
    ForwardAccount(env, Task(left, env.initial), sent + tail, BlockDone(index));
    ForwardOpens(env, Task(left, env.initial), sent + tail, BlockDone(index));
    DoneRemoves(env, left, index);
    FlushedStep(env, done, order, tail, index, left[index]);
    assert (sent + tail) + piece == sent + (tail + piece);
  }

  lemma DoneRemoves<N>(env: Env<N>, blocks: map<nat, N>, index: nat)
    requires index in blocks
    ensures Forward(env, Task(blocks, env.initial), BlockDone(index)) ==
            (Task(blocks - {index}, env.initial),
             Emitted(env, env.finish(blocks[index]), Some(index)) + [ModelUpdate(StreamBlockComplete(index))])
    ensures |blocks - {index}| < |blocks|
  {
    assert (blocks - {index}).Keys == blocks.Keys - {index};
  }

  /** The updates that are forwarded before the pulse is cancelled. */
  function Before(updates: seq<StreamUpdate>, cancelledAfter: Option<nat>): seq<StreamUpdate> {
    if cancelledAfter.Some? && cancelledAfter.value <= |updates| then updates[..cancelledAfter.value] else updates
  }

  /** Forwarding until the conversation has nothing more to say, or the pulse is cancelled; then flushing the
      open blocks, unless cancelled; then one terminal update, the last. It is the only one exactly when no
      error was forwarded in the middle of the stream. Every text that went in comes out as its normaliser
      gives it, flushed at the end of its block or of the stream; everything else comes out as it went in. */
  method RunPulse<N>(env: Env<N>, updates: seq<StreamUpdate>, cancelledAfter: Option<nat>, outcome: Outcome)
    returns (sent: seq<Event>, ghost cuts: seq<nat>, ghost order: seq<nat>)
    requires forall i :: 0 <= i < |updates| ==> IndexOk(updates[i])
    requires cancelledAfter.Some? ==> cancelledAfter.value <= |updates|
    requires outcome.Cancelled? <==> cancelledAfter.Some?
    ensures sent != [] && sent[|sent| - 1] ==
            if outcome.SendFailed? || outcome.JoinFailed? then TurnError(outcome.message) else TurnComplete
    ensures AllStreamed(sent[..|sent| - 1])
    ensures Terminals(sent) == 1 + StreamErrors(Before(updates, cancelledAfter))
    ensures cancelledAfter.None? ==> OpenTexts(sent) == {}
    ensures var before, last := Before(updates, cancelledAfter), |sent| - 1;
            && |cuts| == |before| + 1 && cuts[|before|] <= last
            && InStep(env, sent[..cuts[|before|]], before, cuts)
            && (if cancelledAfter.Some? then cuts[|before|] == last
                else LeftFlushed(env, before, order, sent[cuts[|before|]..last]))
    ensures var before := Before(updates, cancelledAfter);
            && SentTo(sent, None) == LooseVoice(env, before).said
            && forall index :: SentTo(sent, Some(index)) ==
                 BlockVoice(env, before, index).said +
                 if cancelledAfter.None? then Left(env, BlockVoice(env, before, index)) else []
  {
    hide Forward, OpenTexts, AllStreamed, InsidePulse, Emitted, BlocksOk, Terminals, InStep, Voices, Flushed, LeftFlushed;
    hide SentTo, BlockVoice, LooseVoice, Left;
    var task := Task(map[], env.initial);
    sent, cuts, order := [], [0], [];
    Initially(task);
    InStepAtFirst(env, task, updates);
    var i := 0;
    while i < |updates| && cancelledAfter != Some(i)
      invariant i <= |updates| && AllStreamed(sent) && BlocksOk(task)
      invariant cancelledAfter.Some? ==> i <= cancelledAfter.value
      invariant OpenTexts(sent) == task.blocks.Keys
      invariant Terminals(sent) == StreamErrors(updates[..i])
      invariant Voices(env, task, updates[..i]) && InStep(env, sent, updates[..i], cuts)
    {
      assert updates[..i + 1][..i] == updates[..i];
      ForwardAccount(env, task, sent, updates[i]);
      ForwardOpens(env, task, sent, updates[i]);
      InStepMore(env, task, sent, updates, cuts, i);
      var (next, events) := Forward(env, task, updates[i]);
      cuts := cuts + [|sent| + |events|];
      task, sent, i := next, sent + events, i + 1;
    }
    ghost var before := updates[..i];
    assert before == Before(updates, cancelledAfter);
    InStepSays(env, sent, before, cuts);
    ghost var main := sent;
    if cancelledAfter.None? {
      BlocksOnly(task, env);
      var tail;
      tail, order := FlushBlocks(env, task.blocks, sent);
      FlushedIsLeft(env, task, before, order, tail);
      LeftSays(env, before, main, order, tail);
      sent := sent + tail;
      assert sent[|main|..] == tail;
    }
    EndSays(sent, Terminal(outcome));
    TerminalsSnoc(sent, Terminal(outcome));
    OpenTextsSnoc(sent, Terminal(outcome));
    ghost var all := sent + [Terminal(outcome)];
    assert all[..|sent|] == sent && all[..|main|] == main && all[|main|..|sent|] == sent[|main|..];
    sent := sent + [Terminal(outcome)];
  }

  /** What being in step means for the whole of what was sent. */
  lemma InStepSays<N>(env: Env<N>, sent: seq<Event>, updates: seq<StreamUpdate>, cuts: seq<nat>)
    requires InStep(env, sent, updates, cuts)
    ensures |cuts| == |updates| + 1 && cuts[|updates|] == |sent|
    ensures SentTo(sent, None) == LooseVoice(env, updates).said
    ensures forall index :: SentTo(sent, Some(index)) == BlockVoice(env, updates, index).said
  {
    hide SentTo, BlockVoice, LooseVoice, Others, AllPassed, Judged, InTurn;
    var n := |updates|;
    assert Conveys(env, sent[..cuts[n]], updates[..n]);
    assert sent[..cuts[n]] == sent && updates[..n] == updates;
  }

  lemma LeftSays<N>(env: Env<N>, updates: seq<StreamUpdate>, main: seq<Event>, order: seq<nat>, tail: seq<Event>)
    requires LeftFlushed(env, updates, order, tail)
    ensures SentTo(main + tail, None) == SentTo(main, None)
    ensures forall index :: SentTo(main + tail, Some(index)) ==
                            SentTo(main, Some(index)) + Left(env, BlockVoice(env, updates, index))
  {
    hide SentTo, BlockVoice, LooseVoice, Others, Judged, Left, DoneAfterText, Distinct, Completions;
    forall key ensures SentTo(main + tail, key) == SentTo(main, key) + SentTo(tail, key) {
      SentConcat(main, tail, key);
    }
    assert SentTo(main, None) + [] == SentTo(main, None);
  }

  lemma EndSays(sent: seq<Event>, end: Event)
    requires IsTerminal(end)
    ensures forall key :: SentTo(sent + [end], key) == SentTo(sent, key)
  {
    forall key ensures SentTo(sent + [end], key) == SentTo(sent, key) {
      SentConcat(sent, [end], key);
      SentOne(end, key);
    }
  }

  lemma BlocksOnly<N>(t: Task<N>, env: Env<N>)
    requires BlocksOk(t)
    ensures BlocksOk(Task(t.blocks, env.initial))
  {
  }
}
