/** Two accounts of the same pulse: the response batch mode collects from its updates, and the one derived
    from the envelopes of the same updates. */
module BatchResponses {
  import opened Wrappers
  import opened Envelopes
  import opened Normalizing
  import opened BatchRecords
  import opened HeardText
  import opened PulseRoundTrip
  import BatchRun

  /** Thinking: the blocks open only as thinking, and what was streamed of them. */
  datatype Thought = Thought(open: set<nat>, text: string) {
    function Think(h: Heard, update: Update): Thought {
      match update
      case StreamBlockStart(index, Thinking(content), _) =>
        Thought(if Count(h.open, Given(index)) > 0 then open else open + {index}, text + content)
      case StreamBlockStart(index, FinalText(_), _) => this.(open := open - {index})
      case StreamBlockDelta(index, delta, _) => if index in open then this.(text := text + delta) else this
      case StreamBlockComplete(index) => this.(open := open - {index})
      case _ => this
    }
  }

  function ThinkAll(updates: seq<Update>): Thought {
    if updates == [] then Thought({}, "")
    else ThinkAll(updates[..|updates| - 1]).Think(HearAll(updates[..|updates| - 1]), updates[|updates| - 1])
  }

  /** Batch mode knows as text every block that is open as text or as thinking. */
  ghost predicate Knows(blocks: set<nat>, h: Heard, thought: Thought) {
    && (forall index :: index in blocks <==> index in thought.open || Count(h.open, Given(index)) > 0)
    && (forall index :: index in thought.open ==> Count(h.open, Given(index)) == 0)
    && (forall key :: Count(h.open, key) <= 1)
  }

  /** The response is made of the text streamed and the text thought, and is the former if nothing was thought. */
  ghost predicate MadeOf(response: string, streamed: string, thought: string) {
    && multiset(response) == multiset(streamed) + multiset(thought)
    && |response| == |streamed| + |thought|
    && (thought == "" ==> response == streamed)
  }

  lemma MadeOfMore(response: string, streamed: string, thought: string, said: string, pondered: string)
    requires MadeOf(response, streamed, thought) && (said == "" || pondered == "")
    ensures MadeOf(response + said + pondered, streamed + said, thought + pondered)
  {
    assert response + said + "" == response + said && response + "" == response;
    assert streamed + "" == streamed && thought + "" == thought;
  }

  function BlocksAfter(blocks: set<nat>, update: Update): set<nat> {
    match update
    case StreamBlockStart(index, Thinking(_), _) => blocks + {index}
    case StreamBlockStart(index, FinalText(_), _) => blocks + {index}
    case StreamBlockComplete(index) => blocks - {index}
    case _ => blocks
  }

  lemma {:induction false} CountsAfter(h: Heard, update: Update, index: nat)
    ensures Count(h.Hear(update).open, Given(index)) ==
            match update
            case StreamBlockStart(i, FinalText(_), _) =>
              if i == index && Count(h.open, Given(i)) == 0 then 1 else Count(h.open, Given(index))
            case StreamBlockComplete(i) =>
              if i == index && Count(h.open, Given(i)) > 0 then Count(h.open, Given(i)) - 1
              else Count(h.open, Given(index))
            case _ => Count(h.open, Given(index))
  {
    hide Count, Started, Extended, Removed;
    var key := Given(index);
    CompleteCounts(h, Loose, key);
    match update {
      case StreamDelta(delta) =>
        Counts(h.open, Loose, "", key);
        Counts(h.open, Loose, delta, key);
        Counts(Started(h.open, Loose, ""), Loose, delta, key);
      case StreamBlockStart(i, block, _) =>
        CompleteCounts(h, Loose, Given(i));
        if block.FinalText? { Counts(h.Complete(Loose).open, Given(i), block.content, key); }
      case StreamBlockDelta(i, delta, _) => Counts(h.open, Given(i), delta, key);
      case StreamBlockComplete(i) => CompleteCounts(h, Given(i), key);
      case _ =>
    }
  }

  lemma CompleteCounts(h: Heard, key: Key, other: Key)
    ensures Count(h.Complete(key).open, other) ==
            if other == key && Count(h.open, key) > 0 then Count(h.open, key) - 1 else Count(h.open, other)
  {
    hide Count, Removed;
    Counts(h.open, key, "", other);
    Counts(h.open, key, "", key);
  }

  lemma LooseAtMostOnce(h: Heard, update: Update)
    requires Count(h.open, Loose) <= 1
    ensures Count(h.Hear(update).open, Loose) <= 1
  {
    hide Count, Started, Extended, Removed;
    CompleteCounts(h, Loose, Loose);
    match update {
      case StreamDelta(delta) =>
        Counts(h.open, Loose, "", Loose);
        Counts(h.open, Loose, delta, Loose);
        Counts(Started(h.open, Loose, ""), Loose, delta, Loose);
      case StreamBlockStart(i, block, _) =>
        if block.FinalText? { Counts(h.Complete(Loose).open, Given(i), block.content, Loose); }
      case StreamBlockDelta(i, delta, _) => Counts(h.open, Given(i), delta, Loose);
      case StreamBlockComplete(i) => CompleteCounts(h, Given(i), Loose);
      case _ =>
    }
  }

  lemma KnowsStep(blocks: set<nat>, h: Heard, thought: Thought, update: Update)
    requires Knows(blocks, h, thought)
    ensures Knows(BlocksAfter(blocks, update), h.Hear(update), thought.Think(h, update))
  {
    hide Count, Heard.Hear;
    var g, after, more := h.Hear(update), thought.Think(h, update), BlocksAfter(blocks, update);
    LooseAtMostOnce(h, update);
    forall index
      ensures index in more <==> index in after.open || Count(g.open, Given(index)) > 0
      ensures index in after.open ==> Count(g.open, Given(index)) == 0
      ensures Count(g.open, Given(index)) <= 1
    {
      CountsAfter(h, update, index);
    }
    forall key ensures Count(g.open, key) <= 1 {
      if key.Given? {
        CountsAfter(h, update, key.index);
      }
    }
  }

  /** What one update adds to the thinking. */
  function Ponders(thought: Thought, update: Update): string {
    match update
    case StreamBlockStart(_, Thinking(content), _) => content
    case StreamBlockDelta(index, delta, _) => if index in thought.open then delta else ""
    case _ => ""
  }

  lemma ThinkText(h: Heard, thought: Thought, update: Update)
    ensures thought.Think(h, update).text == thought.text + Ponders(thought, update)
  {
  }

  lemma BufferStep(o: BatchRun.Options, b: BatchRun.Batch, h: Heard, thought: Thought, update: Update)
    requires Knows(b.buffer.textBlocks, h, thought) && Within(update)
    ensures b.OnUpdate(o, update).buffer.response == b.buffer.response + Says(h, update) + Ponders(thought, update)
    ensures b.OnUpdate(o, update).buffer.textBlocks == BlocksAfter(b.buffer.textBlocks, update)
    ensures Says(h, update) == "" || Ponders(thought, update) == ""
  {
    hide BatchRun.Batch.FinishTurn, BatchRun.Batch.Conclude, Count;
    assert b.buffer.response + "" == b.buffer.response;
    if update.StreamBlockStart? && update.block.ToolResult? {
      ResultKeepsText(b.buffer, update.block.toolCallId, update.block.isError);
      hide BatchRun.Buffer.OnResult;
    }
  }

  lemma ResultKeepsText(buffer: BatchRun.Buffer, id: string, isError: bool)
    ensures buffer.OnResult(id, isError).response == buffer.response
    ensures buffer.OnResult(id, isError).textBlocks == buffer.textBlocks
  {
  }

  lemma {:induction false} CollectsAll(o: BatchRun.Options, b: BatchRun.Batch, updates: seq<Update>)
    requires b.buffer.response == "" && b.buffer.textBlocks == {} && AllWithin(updates)
    ensures var collected := BatchRun.Updates(o, b, updates).buffer;
            && MadeOf(collected.response, Streamed(updates), ThinkAll(updates).text)
            && Knows(collected.textBlocks, HearAll(updates), ThinkAll(updates))
    decreases |updates|
  {
    hide Knows, MadeOf, BatchRun.Batch.OnUpdate, Heard.Hear, Thought.Think, Ponders, Says, Within;
    if updates == [] {
      NothingCollected();
    } else {
      var front, last := updates[..|updates| - 1], updates[|updates| - 1];
      CollectsAll(o, b, front);
      var c, h, thought := BatchRun.Updates(o, b, front), HearAll(front), ThinkAll(front);
      BufferStep(o, c, h, thought, last);
      KnowsStep(c.buffer.textBlocks, h, thought, last);
      ThinkText(h, thought, last);
      MadeOfMore(c.buffer.response, Streamed(front), thought.text, Says(h, last), Ponders(thought, last));
    }
  }

  lemma NothingCollected()
    ensures MadeOf("", "", "") && Knows({}, SILENCE, Thought({}, ""))
  {
  }

  /** Every letter batch mode collects is in the derived response, or thinking, or of a text block started over.
      The two responses agree exactly when there was no thinking text and the text is heard in the order in
      which it was streamed, which it is wherever text blocks do not overlap. */
  lemma ResponsesAgreeIff(
      o: BatchRun.Options, b: BatchRun.Batch, input: string, clearing: Result<()>, updates: seq<Update>,
      n: Norm, number: nat, end: string, files: set<string>)
    requires b.OnUserInput(o, input, clearing).pulses != b.pulses && AllWithin(updates)
    ensures var derived := Derive(PulseLog(n, number, Some(input), updates, end, files));
            var collected := BatchRun.Updates(o, b.OnUserInput(o, input, clearing), updates).buffer.response;
            && |derived.records| == 1
            && var told, thought := derived.records[0].response, ThinkAll(updates).text;
               && multiset(collected) == multiset(told) + multiset(Overwritten(updates)) + multiset(thought)
               && (collected == told <==> thought == "" && HearAll(updates).Whole() == Streamed(updates))
               && (AllApart(updates) ==> |collected| == |told| + |thought| && (collected == told <==> thought == ""))
  {
    hide BatchRun.Batch.OnUserInput, HearAll, PulseLog, BatchRun.Updates, Derive, Heard.Whole, Knows, ThinkAll, AllApart;
    hide Streamed, Overwritten;
    BatchRun.PulsesOnlyByStart(o, b, input, clearing);
    CollectsAll(o, b.OnUserInput(o, input, clearing), updates);
    PulseRecorded(n, number, Some(input), updates, end, files);
    var collected := BatchRun.Updates(o, b.OnUserInput(o, input, clearing), updates).buffer.response;
    var told, thought := HearAll(updates).Whole(), ThinkAll(updates).text;
    LettersKept(updates);
    SameSize(told, Overwritten(updates), Streamed(updates));
    if AllApart(updates) {
      HeardInOrder(updates);
    }
  }

  lemma SameSize(x: string, y: string, z: string)
    requires multiset(x) + multiset(y) == multiset(z)
    ensures |x| + |y| == |z|
  {
    assert |multiset(x)| == |x| && |multiset(y)| == |y| && |multiset(z)| == |z|;
  }

  /** A pulse in which they differ: some thinking, then the answer. */
  function ThinkThenAnswer(thought: string, answer: string): seq<Update> {
    [StreamBlockStart(0, Thinking(thought), ""), StreamBlockComplete(0), StreamDelta(answer)]
  }

  lemma ThinkingIsCollected(
      o: BatchRun.Options, b: BatchRun.Batch, input: string, clearing: Result<()>, thought: string, answer: string,
      n: Norm, number: nat, end: string, files: set<string>)
    requires b.OnUserInput(o, input, clearing).pulses != b.pulses
    ensures var updates := ThinkThenAnswer(thought, answer);
            var derived := Derive(PulseLog(n, number, Some(input), updates, end, files));
            && BatchRun.Updates(o, b.OnUserInput(o, input, clearing), updates).buffer.response == thought + answer
            && |derived.records| == 1 && derived.records[0].response == answer
  {
    hide BatchRun.Batch.OnUserInput, BatchRun.Batch.FinishTurn, BatchRun.Batch.Conclude, PulseLog, Derive;
    var updates := ThinkThenAnswer(thought, answer);
    var started := b.OnUserInput(o, input, clearing);
    BatchRun.PulsesOnlyByStart(o, b, input, clearing);
    PulseRecorded(n, number, Some(input), updates, end, files);
    assert updates[..2] == [updates[0], updates[1]] && updates[..2][..1] == [updates[0]] && updates[..2][..1][..0] == [];
    assert BatchRun.Updates(o, started, updates[..2][..1]).buffer.response == "" + thought == thought;
    assert BatchRun.Updates(o, started, updates[..2]).buffer.response == thought;
    assert HearAll(updates[..2][..1]) == SILENCE.Hear(updates[0]) == SILENCE;
    assert HearAll(updates[..2]) == SILENCE.Hear(updates[1]) == SILENCE;
    AnswerHeard(answer);
  }

  lemma AnswerHeard(answer: string)
    ensures SILENCE.Hear(StreamDelta(answer)).Whole() == answer
  {
    OneBlock(SILENCE.Hear(StreamDelta(answer)));
    NoBlock();
    assert "" + answer == answer && answer + "" == answer;
  }
}
