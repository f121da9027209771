/** The task that runs one pulse: it forwards what the conversation streams and ends with one terminal update. */
module PulseTask {
  import opened Wrappers
  import opened Envelopes
  import opened Normalizing
  import opened LocalApiProtocol

  /** What a text normaliser makes of a piece of text. */
  datatype Chunk = Text(text: string) | TaggedToolCall

  /** The text normaliser, and what the argument accumulator says of each fragment. */
  datatype Env<!N> = Env(
    initial: N,
    normalise: (N, string) -> (N, seq<Chunk>),
    finish: N -> seq<Chunk>,
    verdict: (nat, string) -> Verdict)

  datatype StreamUpdate =
    | Delta(text: string)
    | BlockBegun(index: nat, block: StreamBlock, callId: string)
    | BlockMore(index: nat, delta: string)
    | BlockDone(index: nat)
    | ApprovalAsked(capability: string)
    | Transcript(line: string)
    | Metadata
    | CommandStarted(session: SessionId)
    | CommandFinished(session: SessionId)
    | StreamError(message: string)
    | OtherStreamUpdate

  /** `emit_normalised_chunks`: tagged tool calls are dropped. */
  function Emitted<N>(env: Env<N>, chunks: seq<Chunk>, index: Option<nat>): seq<Event> {
    if chunks == [] then []
    else
      var rest := Emitted(env, chunks[1..], index);
      if chunks[0].TaggedToolCall? then rest
      else
        var text := chunks[0].text;
        [ModelUpdate(if index.Some? then StreamBlockDelta(index.value, text, env.verdict(index.value, text))
                     else StreamDelta(text))] + rest
  }

  /** The text blocks under way with their normalisers, and the normaliser of loose text. */
  datatype Task<N> = Task(blocks: map<nat, N>, loose: N)

  function BeginText<N>(env: Env<N>, t: Task<N>, index: nat, empty: StreamBlock, content: string, callId: string)
    : (Task<N>, seq<Event>)
  {
    var start := ModelUpdate(StreamBlockStart(index, empty, callId));
    if content == "" then (t.(blocks := t.blocks[index := env.initial]), [start])
    else
      var (n, chunks) := env.normalise(env.initial, content);
      (t.(blocks := t.blocks[index := n]), [start] + Emitted(env, chunks, Some(index)))
  }

  /** `forward_conversation_update`. */
  function Forward<N>(env: Env<N>, t: Task<N>, update: StreamUpdate): (Task<N>, seq<Event>) {
    match update
    case Delta(text) =>
      var (n, chunks) := env.normalise(t.loose, text);
      (t.(loose := n), Emitted(env, chunks, None))
    case BlockBegun(index, block, callId) =>
      (match block
       case Thinking(content) => BeginText(env, t, index, Thinking(""), content, callId)
       case FinalText(content) => BeginText(env, t, index, FinalText(""), content, callId)
       case _ => (t, [ModelUpdate(StreamBlockStart(index, block, callId))]))
    case BlockMore(index, delta) =>
      if index in t.blocks then
        var (n, chunks) := env.normalise(t.blocks[index], delta);
        (t.(blocks := t.blocks[index := n]), Emitted(env, chunks, Some(index)))
      else (t, [ModelUpdate(StreamBlockDelta(index, delta, env.verdict(index, delta)))])
    case BlockDone(index) =>
      if index in t.blocks then
        (t.(blocks := t.blocks - {index}),
         Emitted(env, env.finish(t.blocks[index]), Some(index)) + [ModelUpdate(StreamBlockComplete(index))])
      else (t, [ModelUpdate(StreamBlockComplete(index))])
    case ApprovalAsked(capability) => (t, [ModelUpdate(ToolApprovalUpdate(capability))])
    case Transcript(line) => (t, [ModelUpdate(LineUpdate(line))])
    case Metadata => (t, [ModelUpdate(MetadataUpdate)])
    case CommandStarted(session) => (t, [SessionStarted(session)])
    case CommandFinished(session) => (t, [SessionFinished(session)])
    case StreamError(message) => (t, [TurnError(message)])
    case OtherStreamUpdate => (t, [ModelUpdate(SilentUpdate)])
  }

  /** How the request behind the pulse came out. */
  datatype Outcome = Cancelled | Replied | SendFailed(message: string) | JoinCancelled | JoinFailed(message: string)

  function Terminal(outcome: Outcome): Event {
    match outcome
    case SendFailed(message) => TurnError(message)
    case JoinFailed(message) => TurnError(message)
    case _ => TurnComplete
  }

  predicate IsTerminal(e: Event) {
    e.TurnComplete? || e.TurnError?
  }

  /** Nothing that ends a pulse or starts one, and blocks only below the synthetic indices. */
  predicate InsidePulse(e: Event) {
    match e
    case UserInput(_) => false
    case TurnComplete => false
    case TurnError(_) => false
    case ModelUpdate(update) => ProviderIndexOk(update)
    case _ => true
  }

  predicate AllInside(events: seq<Event>) {
    forall i :: 0 <= i < |events| ==> InsidePulse(events[i])
  }

  /** The inside of a pulse, or an error in the middle of its stream. */
  predicate AllStreamed(events: seq<Event>) {
    forall i :: 0 <= i < |events| ==> InsidePulse(events[i]) || events[i].TurnError?
  }

  predicate IndexOk(update: StreamUpdate) {
    update.BlockBegun? || update.BlockMore? || update.BlockDone? ==> update.index < SYNTHETIC_FINAL_TEXT_BLOCK_START
  }

  predicate BlocksOk<N>(t: Task<N>) {
    forall index :: index in t.blocks ==> index < SYNTHETIC_FINAL_TEXT_BLOCK_START
  }

  lemma StreamedConcat(a: seq<Event>, b: seq<Event>)
    requires AllStreamed(a) && AllStreamed(b)
    ensures AllStreamed(a + b)
  {
    hide InsidePulse;
  }

  lemma EmittedInside<N>(env: Env<N>, chunks: seq<Chunk>, index: Option<nat>)
    requires index.Some? ==> index.value < SYNTHETIC_FINAL_TEXT_BLOCK_START
    ensures AllInside(Emitted(env, chunks, index))
  {
  }

  lemma ForwardInside<N>(env: Env<N>, t: Task<N>, update: StreamUpdate)
    requires BlocksOk(t) && IndexOk(update)
    ensures BlocksOk(Forward(env, t, update).0)
    ensures if update.StreamError? then Forward(env, t, update).1 == [TurnError(update.message)]
            else AllInside(Forward(env, t, update).1)
  {
    hide Emitted;
    match update {
      case Delta(text) => EmittedInside(env, env.normalise(t.loose, text).1, None);
      case BlockBegun(index, block, callId) =>
        if block.Thinking? {
          EmittedInside(env, env.normalise(env.initial, block.text).1, Some(index));
        } else if block.FinalText? {
          EmittedInside(env, env.normalise(env.initial, block.content).1, Some(index));
        }
      case BlockMore(index, delta) =>
        if index in t.blocks {
          EmittedInside(env, env.normalise(t.blocks[index], delta).1, Some(index));
        }
      case BlockDone(index) =>
        if index in t.blocks {
          EmittedInside(env, env.finish(t.blocks[index]), Some(index));
        }
      case _ =>
    }
  }

  // ------------------------------------------------------------------------------------------
  // Text blocks are closed.

  /** The text blocks an onlooker has seen begin and not complete. */
  function OpenTexts(events: seq<Event>): set<nat> {
    if events == [] then {}
    else OpenTextsAfter(OpenTexts(events[..|events| - 1]), events[|events| - 1])
  }

  function OpenTextsAfter(open: set<nat>, e: Event): set<nat> {
    if !e.ModelUpdate? then open
    else
      match e.update
      case StreamBlockStart(index, block, _) => if block.Thinking? || block.FinalText? then open + {index} else open
      case StreamBlockComplete(index) => open - {index}
      case _ => open
  }

  lemma OpenTextsSnoc(events: seq<Event>, e: Event)
    ensures OpenTexts(events + [e]) == OpenTextsAfter(OpenTexts(events), e)
  {
    hide OpenTextsAfter;
    assert (events + [e])[..|events|] == events;
  }

  lemma {:induction false} OpenTextsEmitted<N>(env: Env<N>, events: seq<Event>, chunks: seq<Chunk>, index: Option<nat>)
    ensures OpenTexts(events + Emitted(env, chunks, index)) == OpenTexts(events)
    decreases |chunks|
  {
    hide OpenTexts;
    if chunks == [] {
      assert events + [] == events;
    } else if chunks[0].TaggedToolCall? {
      OpenTextsEmitted(env, events, chunks[1..], index);
    } else {
      var first, rest := Emitted(env, chunks, index)[0], Emitted(env, chunks[1..], index);
      OpenTextsSnoc(events, first);
      OpenTextsEmitted(env, events + [first], chunks[1..], index);
      assert events + Emitted(env, chunks, index) == (events + [first]) + rest;
    }
  }

  lemma BeginTextOpens<N>(
      env: Env<N>, t: Task<N>, events: seq<Event>, index: nat, empty: StreamBlock, content: string, callId: string)
    requires OpenTexts(events) == t.blocks.Keys && (empty.Thinking? || empty.FinalText?)
    ensures var (u, sent) := BeginText(env, t, index, empty, content, callId); OpenTexts(events + sent) == u.blocks.Keys
  {
    hide OpenTexts, Emitted;
    var start := ModelUpdate(StreamBlockStart(index, empty, callId));
    OpenTextsSnoc(events, start);
    if content != "" {
      var chunks := env.normalise(env.initial, content).1;
      OpenTextsEmitted(env, events + [start], chunks, Some(index));
      var said := Emitted(env, chunks, Some(index));
      assert events + ([start] + said) == (events + [start]) + said;
    }
  }

  /** The blocks under way are exactly the text blocks that look open from outside. */
  lemma ForwardOpens<N>(env: Env<N>, t: Task<N>, events: seq<Event>, update: StreamUpdate)
    requires OpenTexts(events) == t.blocks.Keys
    ensures OpenTexts(events + Forward(env, t, update).1) == Forward(env, t, update).0.blocks.Keys
  {
    hide OpenTexts, Emitted, BeginText;
    match update {
      case Delta(text) => OpenTextsEmitted(env, events, env.normalise(t.loose, text).1, None);
      case BlockBegun(index, block, callId) =>
        match block {
          case Thinking(content) => BeginTextOpens(env, t, events, index, Thinking(""), content, callId);
          case FinalText(content) => BeginTextOpens(env, t, events, index, FinalText(""), content, callId);
          case _ => OpenTextsSnoc(events, Forward(env, t, update).1[0]);
        }
      case BlockMore(index, delta) =>
        if index in t.blocks {
          OpenTextsEmitted(env, events, env.normalise(t.blocks[index], delta).1, Some(index));
        } else {
          OpenTextsSnoc(events, Forward(env, t, update).1[0]);
        }
      case BlockDone(index) =>
        var flushed := if index in t.blocks then Emitted(env, env.finish(t.blocks[index]), Some(index)) else [];
        if index in t.blocks {
          OpenTextsEmitted(env, events, env.finish(t.blocks[index]), Some(index));
        }
        assert events + [] == events;
        OpenTextsSnoc(events + flushed, ModelUpdate(StreamBlockComplete(index)));
        assert events + Forward(env, t, update).1 == (events + flushed) + [ModelUpdate(StreamBlockComplete(index))];
      case _ => OpenTextsSnoc(events, Forward(env, t, update).1[0]);
    }
  }

  // ------------------------------------------------------------------------------------------
  // The task.

  function Terminals(events: seq<Event>): nat {
    if events == [] then 0
    else Terminals(events[..|events| - 1]) + if IsTerminal(events[|events| - 1]) then 1 else 0
  }

  lemma TerminalsSnoc(events: seq<Event>, e: Event)
    ensures Terminals(events + [e]) == Terminals(events) + if IsTerminal(e) then 1 else 0
  {
    assert (events + [e])[..|events|] == events;
  }

  lemma {:induction false} InsideAddsNoTerminal(events: seq<Event>, more: seq<Event>)
    requires AllInside(more)
    ensures Terminals(events + more) == Terminals(events)
    decreases |more|
  {
    hide Terminals;
    if more == [] {
      assert events + more == events;
    } else {
      var front, last := more[..|more| - 1], more[|more| - 1];
      assert events + more == (events + front) + [last];
      InsideAddsNoTerminal(events, front);
      TerminalsSnoc(events + front, last);
    }
  }

  /** The errors in the middle of a stream. */
  function StreamErrors(updates: seq<StreamUpdate>): nat {
    if updates == [] then 0
    else StreamErrors(updates[..|updates| - 1]) + if updates[|updates| - 1].StreamError? then 1 else 0
  }

  lemma InsideIsStreamed(events: seq<Event>)
    ensures AllInside(events) ==> AllStreamed(events)
  {
  }

  /** What forwarding one update adds to the account. */
  lemma {:induction false} ForwardAccount<N>(env: Env<N>, t: Task<N>, sent: seq<Event>, update: StreamUpdate)
    requires BlocksOk(t) && IndexOk(update) && AllStreamed(sent)
    ensures var (u, events) := Forward(env, t, update);
            && BlocksOk(u) && AllStreamed(sent + events)
            && Terminals(sent + events) == Terminals(sent) + if update.StreamError? then 1 else 0
  {
    hide Forward, Terminals, InsidePulse, BlocksOk;
    ForwardInside(env, t, update);
    var events := Forward(env, t, update).1;
    if update.StreamError? {
      TerminalsSnoc(sent, events[0]);
      assert AllStreamed(events);
    } else {
      InsideAddsNoTerminal(sent, events);
      InsideIsStreamed(events);
    }
    StreamedConcat(sent, events);
  }

  lemma Initially<N>(task: Task<N>)
    requires task.blocks == map[]
    ensures OpenTexts([]) == task.blocks.Keys && BlocksOk(task) && AllStreamed([]) && Terminals([]) == 0
    ensures StreamErrors([]) == 0
  {
  }

  /** So without such an error what comes before the terminal update is the inside of a pulse. */
  lemma {:induction false} InsideIff(events: seq<Event>)
    requires AllStreamed(events)
    ensures Terminals(events) == 0 <==> AllInside(events)
    decreases |events|
  {
    if events != [] {
      var front, last := events[..|events| - 1], events[|events| - 1];
      InsideIff(front);
      assert AllInside(events) <==> AllInside(front) && InsidePulse(last);
    }
  }
}
