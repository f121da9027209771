/** The loop that turns transport chunks into envelopes one at a time, over an arbitrary parser. */
module StreamDelivery {
  import opened Wrappers

  /** One thing the transport yields; the list ends where the connection closes. */
  datatype Item<+C> = Chunk(bytes: seq<C>) | TransportFailure

  datatype Kind = ToolStart | ToolCompletion | ToolFailure | OtherKind

  /** A stream parser: feeding bytes gives envelopes or an error, finishing flushes what is buffered, and
      the protocol may announce that it is over. */
  datatype Parser<!S, !C, !E> = Parser(
    process: (S, seq<C>) -> (S, Option<seq<E>>),
    finish: S -> (S, seq<E>),
    terminated: S -> bool,
    kind: E -> Kind)

  datatype Outcome = StreamClosed | ProtocolDone

  datatype End = Ended(outcome: Outcome) | TransportError | ParseError

  /** Everything a stream will still deliver, how it ends, and what of the transport it leaves unread. */
  datatype Rest<+C, +E> = Rest(envelopes: seq<E>, end: End, unread: seq<Item<C>>)

  function Before<C, E>(first: seq<E>, rest: Rest<C, E>): Rest<C, E> {
    rest.(envelopes := first + rest.envelopes)
  }

  /** The meaning of a connection, said at once: parse chunk after chunk, flush once at the end. */
  function Meaning<S, C, E>(p: Parser<S, C, E>, s: S, upstream: seq<Item<C>>): Rest<C, E>
    decreases |upstream|
  {
    if upstream == [] then Rest(p.finish(s).1, Ended(StreamClosed), [])
    else
      match upstream[0]
      case TransportFailure => Rest([], TransportError, upstream[1..])
      case Chunk(bytes) =>
        if bytes == [] then Meaning(p, s, upstream[1..])
        else
          var (t, parsed) := p.process(s, bytes);
          if parsed.None? then Rest([], ParseError, upstream[1..])
          else if p.terminated(t) then Rest(parsed.value + p.finish(t).1, Ended(ProtocolDone), upstream[1..])
          else Before(parsed.value, Meaning(p, t, upstream[1..]))
  }

  // ------------------------------------------------------------------------------------------
  // The meaning in terms of what was read.

  /** The parser's state after some chunks. */
  ghost function StateAfter<S, C, E>(p: Parser<S, C, E>, s: S, chunks: seq<seq<C>>): S
    decreases |chunks|
  {
    if chunks == [] then s else StateAfter(p, p.process(s, chunks[0]).0, chunks[1..])
  }

  /** What the parser answered to each chunk, in order; nothing if it refused one. */
  ghost function Outputs<S, C, E>(p: Parser<S, C, E>, s: S, chunks: seq<seq<C>>): Option<seq<E>>
    decreases |chunks|
  {
    if chunks == [] then Some([])
    else
      var (t, parsed) := p.process(s, chunks[0]);
      var more := Outputs(p, t, chunks[1..]);
      if parsed.Some? && more.Some? then Some(parsed.value + more.value) else None
  }

  /** The protocol was over after none of the chunks, except perhaps the last one. */
  ghost predicate OpenUntilLast<S, C, E>(p: Parser<S, C, E>, s: S, chunks: seq<seq<C>>) {
    forall n :: 0 < n < |chunks| ==> !p.terminated(StateAfter(p, s, chunks[..n]))
  }

  /** The non-empty chunks among the items that were read. */
  function Chunks<C>(read: seq<Item<C>>): seq<seq<C>> {
    if read == [] then []
    else if read[0].Chunk? && read[0].bytes != [] then [read[0].bytes] + Chunks(read[1..])
    else Chunks(read[1..])
  }

  /** What is delivered is the parser's answers to the chunks it took, followed by a single flush of its
      final state when the stream ended by itself, and by nothing when it failed. A stream that closed was
      read to its end, one ends by protocol exactly when that was over with the last chunk, and after a parse
      error the last chunk read is the one that was refused. The protocol was over after no other chunk. */
  ghost predicate ExactlyOnce<S, C, E>(p: Parser<S, C, E>, s: S, chunks: seq<seq<C>>, r: Rest<C, E>) {
    && OpenUntilLast(p, s, chunks)
    && if r.end == ParseError then
         && chunks != []
         && var taken := chunks[..|chunks| - 1];
            && Outputs(p, s, taken) == Some(r.envelopes)
            && p.process(StateAfter(p, s, taken), chunks[|chunks| - 1]).1.None?
       else
         && Outputs(p, s, chunks).Some?
         && r.envelopes == Outputs(p, s, chunks).value + Flushed(p, StateAfter(p, s, chunks), r.end)
         && (r.end == Ended(StreamClosed) ==> r.unread == [])
         && (r.end == Ended(ProtocolDone) <==> chunks != [] && p.terminated(StateAfter(p, s, chunks)))
  }

  /** The last item read, if it is a chunk with something in it. */
  predicate EndsInChunk<C>(read: seq<Item<C>>) {
    read != [] && read[|read| - 1].Chunk? && read[|read| - 1].bytes != []
  }

  predicate EndsInFailure<C>(read: seq<Item<C>>) {
    read != [] && read[|read| - 1].TransportFailure?
  }

  /** The parser's answer to the last chunk read. */
  ghost predicate LastRefused<S, C, E>(p: Parser<S, C, E>, s: S, read: seq<Item<C>>) {
    var chunks := Chunks(read);
    EndsInChunk(read) && chunks != [] &&
    p.process(StateAfter(p, s, chunks[..|chunks| - 1]), chunks[|chunks| - 1]).1.None?
  }

  ghost predicate ProtocolOver<S, C, E>(p: Parser<S, C, E>, s: S, chunks: seq<seq<C>>) {
    exists n :: 0 < n <= |chunks| && p.terminated(StateAfter(p, s, chunks[..n]))
  }

  /** Which item causes which end, and that none before it would have: a failure of the transport, a chunk
      that is refused, a chunk that ends the protocol, or, with everything read, none of these. */
  ghost predicate Caused<S, C, E>(p: Parser<S, C, E>, s: S, read: seq<Item<C>>, r: Rest<C, E>) {
    && (forall i :: 0 <= i < |read| - 1 ==> read[i].Chunk?)
    && (r.end == TransportError <==> EndsInFailure(read))
    && (r.end == ParseError <==> LastRefused(p, s, read))
    && (r.end == Ended(ProtocolDone) <==> EndsInChunk(read) && Outputs(p, s, Chunks(read)).Some? &&
                                          p.terminated(StateAfter(p, s, Chunks(read))))
    && (r.end == Ended(StreamClosed) <==> r.unread == [] && !EndsInFailure(read) &&
                                          Outputs(p, s, Chunks(read)).Some? && !ProtocolOver(p, s, Chunks(read)))
  }

  /** The last item read fits the end. */
  ghost predicate LastFits<C>(read: seq<Item<C>>, end: End) {
    && (forall i :: 0 <= i < |read| - 1 ==> read[i].Chunk?)
    && (end == TransportError <==> EndsInFailure(read))
    && (end == ParseError || end == Ended(ProtocolDone) ==> EndsInChunk(read))
  }

  lemma {:induction false} OutputsSplit<S, C, E>(p: Parser<S, C, E>, s: S, chunks: seq<seq<C>>)
    requires chunks != []
    ensures var front, last := chunks[..|chunks| - 1], chunks[|chunks| - 1];
            && StateAfter(p, s, chunks) == p.process(StateAfter(p, s, front), last).0
            && (Outputs(p, s, chunks).Some? <==>
                  Outputs(p, s, front).Some? && p.process(StateAfter(p, s, front), last).1.Some?)
    decreases |chunks|
  {
    var t := p.process(s, chunks[0]).0;
    if |chunks| > 1 {
      var rest := chunks[1..];
      OutputsSplit(p, t, rest);
      assert rest[..|rest| - 1] == chunks[..|chunks| - 1][1..];
    } else {
      assert chunks[..0] == [] && chunks[1..] == [];
    }
  }

  lemma {:induction false} LastChunk<C>(read: seq<Item<C>>)
    requires EndsInChunk(read)
    ensures Chunks(read) != [] && Chunks(read)[|Chunks(read)| - 1] == read[|read| - 1].bytes
    decreases |read|
  {
    if |read| > 1 {
      LastChunk(read[1..]);
    } else {
      assert Chunks(read[1..]) == [];
    }
  }

  lemma CausedBy<S, C, E>(p: Parser<S, C, E>, s: S, read: seq<Item<C>>, r: Rest<C, E>)
    requires ExactlyOnce(p, s, Chunks(read), r) && LastFits(read, r.end)
    ensures Caused(p, s, read, r)
  {
    hide Chunks;
    var chunks := Chunks(read);
    if EndsInChunk(read) { LastChunk(read); }
    if chunks != [] { OutputsSplit(p, s, chunks); }
    assert chunks[..|chunks|] == chunks;
    var n := |chunks|;
    match r.end {
      case ParseError => assert Outputs(p, s, chunks).None?;
      case Ended(ProtocolDone) =>
        assert p.terminated(StateAfter(p, s, chunks[..n]));
        assert ProtocolOver(p, s, chunks);
      case _ =>
    }
  }

  ghost function Flushed<S, C, E>(p: Parser<S, C, E>, s: S, end: End): seq<E> {
    if end.Ended? then p.finish(s).1 else []
  }

  lemma OpenUntilLastCons<S, C, E>(p: Parser<S, C, E>, s: S, first: seq<C>, rest: seq<seq<C>>)
    requires rest == [] || (!p.terminated(p.process(s, first).0) && OpenUntilLast(p, p.process(s, first).0, rest))
    ensures OpenUntilLast(p, s, [first] + rest)
  {
    var chunks := [first] + rest;
    forall n | 0 < n < |chunks| ensures !p.terminated(StateAfter(p, s, chunks[..n])) {
      assert chunks[..n][0] == first && chunks[..n][1..] == rest[..n - 1];
      if n == 1 {
        assert StateAfter(p, s, chunks[..n]) == p.process(s, first).0;
      } else {
        assert !p.terminated(StateAfter(p, p.process(s, first).0, rest[..n - 1]));
      }
    }
  }

  /** One more chunk in front keeps the account exact. */
  lemma ExactlyOnceCons<S, C, E>(p: Parser<S, C, E>, s: S, first: seq<C>, rest: seq<seq<C>>, r: Rest<C, E>)
    requires p.process(s, first).1.Some?
    requires (!p.terminated(p.process(s, first).0) && ExactlyOnce(p, p.process(s, first).0, rest, r)) ||
             (rest == [] && r.end == Ended(ProtocolDone) && p.terminated(p.process(s, first).0) &&
              r.envelopes == p.finish(p.process(s, first).0).1)
    ensures ExactlyOnce(p, s, [first] + rest, Before(p.process(s, first).1.value, r))
  {
    hide OpenUntilLast;
    OpenUntilLastCons(p, s, first, rest);
    if r.end == ParseError {
      var taken := rest[..|rest| - 1];
      assert ([first] + rest)[..|rest|] == [first] + taken;
      OutputsCons(p, s, first, taken);
    } else {
      OutputsCons(p, s, first, rest);
    }
  }

  lemma OutputsCons<S, C, E>(p: Parser<S, C, E>, s: S, first: seq<C>, rest: seq<seq<C>>)
    ensures StateAfter(p, s, [first] + rest) == StateAfter(p, p.process(s, first).0, rest)
    ensures p.process(s, first).1.Some? && Outputs(p, p.process(s, first).0, rest).Some? ==>
              Outputs(p, s, [first] + rest) ==
              Some(p.process(s, first).1.value + Outputs(p, p.process(s, first).0, rest).value)
  {
    var chunks := [first] + rest;
    assert chunks[0] == first && chunks[1..] == rest;
  }

  /** A refused chunk ends the account with nothing delivered. */
  lemma ExactlyOnceRefused<S, C, E>(p: Parser<S, C, E>, s: S, first: seq<C>, unread: seq<Item<C>>)
    requires p.process(s, first).1.None?
    ensures ExactlyOnce(p, s, [first], Rest([], ParseError, unread))
  {
    assert [first][..0] == [];
  }

  lemma ExactlyOnceNil<S, C, E>(p: Parser<S, C, E>, s: S, r: Rest<C, E>)
    requires r.envelopes == Flushed(p, s, r.end) && r.end != Ended(ProtocolDone) && r.end != ParseError
    requires r.end == Ended(StreamClosed) ==> r.unread == []
    ensures ExactlyOnce(p, s, [], r)
  {
  }

  /** Exactly once and in order, and ended by what ends it, for every parser and every transport. */
  lemma {:induction false} MeaningIsExactlyOnce<S, C, E>(p: Parser<S, C, E>, s: S, upstream: seq<Item<C>>)
    returns (read: seq<Item<C>>)
    ensures upstream == read + Meaning(p, s, upstream).unread
    ensures ExactlyOnce(p, s, Chunks(read), Meaning(p, s, upstream))
    ensures Caused(p, s, read, Meaning(p, s, upstream))
  {
    read := ReadFrom(p, s, upstream);
    hide ExactlyOnce, LastFits, Caused;
    CausedBy(p, s, read, Meaning(p, s, upstream));
  }

  lemma {:induction false} ReadFrom<S, C, E>(p: Parser<S, C, E>, s: S, upstream: seq<Item<C>>)
    returns (read: seq<Item<C>>)
    ensures upstream == read + Meaning(p, s, upstream).unread
    ensures ExactlyOnce(p, s, Chunks(read), Meaning(p, s, upstream))
    ensures LastFits(read, Meaning(p, s, upstream).end)
    decreases |upstream|
  {
    hide ExactlyOnce;
    if upstream == [] {
      ExactlyOnceNil(p, s, Meaning(p, s, upstream));
      return [];
    }
    var first, rest := upstream[0], upstream[1..];
    if first.TransportFailure? {
      ExactlyOnceNil(p, s, Meaning(p, s, upstream));
      assert Chunks([first]) == [];
      return [first];
    }
    var more := [];
    if first.bytes == [] {
      more := ReadFrom(p, s, rest);
    } else {
      var (t, parsed) := p.process(s, first.bytes);
      if parsed.None? {
        ExactlyOnceRefused(p, s, first.bytes, rest);
        assert [first.bytes] + Chunks(more) == [first.bytes];
      } else if p.terminated(t) {
        ExactlyOnceCons(p, s, first.bytes, [], Rest(p.finish(t).1, Ended(ProtocolDone), rest));
      } else {
        more := ReadFrom(p, t, rest);
        ExactlyOnceCons(p, s, first.bytes, Chunks(more), Meaning(p, t, rest));
      }
    }
    read := [first] + more;
    assert read[0] == first && read[1..] == more;
  }

  // ------------------------------------------------------------------------------------------
  // The loop.

  datatype Step<+E> = Delivered(envelope: E) | Finished | Failed(error: End)

  function CountKind<S, C, E>(p: Parser<S, C, E>, delivered: seq<E>, kind: Kind): nat {
    if delivered == [] then 0
    else CountKind(p, delivered[..|delivered| - 1], kind) + if p.kind(delivered[|delivered| - 1]) == kind then 1 else 0
  }

  lemma CountKindSnoc<S, C, E>(p: Parser<S, C, E>, delivered: seq<E>, e: E, kind: Kind)
    ensures CountKind(p, delivered + [e], kind) == CountKind(p, delivered, kind) + if p.kind(e) == kind then 1 else 0
  {
    assert (delivered + [e])[..|delivered|] == delivered;
  }

  /** What is logged once about a stream: how it ended, and what it delivered by kind. */
  datatype Summary = Summary(end: End, envelopes: nat, toolStarts: nat, toolCompletions: nat, toolFailures: nat)

  function SummaryOf<S, C, E>(p: Parser<S, C, E>, delivered: seq<E>, end: End): Summary {
    Summary(end, |delivered|, CountKind(p, delivered, ToolStart), CountKind(p, delivered, ToolCompletion),
            CountKind(p, delivered, ToolFailure))
  }

  /** What is still to come from a stream in the middle of its work. */
  function Coming<S, C, E>(p: Parser<S, C, E>, s: S, pending: seq<E>, terminal: Option<Outcome>, upstream: seq<Item<C>>)
    : Rest<C, E>
  {
    if terminal.Some? then Rest(pending, Ended(terminal.value), upstream)
    else Before(pending, Meaning(p, s, upstream))
  }

  class SignalStream<S, C, E> {
    const parser: Parser<S, C, E>
    var parserState: S
    var upstream: seq<Item<C>>
    var pending: seq<E>
    var terminalOutcome: Option<Outcome>
    var envelopeCount: nat
    var toolCallStarts: nat
    var toolCallCompletions: nat
    var toolCallFailures: nat
    var summaryEmitted: bool
    /** The summaries written to the log. */
    var summaries: seq<Summary>
    ghost var delivered: seq<E>

    /** The counters count what was delivered. */
    ghost predicate Counted()
      reads `envelopeCount, `toolCallStarts, `toolCallCompletions, `toolCallFailures, `delivered
    {
      && envelopeCount == |delivered|
      && toolCallStarts == CountKind(parser, delivered, ToolStart)
      && toolCallCompletions == CountKind(parser, delivered, ToolCompletion)
      && toolCallFailures == CountKind(parser, delivered, ToolFailure)
    }

    ghost predicate Valid()
      reads `envelopeCount, `toolCallStarts, `toolCallCompletions, `toolCallFailures, `delivered
      reads `summaryEmitted, `summaries
    {
      Counted() && (if summaryEmitted then |summaries| == 1 else summaries == [])
    }

    /** What this stream will still do. */
    ghost function ToCome(): Rest<C, E>
      reads `parserState, `pending, `terminalOutcome, `upstream
    {
      Coming(parser, parserState, pending, terminalOutcome, upstream)
    }

    constructor (p: Parser<S, C, E>, s: S, items: seq<Item<C>>)
      ensures Valid() && parser == p && ToCome() == Meaning(p, s, items)
      ensures delivered == [] && summaries == []
    {
      hide Meaning;
      parser, parserState, upstream, pending, terminalOutcome := p, s, items, [], None;
      envelopeCount, toolCallStarts, toolCallCompletions, toolCallFailures := 0, 0, 0, 0;
      summaryEmitted, summaries, delivered := false, [], [];
    }

    method ObserveEnvelope(e: E)
      requires Counted()
      modifies `envelopeCount, `toolCallStarts, `toolCallCompletions, `toolCallFailures, `delivered
      ensures Counted() && delivered == old(delivered) + [e]
    {
      hide CountKind;
      CountKindSnoc(parser, delivered, e, ToolStart);
      CountKindSnoc(parser, delivered, e, ToolCompletion);
      CountKindSnoc(parser, delivered, e, ToolFailure);
      envelopeCount := envelopeCount + 1;
      match parser.kind(e) {
        case ToolStart => toolCallStarts := toolCallStarts + 1;
        case ToolCompletion => toolCallCompletions := toolCallCompletions + 1;
        case ToolFailure => toolCallFailures := toolCallFailures + 1;
        case OtherKind =>
      }
      delivered := delivered + [e];
    }

    method EmitStreamSummary(end: End)
      requires Valid()
      modifies `summaryEmitted, `summaries
      ensures Valid() && summaryEmitted
      ensures summaries == if old(summaryEmitted) then old(summaries) else [SummaryOf(parser, delivered, end)]
    {
      if summaryEmitted {
        return;
      }
      summaryEmitted := true;
      summaries :=
        summaries + [Summary(end, envelopeCount, toolCallStarts, toolCallCompletions, toolCallFailures)];
    }

    method PopPending() returns (e: E)
      requires Valid() && pending != []
      modifies `pending, `envelopeCount, `toolCallStarts, `toolCallCompletions, `toolCallFailures, `delivered
      ensures Valid() && delivered == old(delivered) + [e]
      ensures old(pending) == [e] + pending
    {
      hide SignalStream.Counted, SummaryOf;
      e := pending[0];
      pending := pending[1..];
      ObserveEnvelope(e);
    }

    method FinishStream(outcome: Outcome) returns (step: Step<E>)
      requires Valid() && pending == [] && terminalOutcome.None?
      modifies this
      ensures Valid() && terminalOutcome == Some(outcome) && upstream == old(upstream)
      ensures var flushed := parser.finish(old(parserState)).1;
              if flushed == [] then step == Finished && pending == [] && delivered == old(delivered)
              else step.Delivered? && [step.envelope] + pending == flushed && delivered == old(delivered) + [step.envelope]
      ensures summaries == if old(summaryEmitted) || step.Delivered? then old(summaries)
                           else [SummaryOf(parser, delivered, Ended(outcome))]
    {
      hide SignalStream.Counted, SummaryOf;
      terminalOutcome := Some(outcome);
      var (s, flushed) := parser.finish(parserState);
      parserState := s;
      pending := pending + flushed;
      assert pending == flushed;
      if pending != [] {
        var e := PopPending();
        return Delivered(e);
      }
      EmitStreamSummary(Ended(outcome));
      return Finished;
    }

    /** One non-empty chunk from the transport; false when the parser refuses it. */
    method ReadChunk(bytes: seq<C>) returns (ok: bool)
      requires pending == [] && terminalOutcome.None? && bytes != []
      modifies `parserState, `pending, `terminalOutcome
      ensures Meaning(parser, old(parserState), [Chunk(bytes)] + upstream) ==
              if ok then ToCome() else Rest([], ParseError, upstream)
      ensures !ok ==> pending == []
    {
      assert ([Chunk(bytes)] + upstream)[1..] == upstream;
      var (s, parsed) := parser.process(parserState, bytes);
      parserState := s;
      if parsed.None? {
        return false;
      }
      pending := pending + parsed.value;
      assert pending == parsed.value;
      if parser.terminated(parserState) {
        var (t, flushed) := parser.finish(parserState);
        parserState := t;
        pending := pending + flushed;
        terminalOutcome := Some(ProtocolDone);
      }
      return true;
    }

    /** One pull takes exactly the head off everything still to come. */
    method NextStreamItem() returns (step: Step<E>)
      requires Valid()
      modifies this
      ensures Valid()
      ensures step.Delivered? ==>
                && delivered == old(delivered) + [step.envelope]
                && old(ToCome()) == Before([step.envelope], ToCome())
                && summaries == old(summaries)
      ensures step == Finished ==>
                && terminalOutcome.Some?
                && old(ToCome()) == Rest([], Ended(terminalOutcome.value), upstream)
                && summaries == if old(summaryEmitted) then old(summaries)
                                else [SummaryOf(parser, delivered, Ended(terminalOutcome.value))]
      ensures step.Failed? ==>
                && old(ToCome()) == Rest([], step.error, upstream) && pending == []
                && summaries == if old(summaryEmitted) || step.error == ParseError then old(summaries)
                                else [SummaryOf(parser, delivered, step.error)]
      ensures !step.Delivered? ==> delivered == old(delivered)
    {
      hide SignalStream.Counted, SummaryOf;
      ghost var toCome := ToCome();
      while true
        invariant Valid() && ToCome() == toCome && delivered == old(delivered)
        invariant summaries == old(summaries) && summaryEmitted == old(summaryEmitted)
        decreases |upstream|
      {
        if pending != [] {
          var e := PopPending();
          Popped(parser, parserState, e, pending, terminalOutcome, upstream);
          return Delivered(e);
        }
        if terminalOutcome.Some? {
          EmitStreamSummary(Ended(terminalOutcome.value));
          return Finished;
        }
        NothingPending(parser, parserState, upstream);
        if upstream == [] {
          step := FinishStream(StreamClosed);
          return;
        }
        var item := upstream[0];
        assert upstream == [item] + upstream[1..];
        upstream := upstream[1..];
        match item {
          case Chunk(bytes) =>
            if bytes == [] {
              NothingPending(parser, parserState, upstream);
              continue;
            }
            var ok := ReadChunk(bytes);
            if !ok {
              return Failed(ParseError);
            }
          case TransportFailure =>
            EmitStreamSummary(TransportError);
            return Failed(TransportError);
        }
      }
    }
  }

  lemma NothingPending<S, C, E>(p: Parser<S, C, E>, s: S, upstream: seq<Item<C>>)
    ensures Coming(p, s, [], None, upstream) == Meaning(p, s, upstream)
  {
    hide Meaning;
  }

  lemma Popped<S, C, E>(p: Parser<S, C, E>, s: S, e: E, pending: seq<E>, terminal: Option<Outcome>, upstream: seq<Item<C>>)
    ensures Coming(p, s, [e] + pending, terminal, upstream) == Before([e], Coming(p, s, pending, terminal, upstream))
  {
    hide Meaning;
    var rest := Meaning(p, s, upstream).envelopes;
    assert ([e] + pending) + rest == [e] + (pending + rest);
  }

  /** Pulling until the stream stops delivers its meaning, envelope for envelope, reads no further than
      the meaning says, counts what it delivered, and sums up once, except after a parse error. */
  method Drain<S, C, E>(p: Parser<S, C, E>, s: S, items: seq<Item<C>>)
    returns (delivered: seq<E>, end: End, unread: seq<Item<C>>, count: nat, summaries: seq<Summary>)
    ensures Rest(delivered, end, unread) == Meaning(p, s, items)
    ensures count == |delivered|
    ensures summaries == if end == ParseError then [] else [SummaryOf(p, delivered, end)]
  {
    hide Meaning, CountKind, Coming, SummaryOf, SignalStream.ToCome;
    var stream := new SignalStream(p, s, items);
    delivered := [];
    while true
      invariant fresh(stream) && stream.Valid() && stream.delivered == delivered && stream.summaries == []
      invariant stream.parser == p && Before(delivered, stream.ToCome()) == Meaning(p, s, items)
      decreases |stream.ToCome().envelopes|
    {
      ghost var toCome := stream.ToCome();
      var step := stream.NextStreamItem();
      match step {
        case Delivered(e) =>
          assert delivered + ([e] + stream.ToCome().envelopes) == (delivered + [e]) + stream.ToCome().envelopes;
          delivered := delivered + [e];
        case Finished =>
          assert delivered + [] == delivered;
          return delivered, Ended(stream.terminalOutcome.value), stream.upstream, stream.envelopeCount, stream.summaries;
        case Failed(error) =>
          assert delivered + [] == delivered;
          return delivered, error, stream.upstream, stream.envelopeCount, stream.summaries;
      }
    }
  }
}
