/** The text a pulse's updates tell: which block it belongs to, the order it is heard in, and that none is lost. */
module HeardText {
  import opened Wrappers
  import opened Envelopes
  import opened Normalizing
  import opened BatchRecords
  import opened Announced

  // ------------------------------------------------------------------------------------------
  // The text of a pulse, as its updates tell it.

  /** The text blocks the updates know of: those the provider numbers, and the loose text between them. */
  datatype Key = Loose | Given(index: nat)

  function Count<K(==)>(blocks: Blocks<K>, key: K): nat {
    if blocks == [] then 0 else (if blocks[0].0 == key then 1 else 0) + Count(blocks[1..], key)
  }

  /** The text of the blocks completed so far, in the order of completion, and the blocks still open. */
  datatype Heard = Heard(completed: string, open: Blocks<Key>) {
    function Start(key: Key, content: string): Heard {
      this.(open := Started(open, key, content))
    }

    function Extend(key: Key, delta: string): Heard {
      this.(open := Extended(open, key, delta))
    }

    function Complete(key: Key): Heard {
      var (content, rest) := Removed(open, key);
      if content.Some? then Heard(completed + content.value, rest) else this
    }

    /** Loose text ends where anything but more of it is said. */
    function Hear(update: Update): Heard {
      match update
      case LineUpdate(_) => Complete(Loose)
      case ToolApprovalUpdate(_) => Complete(Loose)
      case StreamDelta(delta) => (if Count(open, Loose) > 0 then this else Start(Loose, "")).Extend(Loose, delta)
      case StreamBlockStart(index, block, _) =>
        var h := Complete(Loose);
        if block.FinalText? then h.Start(Given(index), block.content) else h
      case StreamBlockDelta(index, delta, _) => Extend(Given(index), delta)
      case StreamBlockComplete(index) => Complete(Given(index))
      case _ => this
    }

    /** The end of the pulse: the blocks never completed follow in the order they were started, the loose
        text before the others. */
    function Whole(): string {
      Complete(Loose).completed + Contents(Complete(Loose).open)
    }
  }

  const SILENCE := Heard("", [])

  function HearAll(updates: seq<Update>): Heard {
    if updates == [] then SILENCE else HearAll(updates[..|updates| - 1]).Hear(updates[|updates| - 1])
  }

  /** Within a pulse: not a terminal update, and no index but a provider's. */
  predicate Within(update: Update) {
    ProviderIndexOk(update) && !update.PulseComplete? && !update.ErrorUpdate?
  }

  predicate AllWithin(updates: seq<Update>) {
    forall i :: 0 <= i < |updates| ==> Within(updates[i])
  }

  lemma Counts<K>(blocks: Blocks<K>, key: K, text: string, other: K)
    ensures Count(Started(blocks, key, text), other) ==
            if other == key && Count(blocks, key) == 0 then 1 else Count(blocks, other)
    ensures Count(Extended(blocks, key, text), other) == Count(blocks, other)
    ensures Count(Removed(blocks, key).1, other) ==
            if other == key && Count(blocks, key) > 0 then Count(blocks, key) - 1 else Count(blocks, other)
    ensures Removed(blocks, key).0.Some? <==> Count(blocks, key) > 0
  {
  }

  // ------------------------------------------------------------------------------------------
  // The order of the text.

  /** What one update streams as text of the answer, after what was heard. */
  function Says(h: Heard, update: Update): string {
    match update
    case StreamDelta(delta) => delta
    case StreamBlockStart(_, FinalText(content), _) => content
    case StreamBlockDelta(index, delta, _) => if Count(h.open, Given(index)) > 0 then delta else ""
    case _ => ""
  }

  function Held<K(==)>(blocks: Blocks<K>, key: K): string {
    var content := Removed(blocks, key).0;
    if content.Some? then content.value else ""
  }

  /** A text block started again while it is open loses what it held. */
  function Overwrites(h: Heard, update: Update): string {
    match update
    case StreamBlockStart(index, FinalText(_), _) => Held(h.open, Given(index))
    case _ => ""
  }

  /** The text of the answer in the order in which it is streamed. */
  function Streamed(updates: seq<Update>): string {
    if updates == [] then ""
    else Streamed(updates[..|updates| - 1]) + Says(HearAll(updates[..|updates| - 1]), updates[|updates| - 1])
  }

  function Overwritten(updates: seq<Update>): string {
    if updates == [] then ""
    else Overwritten(updates[..|updates| - 1]) + Overwrites(HearAll(updates[..|updates| - 1]), updates[|updates| - 1])
  }

  /** How often a letter occurs. */
  function Tally(text: string, c: char): nat {
    multiset(text)[c]
  }

  lemma TallyConcat(x: string, y: string, c: char)
    ensures Tally(x + y, c) == Tally(x, c) + Tally(y, c) && Tally("", c) == 0
  {
  }

  function Letters(h: Heard, c: char): nat {
    Tally(h.completed, c) + Tally(Contents(h.open), c)
  }

  lemma ContentsCons<K>(first: (K, string), rest: Blocks<K>, c: char)
    ensures Tally(Contents([first] + rest), c) == Tally(first.1, c) + Tally(Contents(rest), c)
  {
    assert ([first] + rest)[1..] == rest;
    TallyConcat(first.1, Contents(rest), c);
  }

  lemma {:induction false} StartKeeps<K>(blocks: Blocks<K>, key: K, text: string, c: char)
    ensures Tally(Contents(Started(blocks, key, text)), c) + Tally(Held(blocks, key), c) ==
            Tally(Contents(blocks), c) + Tally(text, c)
  {
    hide Tally, Contents;
    TallyConcat("", "", c);
    NothingIn<K>();
    ContentsCons((key, text), [], c);
    assert [(key, text)] == [(key, text)] + [];
    if blocks != [] {
      assert blocks == [blocks[0]] + blocks[1..];
      ContentsCons(blocks[0], blocks[1..], c);
      ContentsCons((key, text), blocks[1..], c);
      ContentsCons(blocks[0], Started(blocks[1..], key, text), c);
      StartKeeps(blocks[1..], key, text, c);
    }
  }

  lemma NothingIn<K>()
    ensures Contents<K>([]) == ""
  {
  }

  lemma {:induction false} ExtendKeeps<K>(blocks: Blocks<K>, key: K, text: string, c: char)
    ensures Tally(Contents(Extended(blocks, key, text)), c) ==
            Tally(Contents(blocks), c) + if Count(blocks, key) > 0 then Tally(text, c) else 0
  {
    hide Tally, Contents;
    if blocks != [] {
      assert blocks == [blocks[0]] + blocks[1..];
      TallyConcat(blocks[0].1, text, c);
      ContentsCons(blocks[0], blocks[1..], c);
      ContentsCons((key, blocks[0].1 + text), blocks[1..], c);
      ContentsCons(blocks[0], Extended(blocks[1..], key, text), c);
      ExtendKeeps(blocks[1..], key, text, c);
    }
  }

  lemma {:induction false} RemoveKeeps<K>(blocks: Blocks<K>, key: K, c: char)
    ensures Tally(Contents(Removed(blocks, key).1), c) + Tally(Held(blocks, key), c) == Tally(Contents(blocks), c)
  {
    hide Tally, Contents;
    TallyConcat("", "", c);
    if blocks != [] {
      assert blocks == [blocks[0]] + blocks[1..];
      ContentsCons(blocks[0], blocks[1..], c);
      ContentsCons(blocks[0], Removed(blocks[1..], key).1, c);
      RemoveKeeps(blocks[1..], key, c);
    }
  }

  lemma CompleteKeeps(h: Heard, key: Key, c: char)
    ensures Letters(h.Complete(key), c) == Letters(h, c)
  {
    hide Tally, Contents, Removed;
    RemoveKeeps(h.open, key, c);
    TallyConcat(h.completed, Held(h.open, key), c);
  }

  lemma OtherHeld<K>(blocks: Blocks<K>, key: K, other: K)
    requires key != other
    ensures Held(Removed(blocks, key).1, other) == Held(blocks, other)
  {
  }

  lemma NotHeld<K>(blocks: Blocks<K>, key: K)
    ensures Count(blocks, key) == 0 ==> Held(blocks, key) == ""
  {
    Counts(blocks, key, "", key);
  }

  lemma LooseKeeps(h: Heard, delta: string, c: char)
    ensures Letters(h.Hear(StreamDelta(delta)), c) == Letters(h, c) + Tally(delta, c)
  {
    hide Tally, Contents, Started, Extended, Held, Count;
    TallyConcat("", "", c);
    Counts(h.open, Loose, "", Loose);
    NotHeld(h.open, Loose);
    StartKeeps(h.open, Loose, "", c);
    ExtendKeeps(h.open, Loose, delta, c);
    ExtendKeeps(Started(h.open, Loose, ""), Loose, delta, c);
  }

  lemma RestartKeeps(h: Heard, index: nat, content: string, c: char)
    ensures Letters(h.Complete(Loose).Start(Given(index), content), c) + Tally(Held(h.open, Given(index)), c) ==
            Letters(h, c) + Tally(content, c)
  {
    hide Tally, Contents, Started, Held, Count;
    CompleteKeeps(h, Loose, c);
    StartKeeps(h.Complete(Loose).open, Given(index), content, c);
    OtherHeld(h.open, Loose, Given(index));
    NotHeld(h.open, Loose);
  }

  lemma LettersStep(h: Heard, update: Update, c: char)
    ensures Letters(h.Hear(update), c) + Tally(Overwrites(h, update), c) == Letters(h, c) + Tally(Says(h, update), c)
  {
    hide Tally, Letters, Held, Count, Heard.Complete, Heard.Start;
    TallyConcat("", "", c);
    match update {
      case LineUpdate(_) => CompleteKeeps(h, Loose, c);
      case ToolApprovalUpdate(_) => CompleteKeeps(h, Loose, c);
      case StreamDelta(delta) => LooseKeeps(h, delta, c);
      case StreamBlockStart(index, block, _) =>
        CompleteKeeps(h, Loose, c);
        if block.FinalText? { RestartKeeps(h, index, block.content, c); }
      case StreamBlockDelta(index, delta, _) => ExtendedLetters(h, index, delta, c);
      case StreamBlockComplete(index) => CompleteKeeps(h, Given(index), c);
      case _ =>
    }
  }

  lemma ExtendedLetters(h: Heard, index: nat, delta: string, c: char)
    ensures Letters(h.Extend(Given(index), delta), c) ==
            Letters(h, c) + if Count(h.open, Given(index)) > 0 then Tally(delta, c) else 0
  {
    hide Tally, Contents, Extended, Count;
    ExtendKeeps(h.open, Given(index), delta, c);
  }

  lemma {:induction false} LettersOver(updates: seq<Update>, c: char)
    ensures Letters(HearAll(updates), c) + Tally(Overwritten(updates), c) == Tally(Streamed(updates), c)
    decreases |updates|
  {
    hide Heard.Hear, Overwrites, Says, Letters, Tally;
    TallyConcat("", "", c);
    if updates == [] {
      SilenceHoldsNothing(c);
    } else {
      var front, last := updates[..|updates| - 1], updates[|updates| - 1];
      LettersOver(front, c);
      LettersStep(HearAll(front), last, c);
      TallyConcat(Streamed(front), Says(HearAll(front), last), c);
      TallyConcat(Overwritten(front), Overwrites(HearAll(front), last), c);
    }
  }

  lemma SilenceHoldsNothing(c: char)
    ensures Letters(SILENCE, c) == 0
  {
  }

  lemma WholeLetters(h: Heard, c: char)
    ensures Tally(h.Whole(), c) == Letters(h, c)
  {
    hide Tally, Contents, Heard.Complete;
    CompleteKeeps(h, Loose, c);
    TallyConcat(h.Complete(Loose).completed, Contents(h.Complete(Loose).open), c);
  }

  /** Every letter streamed is heard to the end, as often, unless its block was started over. */
  lemma LettersKept(updates: seq<Update>)
    ensures multiset(HearAll(updates).Whole()) + multiset(Overwritten(updates)) == multiset(Streamed(updates))
  {
    hide Overwritten, Streamed, Heard.Whole, HearAll, Letters;
    var heard, lost, said := HearAll(updates).Whole(), Overwritten(updates), Streamed(updates);
    forall c ensures (multiset(heard) + multiset(lost))[c] == multiset(said)[c] {
      LettersOver(updates, c);
      WholeLetters(HearAll(updates), c);
      assert Tally(heard, c) + Tally(lost, c) == Tally(said, c);
    }
  }

  /** Text arrives only while no other text block is open. */
  predicate Apart(h: Heard, update: Update) {
    match update
    case StreamDelta(_) => Count(h.open, Loose) == |h.open|
    case StreamBlockStart(_, FinalText(_), _) => Count(h.open, Loose) == |h.open|
    case _ => true
  }

  predicate AllApart(updates: seq<Update>) {
    forall i :: 0 <= i < |updates| ==> Apart(HearAll(updates[..i]), updates[i])
  }

  ghost predicate InOrder(h: Heard, text: string) {
    |h.open| <= 1 && h.completed + Contents(h.open) == text
  }

  lemma OneBlock(h: Heard)
    requires |h.open| == 1
    ensures h.open == [(h.open[0].0, h.open[0].1)] && Contents(h.open) == h.open[0].1
    ensures forall key :: Count(h.open, key) == if h.open[0].0 == key then 1 else 0
    ensures forall key, text :: Extended(h.open, key, text) ==
                                if h.open[0].0 == key then [(key, h.open[0].1 + text)] else h.open
    ensures forall key :: Removed(h.open, key) == if h.open[0].0 == key then (Some(h.open[0].1), []) else (None, h.open)
  {
    var rest := h.open[1..];
    assert rest == [] && Contents(rest) == "";
    assert forall key :: Count(rest, key) == 0;
    assert forall key, text :: Extended(rest, key, text) == [];
    assert forall key :: Removed(rest, key) == (None, []);
  }

  lemma NoBlock()
    ensures Contents<Key>([]) == ""
    ensures forall key: Key :: Count([], key) == 0 && Removed([], key) == (None, [])
    ensures forall key: Key, text :: Started([], key, text) == [(key, text)] && Extended([], key, text) == []
  {
  }

  lemma OrderStep(h: Heard, text: string, update: Update)
    requires InOrder(h, text) && Apart(h, update)
    ensures InOrder(h.Hear(update), text + Says(h, update))
  {
    hide Contents, Started, Extended, Removed, Count;
    NoBlock();
    assert h.completed + "" == h.completed && text + "" == text;
    if |h.open| == 1 {
      OneBlock(h);
      var content := h.open[0].1;
      assert (h.completed + content) + "" == h.completed + content;
      assert forall more :: h.completed + (content + more) == (h.completed + content) + more;
    } else {
      assert h.open == [];
    }
    var after := h.Hear(update);
    if |after.open| == 1 { OneBlock(after); }
    if update.StreamDelta? && h.open == [] {
      OneBlock(h.Start(Loose, ""));
      assert "" + update.text == update.text;
    }
  }

  /** Where text blocks do not overlap, the text is heard as it is streamed. */
  lemma {:induction false} HeardInOrder(updates: seq<Update>)
    requires AllApart(updates)
    ensures HearAll(updates).Whole() == Streamed(updates)
  {
    hide InOrder, HearAll, Heard.Complete, Streamed;
    OrderKept(updates);
    OrderWhole(HearAll(updates), Streamed(updates));
  }

  lemma {:induction false} OrderKept(updates: seq<Update>)
    requires AllApart(updates)
    ensures InOrder(HearAll(updates), Streamed(updates))
    decreases |updates|
  {
    hide Heard.Hear, Says, Apart, InOrder;
    if updates == [] {
      SilenceInOrder();
    } else {
      var front, n := updates[..|updates| - 1], |updates| - 1;
      assert forall i :: 0 <= i < n ==> front[..i] == updates[..i] && front[i] == updates[i];
      OrderKept(front);
      assert Apart(HearAll(updates[..n]), updates[n]);
      OrderStep(HearAll(front), Streamed(front), updates[n]);
    }
  }

  lemma SilenceInOrder()
    ensures InOrder(SILENCE, "")
  {
  }

  lemma OrderWhole(h: Heard, text: string)
    requires InOrder(h, text)
    ensures h.Whole() == text
  {
    hide Contents, Removed;
    NoBlock();
    if |h.open| == 1 {
      OneBlock(h);
      assert (h.completed + h.open[0].1) + "" == h.completed + h.open[0].1;
    }
  }

  // ------------------------------------------------------------------------------------------
  // The commands of a turn.

  /** The evidence of each call that was answered since the turn began, in the order of the answers. */
  function Commands(updates: seq<Update>): seq<Evidence> {
    if updates == [] then []
    else
      var front, last := updates[..|updates| - 1], updates[|updates| - 1];
      if EndsTurn(last) then []
      else
        var call := if last.StreamBlockStart? && last.block.ToolResult? then OpenCall(front, last.block.toolCallId) else None;
        var evidence := if call.Some? then CommandEvidence(front[call.value].block.name, last.block.isError) else None;
        Commands(front) + if evidence.Some? then [evidence.value] else []
  }
}
