/** Which accepted notes go into the prompt when there is room for only some of them. */
module NoteInjection {
  import opened Text
  import opened Wrappers
  import opened NotesMarkdown

  function SourcePriority(source: Source): nat {
    match source
    case User => 0
    case Feedback => 1
    case Project => 2
    case Reference => 3
  }

  function AcceptedOf(candidates: seq<Candidate>): (r: seq<Candidate>)
    ensures forall i :: 0 <= i < |r| ==> r[i].status == Accepted
  {
    if candidates == [] then []
    else
      var rest := AcceptedOf(candidates[1..]);
      if candidates[0].status == Accepted then [candidates[0]] + rest else rest
  }

  /** Which source goes before which. */
  predicate Outranks(a: Source, b: Source) {
    match (a, b)
    case (User, Feedback) => true
    case (User, Project) => true
    case (User, Reference) => true
    case (Feedback, Project) => true
    case (Feedback, Reference) => true
    case (Project, Reference) => true
    case _ => false
  }

  lemma OutranksIff(a: Source, b: Source)
    ensures SourcePriority(a) < SourcePriority(b) <==> Outranks(a, b)
    ensures SourcePriority(a) == SourcePriority(b) <==> a == b
  {
  }

  /** Every accepted note takes part, where it stands. */
  lemma {:induction false} AcceptedTakesPart(before: seq<Candidate>, c: Candidate, after: seq<Candidate>)
    requires c.status == Accepted
    ensures AcceptedOf(before + [c] + after) == AcceptedOf(before) + [c] + AcceptedOf(after)
  {
    var all := before + [c] + after;
    if before == [] {
      assert all[0] == c && all[1..] == after;
    } else {
      assert all[0] == before[0] && all[1..] == before[1..] + [c] + after;
      AcceptedTakesPart(before[1..], c, after);
    }
  }

  /** The notes of one priority, in the order they are stored. */
  function OfPriority(notes: seq<Candidate>, priority: nat): seq<Candidate> {
    if notes == [] then []
    else
      var rest := OfPriority(notes[1..], priority);
      if SourcePriority(notes[0].source) == priority then [notes[0]] + rest else rest
  }

  predicate SortedByPriority(notes: seq<Candidate>) {
    forall i, j :: 0 <= i < j < |notes| ==> SourcePriority(notes[i].source) <= SourcePriority(notes[j].source)
  }

  /** The stable sort: one insertion after another, each behind the notes it does not outrank. */
  function StableSorted(notes: seq<Candidate>): (r: seq<Candidate>)
    ensures |r| == |notes|
  {
    if notes == [] then [] else InsertBehind(StableSorted(notes[..|notes| - 1]), notes[|notes| - 1])
  }

  function InsertBehind(sorted: seq<Candidate>, c: Candidate): (r: seq<Candidate>)
    ensures |r| == |sorted| + 1
  {
    if sorted == [] then [c]
    else
      var last := sorted[|sorted| - 1];
      if SourcePriority(last.source) <= SourcePriority(c.source) then sorted + [c]
      else InsertBehind(sorted[..|sorted| - 1], c) + [last]
  }

  lemma OfPrioritySnoc(notes: seq<Candidate>, c: Candidate, priority: nat)
    ensures OfPriority(notes + [c], priority) ==
            OfPriority(notes, priority) + if SourcePriority(c.source) == priority then [c] else []
  {
    hide SourcePriority;
    var more := notes + [c];
    if notes == [] {
      assert more == [c] && OfPriority(more[1..], priority) == [];
    } else {
      assert more[0] == notes[0] && more[1..] == notes[1..] + [c];
      OfPrioritySnoc(notes[1..], c, priority);
    }
  }

  lemma AppendKeepsSorted(sorted: seq<Candidate>, c: Candidate)
    requires SortedByPriority(sorted)
    requires forall i :: 0 <= i < |sorted| ==> SourcePriority(sorted[i].source) <= SourcePriority(c.source)
    ensures SortedByPriority(sorted + [c])
  {
  }

  lemma {:induction false} InsertBehindSorted(sorted: seq<Candidate>, c: Candidate, priority: nat)
    requires SortedByPriority(sorted)
    ensures SortedByPriority(InsertBehind(sorted, c))
    ensures forall i :: 0 <= i < |sorted| + 1 ==>
              InsertBehind(sorted, c)[i] == c || (sorted != [] &&
              SourcePriority(InsertBehind(sorted, c)[i].source) <= SourcePriority(sorted[|sorted| - 1].source))
    ensures OfPriority(InsertBehind(sorted, c), priority) == OfPriority(sorted + [c], priority)
  {
    hide SourcePriority, OfPriority, Outranks;
    if sorted != [] {
      var front, last := sorted[..|sorted| - 1], sorted[|sorted| - 1];
      assert sorted == front + [last];
      if SourcePriority(last.source) <= SourcePriority(c.source) {
        AppendKeepsSorted(sorted, c);
      } else {
        InsertBehindSorted(front, c, priority);
        AppendKeepsSorted(InsertBehind(front, c), last);
        OfPrioritySnoc(InsertBehind(front, c), last, priority);
        OfPrioritySnoc(front, c, priority);
        OfPrioritySnoc(front, last, priority);
        OfPrioritySnoc(sorted, c, priority);
      }
    } else {
      assert sorted + [c] == [c];
    }
  }

  /** The sort orders by priority and leaves the notes of each priority as they were: nothing is lost,
      nothing added, no two of one source change places. */
  lemma {:induction false} StableSortedIsStable(notes: seq<Candidate>, priority: nat)
    ensures SortedByPriority(StableSorted(notes))
    ensures OfPriority(StableSorted(notes), priority) == OfPriority(notes, priority)
  {
    hide SourcePriority, OfPriority, InsertBehind;
    if notes != [] {
      var front, last := notes[..|notes| - 1], notes[|notes| - 1];
      assert notes == front + [last];
      StableSortedIsStable(front, priority);
      InsertBehindSorted(StableSorted(front), last, priority);
      OfPrioritySnoc(StableSorted(front), last, priority);
      OfPrioritySnoc(front, last, priority);
    }
  }

  // ------------------------------------------------------------------------------------------
  // The budget.

  function TokenSum(notes: seq<Candidate>, tokens: string -> nat): nat {
    if notes == [] then 0 else TokenSum(notes[..|notes| - 1], tokens) + tokens(notes[|notes| - 1].body)
  }

  lemma {:induction false} PrefixCostsLess(notes: seq<Candidate>, tokens: string -> nat, n: nat)
    requires n <= |notes|
    ensures TokenSum(notes[..n], tokens) <= TokenSum(notes, tokens)
  {
    if n == |notes| {
      assert notes[..n] == notes;
    } else {
      var front := notes[..|notes| - 1];
      PrefixCostsLess(front, tokens, n);
      assert front[..n] == notes[..n];
    }
  }

  /** `n` is the length of the longest prefix within the budget. */
  ghost predicate LongestFit(notes: seq<Candidate>, tokens: string -> nat, budget: nat, n: nat) {
    && n <= |notes|
    && TokenSum(notes[..n], tokens) <= budget
    && forall m :: n < m <= |notes| ==> TokenSum(notes[..m], tokens) > budget
  }

  /** A prefix is affordable exactly when it is no longer than the longest one. */
  lemma AffordableIff(notes: seq<Candidate>, tokens: string -> nat, budget: nat, n: nat, m: nat)
    requires LongestFit(notes, tokens, budget, n) && m <= |notes|
    ensures TokenSum(notes[..m], tokens) <= budget <==> m <= n
  {
    if m <= n {
      PrefixCostsLess(notes[..n], tokens, m);
      assert notes[..n][..m] == notes[..m];
    }
  }

  datatype Warning = NothingFits(dropped: nat, budget: nat) | SomeDropped(dropped: nat, budget: nat)

  function Joined(notes: seq<Candidate>): string {
    if notes == [] then ""
    else if |notes| == 1 then notes[0].body
    else notes[0].body + "\n" + Joined(notes[1..])
  }

  /** The lines of a text, the last one included. */
  function SplitLines(s: string): seq<string>
    decreases |s|
  {
    var split := SplitOnce(s, "\n");
    if split.None? then [s] else [split.value.0] + SplitLines(split.value.1)
  }

  function Bodies(notes: seq<Candidate>): seq<string> {
    seq(|notes|, i requires 0 <= i < |notes| => notes[i].body)
  }

  /** The injected text holds the body of each note on a line of its own, in order. */
  lemma {:induction false} JoinedSplits(notes: seq<Candidate>)
    requires notes != [] && forall i :: 0 <= i < |notes| ==> Lacks(notes[i].body, '\n')
    ensures SplitLines(Joined(notes)) == Bodies(notes)
  {
    hide SplitOnce;
    var first, rest := notes[0].body, notes[1..];
    if rest == [] {
      NoSplit(first);
      assert Bodies(notes) == [first];
    } else {
      JoinedSplits(rest);
      SplitOnceAfter(first, "\n", Joined(rest));
      assert Joined(notes) == first + "\n" + Joined(rest);
      assert Bodies(notes) == [first] + Bodies(rest);
    }
  }

  lemma NoSplit(s: string)
    requires Lacks(s, '\n')
    ensures SplitOnce(s, "\n").None?
  {
    Found(s);
  }

  lemma Found(s: string)
    ensures FirstIndex(s, "\n").Some? ==> !Lacks(s, '\n')
  {
    var at := FirstIndex(s, "\n");
    if at.Some? {
      assert s[at.value] == s[at.value..at.value + 1][0];
    }
  }

  /** The list of selected notes with the running total, popped from the end while it is over budget. */
  method KeepWithinBudget(sorted: seq<Candidate>, tokens: string -> nat, budget: nat)
    returns (selected: seq<Candidate>, dropped: nat)
    ensures |selected| + dropped == |sorted| && selected == sorted[..|selected|]
    ensures LongestFit(sorted, tokens, budget, |selected|)
  {
    hide TokenSum;
    var weighted := seq(|sorted|, i requires 0 <= i < |sorted| => (sorted[i], tokens(sorted[i].body)));
    var total := SumWeights(sorted, tokens, weighted);
    dropped := 0;
    ghost var n := |sorted|;
    assert sorted[..n] == sorted && weighted[..n] == weighted;
    while total > budget
      invariant n + dropped == |sorted| && |weighted| == n
      invariant forall i :: 0 <= i < n ==> weighted[i] == (sorted[i], tokens(sorted[i].body))
      invariant total == TokenSum(sorted[..n], tokens)
      invariant forall m :: n < m <= |sorted| ==> TokenSum(sorted[..m], tokens) > budget
      decreases n
    {
      if weighted == [] {
        NothingCostsNothing(tokens);
        break;
      }
      SumOfLast(sorted, tokens, n);
      var cost := weighted[|weighted| - 1].1;
      weighted := weighted[..|weighted| - 1];
      total := if total < cost then 0 else total - cost;
      dropped := dropped + 1;
      n := n - 1;
    }
    selected := seq(|weighted|, i requires 0 <= i < |weighted| => weighted[i].0);
    assert selected == sorted[..n];
  }

  lemma NothingCostsNothing(tokens: string -> nat)
    ensures TokenSum([], tokens) == 0
  {
  }

  lemma SumOfLast(notes: seq<Candidate>, tokens: string -> nat, n: nat)
    requires 0 < n <= |notes|
    ensures TokenSum(notes[..n], tokens) == TokenSum(notes[..n - 1], tokens) + tokens(notes[n - 1].body)
  {
    assert notes[..n][..n - 1] == notes[..n - 1];
  }

  method SumWeights(sorted: seq<Candidate>, tokens: string -> nat, weighted: seq<(Candidate, nat)>) returns (total: nat)
    requires |weighted| == |sorted|
    requires forall i :: 0 <= i < |sorted| ==> weighted[i] == (sorted[i], tokens(sorted[i].body))
    ensures total == TokenSum(sorted, tokens)
  {
    hide TokenSum;
    total := 0;
    NothingCostsNothing(tokens);
    for i := 0 to |weighted|
      invariant total == TokenSum(sorted[..i], tokens)
    {
      SumOfLast(sorted, tokens, i + 1);
      total := total + weighted[i].1;
    }
    assert sorted[..|sorted|] == sorted;
  }

  /** The first `n` notes are injected, as many as the budget allows, and the warning counts the others. */
  ghost predicate Injected(
      sorted: seq<Candidate>, tokens: string -> nat, budget: nat, n: nat, content: Option<string>, warning: Option<Warning>)
  {
    && LongestFit(sorted, tokens, budget, n)
    && (content.Some? <==> n > 0) && (content.Some? ==> content.value == Joined(sorted[..n]))
    && (warning.Some? <==> n < |sorted|)
    && (warning.Some? ==> warning.value.dropped == |sorted| - n && warning.value.budget == budget &&
                          (warning.value.NothingFits? <==> n == 0))
  }

  /** What is injected is the longest affordable prefix of the accepted notes in stable priority order. */
  method InjectAccepted(candidates: seq<Candidate>, tokens: string -> nat, budget: nat)
    returns (content: Option<string>, warning: Option<Warning>)
    ensures exists n :: Injected(StableSorted(AcceptedOf(candidates)), tokens, budget, n, content, warning)
  {
    hide StableSorted, AcceptedOf, Joined, TokenSum;
    var sorted := StableSorted(AcceptedOf(candidates));
    var selected, dropped := KeepWithinBudget(sorted, tokens, budget);
    if selected == [] {
      content, warning := None, if dropped > 0 then Some(NothingFits(dropped, budget)) else None;
    } else {
      content := Some(Joined(selected));
      warning := if dropped > 0 then Some(SomeDropped(dropped, budget)) else None;
    }
    assert Injected(sorted, tokens, budget, |selected|, content, warning);
  }

  /** Every note is kept if all fit; otherwise no dropped note outranks a kept one, and the first dropped
      note is one the budget had no room for. */
  lemma KeptOutrankDropped(candidates: seq<Candidate>, tokens: string -> nat, budget: nat, n: nat, kept: nat, dropped: nat)
    requires LongestFit(StableSorted(AcceptedOf(candidates)), tokens, budget, n)
    requires kept < n <= dropped < |StableSorted(AcceptedOf(candidates))|
    ensures var sorted := StableSorted(AcceptedOf(candidates));
            && !Outranks(sorted[dropped].source, sorted[kept].source)
            && TokenSum(sorted[..n], tokens) + tokens(sorted[n].body) > budget
  {
    hide SourcePriority, AcceptedOf, StableSorted, TokenSum;
    StableSortedIsStable(AcceptedOf(candidates), 0);
    OutranksIff(StableSorted(AcceptedOf(candidates))[dropped].source, StableSorted(AcceptedOf(candidates))[kept].source);
    SumOfLast(StableSorted(AcceptedOf(candidates)), tokens, n + 1);
  }

  lemma AllKeptIff(candidates: seq<Candidate>, tokens: string -> nat, budget: nat, n: nat)
    requires LongestFit(StableSorted(AcceptedOf(candidates)), tokens, budget, n)
    ensures n == |StableSorted(AcceptedOf(candidates))| <==>
            TokenSum(StableSorted(AcceptedOf(candidates)), tokens) <= budget
  {
    hide AcceptedOf, StableSorted, TokenSum;
    var sorted := StableSorted(AcceptedOf(candidates));
    assert sorted[..|sorted|] == sorted;
  }

  /** Pending notes make no difference, wherever they stand. */
  lemma {:induction false} PendingNeverInjected(before: seq<Candidate>, c: Candidate, after: seq<Candidate>)
    requires c.status == Pending
    ensures AcceptedOf(before + [c] + after) == AcceptedOf(before + after)
  {
    var all, without := before + [c] + after, before + after;
    if before == [] {
      assert all[1..] == after == without;
    } else {
      assert all[1..] == before[1..] + [c] + after && without[1..] == before[1..] + after;
      PendingNeverInjected(before[1..], c, after);
    }
  }

  /** A bigger budget never keeps less. */
  lemma BudgetMonotone(notes: seq<Candidate>, tokens: string -> nat, small: nat, big: nat, m: nat, n: nat)
    requires small <= big && LongestFit(notes, tokens, small, m) && LongestFit(notes, tokens, big, n)
    ensures m <= n
  {
    hide TokenSum;
    AffordableIff(notes, tokens, big, n, m);
  }
}
