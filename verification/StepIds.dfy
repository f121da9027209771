/** Renumbering of tool invocations whose step ids are missing or repeated, over all pulses of a task. */
module StepIds {

  const MAX_STEP_ID: nat := 0xFFFF_FFFF_FFFF_FFFF

  type StepId = n: nat | n <= MAX_STEP_ID

  datatype Invocation = Invocation(stepId: StepId, name: string, outcome: string)

  datatype Pulse = Pulse(input: string, response: string, invocations: seq<Invocation>)

  function SaturatingSucc(n: StepId): StepId {
    if n == MAX_STEP_ID then n else n + 1
  }

  function Max(a: StepId, b: StepId): StepId {
    if a < b then b else a
  }

  /** The ids taken so far and the next candidate. */
  datatype State = State(seen: set<StepId>, next: StepId)

  const START := State({}, 1)

  /** The first id from `next` upwards that is not taken; none, and the search goes on for ever. */
  function FreeFrom(seen: set<StepId>, next: StepId): (r: (bool, StepId))
    ensures r.0 ==> r.1 !in seen && next <= r.1
    decreases MAX_STEP_ID - next
  {
    if next !in seen then (true, next)
    else if next == MAX_STEP_ID then (false, next)
    else FreeFrom(seen, next + 1)
  }

  /** Where the search stands after `rounds` rounds, the counter saturating at the end. */
  function Probe(next: StepId, rounds: nat): StepId {
    if rounds == 0 then next else SaturatingSucc(Probe(next, rounds - 1))
  }

  lemma ProbeIs(next: StepId, rounds: nat)
    ensures Probe(next, rounds) == if next + rounds < MAX_STEP_ID then next + rounds else MAX_STEP_ID
  {
  }

  predicate FreeAfter(seen: set<StepId>, next: StepId, rounds: nat) {
    Probe(next, rounds) !in seen
  }

  lemma FreeAfterShift(seen: set<StepId>, next: StepId, rounds: nat)
    requires next < MAX_STEP_ID
    ensures FreeAfter(seen, next, rounds + 1) == FreeAfter(seen, next + 1, rounds)
  {
    ProbeIs(next, rounds + 1);
    ProbeIs(next + 1, rounds);
  }

  /** `FreeFrom` gives up exactly when no number of rounds ends the search. */
  lemma {:induction false} SearchEndsIff(seen: set<StepId>, next: StepId)
    ensures FreeFrom(seen, next).0 <==> exists rounds: nat :: FreeAfter(seen, next, rounds)
    decreases MAX_STEP_ID - next
  {
    hide Probe;
    if next !in seen {
      ProbeIs(next, 0);
      assert FreeAfter(seen, next, 0);
    } else if next == MAX_STEP_ID {
      forall rounds: nat ensures !FreeAfter(seen, next, rounds) {
        ProbeIs(next, rounds);
      }
    } else {
      var succ: StepId := next + 1;
      SearchEndsIff(seen, succ);
      ProbeIs(next, 0);
      if rounds: nat :| FreeAfter(seen, next, rounds) {
        FreeAfterShift(seen, next, rounds - 1);
        assert FreeAfter(seen, succ, rounds - 1);
      }
      if rounds: nat :| FreeAfter(seen, succ, rounds) {
        FreeAfterShift(seen, next, rounds);
        assert FreeAfter(seen, next, rounds + 1);
      }
    }
  }

  predicate NeedsId(st: State, id: StepId) {
    id == 0 || id in st.seen
  }

  function Taking(st: State, id: StepId): State {
    State(st.seen + {id}, Max(st.next, SaturatingSucc(id)))
  }

  datatype Outcome = Diverges | Done(ids: seq<StepId>, state: State)

  /** The ids of all invocations in order, renumbered. */
  function Renumber(st: State, ids: seq<StepId>): (r: Outcome)
    ensures r.Done? ==> |r.ids| == |ids|
    decreases |ids|
  {
    if ids == [] then Done([], st)
    else
      var (free, id) := if NeedsId(st, ids[0]) then FreeFrom(st.seen, st.next) else (true, ids[0]);
      if !free then Diverges
      else
        match Renumber(Taking(st, id), ids[1..])
        case Diverges => Diverges
        case Done(rest, end) => Done([id] + rest, end)
  }

  lemma {:induction false} RenumberConcat(st: State, a: seq<StepId>, b: seq<StepId>)
    ensures Renumber(st, a + b) ==
            match Renumber(st, a)
            case Diverges => Diverges
            case Done(first, middle) =>
              match Renumber(middle, b)
              case Diverges => Diverges
              case Done(second, end) => Done(first + second, end)
    decreases |a|
  {
    hide FreeFrom, Taking, NeedsId;
    if a == [] {
      assert a + b == b;
      assert forall second: seq<StepId> :: [] + second == second;
    } else {
      var (free, id) := if NeedsId(st, a[0]) then FreeFrom(st.seen, st.next) else (true, a[0]);
      assert (a + b)[0] == a[0] && (a + b)[1..] == a[1..] + b;
      if free {
        var next := Taking(st, id);
        RenumberConcat(next, a[1..], b);
        var first := Renumber(next, a[1..]);
        if first.Done? && Renumber(first.state, b).Done? {
          var second := Renumber(first.state, b).ids;
          assert [id] + (first.ids + second) == ([id] + first.ids) + second;
        }
      }
    }
  }

  // ------------------------------------------------------------------------------------------
  // What the renumbering achieves.

  /** The candidate stays above every id taken, until it reaches the end of the range. */
  ghost predicate Ahead(st: State) {
    st.next > 0 && forall id :: id in st.seen ==> 0 < id && (id < st.next || st.next == MAX_STEP_ID)
  }

  lemma AheadStep(st: State, id: StepId)
    requires Ahead(st) && id > 0
    ensures Ahead(Taking(st, id))
  {
  }

  /** While the candidate is ahead, the search ends at once, or never. */
  lemma FreeWhenAhead(st: State)
    requires Ahead(st)
    ensures FreeFrom(st.seen, st.next) == (MAX_STEP_ID !in st.seen, st.next)
  {
  }

  predicate Valid(ids: seq<StepId>) {
    (forall i :: 0 <= i < |ids| ==> ids[i] != 0) && (forall i, j :: 0 <= i < j < |ids| ==> ids[i] != ids[j])
  }

  predicate Untaken(ids: seq<StepId>, seen: set<StepId>) {
    forall i :: 0 <= i < |ids| ==> ids[i] !in seen
  }

  /** All resulting ids are nonzero, pairwise different and different from those taken before. */
  lemma {:induction false} RenumberedIsValid(st: State, ids: seq<StepId>)
    requires Ahead(st) && Renumber(st, ids).Done?
    ensures Valid(Renumber(st, ids).ids) && Untaken(Renumber(st, ids).ids, st.seen)
    ensures Ahead(Renumber(st, ids).state)
    ensures Renumber(st, ids).state.seen == st.seen + (set i | 0 <= i < |ids| :: Renumber(st, ids).ids[i])
    decreases |ids|
  {
    hide FreeFrom, Ahead;
    if ids != [] {
      FreeWhenAhead(st);
      var id := if NeedsId(st, ids[0]) then st.next else ids[0];
      NextIsPositive(st);
      AheadStep(st, id);
      RenumberedIsValid(Taking(st, id), ids[1..]);
      var rest := Renumber(Taking(st, id), ids[1..]).ids;
      SetCons(id, rest);
      assert Renumber(st, ids).ids == [id] + rest;
    }
  }

  lemma NextIsPositive(st: State)
    requires Ahead(st)
    ensures st.next > 0
  {
  }

  lemma SetCons(id: StepId, rest: seq<StepId>)
    ensures var all := [id] + rest;
            (set i | 0 <= i < |all| :: all[i]) == {id} + (set i | 0 <= i < |rest| :: rest[i])
  {
    var all := [id] + rest;
    assert all[0] == id;
    assert forall i :: 0 <= i < |rest| ==> all[i + 1] == rest[i];
  }

  /** An id that is neither zero nor taken is kept; any other becomes larger than every id before it. */
  lemma {:induction false} KeptOrLargest(st: State, ids: seq<StepId>, i: nat)
    requires Ahead(st) && Renumber(st, ids).Done? && i < |ids|
    ensures var r := Renumber(st, ids).ids;
            var taken := st.seen + set j | 0 <= j < i :: r[j];
            if ids[i] == 0 || ids[i] in taken then forall id :: id in taken ==> id < r[i]
            else r[i] == ids[i]
  {
    assert ids == ids[..i] + ids[i..];
    RenumberConcat(st, ids[..i], ids[i..]);
    var first := Renumber(st, ids[..i]);
    RenumberedIsValid(st, ids[..i]);
    FreeWhenAhead(first.state);
    var r := Renumber(st, ids).ids;
    assert forall j :: 0 <= j < i ==> r[j] == first.ids[j];
    assert r[i] == Renumber(first.state, ids[i..]).ids[0];
  }

  /** A history is left alone exactly when it was valid already. */
  lemma UnchangedIff(ids: seq<StepId>)
    ensures Renumber(START, ids).Done? && Renumber(START, ids).ids == ids <==> Valid(ids)
  {
    if Valid(ids) {
      ValidUnchanged(START, ids);
    } else if Renumber(START, ids).Done? {
      RenumberedIsValid(START, ids);
    }
  }

  lemma {:induction false} ValidUnchanged(st: State, ids: seq<StepId>)
    requires Valid(ids) && Untaken(ids, st.seen)
    ensures Renumber(st, ids).Done? && Renumber(st, ids).ids == ids
    decreases |ids|
  {
    if ids != [] {
      assert Untaken(ids[1..], st.seen + {ids[0]}) && Valid(ids[1..]);
      ValidUnchanged(Taking(st, ids[0]), ids[1..]);
    }
  }

  lemma Idempotent(ids: seq<StepId>)
    requires Renumber(START, ids).Done?
    ensures Renumber(START, Renumber(START, ids).ids).Done?
    ensures Renumber(START, Renumber(START, ids).ids).ids == Renumber(START, ids).ids
  {
    hide Renumber;
    RenumberedIsValid(START, ids);
    UnchangedIff(Renumber(START, ids).ids);
  }

  // ------------------------------------------------------------------------------------------
  // When it ends.

  /** Position `i` needs a new id when the largest one is already taken. */
  ghost predicate Exhausted(ids: seq<StepId>, i: nat)
    requires i < |ids|
  {
    && Renumber(START, ids[..i]).Done?
    && MAX_STEP_ID in Renumber(START, ids[..i]).state.seen
    && NeedsId(Renumber(START, ids[..i]).state, ids[i])
  }

  /** The renumbering runs for ever exactly when some invocation needs an id after the largest possible
      one has been taken. */
  lemma {:induction false} DivergesIff(ids: seq<StepId>)
    ensures Renumber(START, ids) == Diverges <==> exists i: nat :: i < |ids| && Exhausted(ids, i)
    decreases |ids|
  {
    hide FreeFrom, Ahead, Taking;
    if ids != [] {
      var front, last := ids[..|ids| - 1], ids[|ids| - 1];
      assert ids == front + [last];
      assert forall i: nat :: i < |front| ==> front[..i] == ids[..i];
      RenumberConcat(START, front, [last]);
      DivergesIff(front);
      if Renumber(START, front).Done? {
        AheadAtStart();
        RenumberedIsValid(START, front);
        FreeWhenAhead(Renumber(START, front).state);
        assert Renumber(START, ids) == Diverges <==> Exhausted(ids, |front|);
        assert forall i: nat :: i < |front| ==> !Exhausted(front, i) && (Exhausted(ids, i) <==> Exhausted(front, i));
      } else {
        var i: nat :| i < |front| && Exhausted(front, i);
        assert Exhausted(ids, i);
      }
    }
  }

  lemma AheadAtStart()
    ensures Ahead(START)
  {
  }

  lemma {:induction false} EnoughRoomFrom(st: State, ids: seq<StepId>, top: nat)
    requires Ahead(st) && st.next <= top + 1 && top + |ids| < MAX_STEP_ID
    requires forall i :: 0 <= i < |ids| ==> ids[i] <= top
    ensures Renumber(st, ids).Done?
    decreases |ids|
  {
    if ids != [] {
      FreeWhenAhead(st);
      var id := if NeedsId(st, ids[0]) then st.next else ids[0];
      AheadStep(st, id);
      EnoughRoomFrom(Taking(st, id), ids[1..], top + 1);
    }
  }

  /** With the largest id and the number of invocations together below the end of the range it ends. */
  lemma {:induction false} EnoughRoom(ids: seq<StepId>, top: nat)
    requires forall i :: 0 <= i < |ids| ==> ids[i] <= top
    requires top + |ids| < MAX_STEP_ID
    ensures Renumber(START, ids).Done?
  {
    EnoughRoomFrom(START, ids, top);
  }

  /** How many ids are missing, or repeat one of the ids before them. */
  function Lacking(earlier: set<StepId>, ids: seq<StepId>): nat
    decreases |ids|
  {
    if ids == [] then 0
    else (if ids[0] == 0 || ids[0] in earlier then 1 else 0) + Lacking(earlier + {ids[0]}, ids[1..])
  }

  ghost predicate Holds(st: State, earlier: set<StepId>) {
    forall id :: id in earlier && id != 0 ==> id in st.seen
  }

  lemma HoldsStep(st: State, earlier: set<StepId>, given: StepId, id: StepId)
    requires Holds(st, earlier) && (id == 0 || id in st.seen || id == given)
    ensures Holds(Taking(st, given), earlier + {id})
  {
  }

  lemma {:induction false} DivergesFrom(st: State, earlier: set<StepId>, ids: seq<StepId>, top: StepId)
    requires Ahead(st) && Holds(st, earlier) && top in st.seen && top + Lacking(earlier, ids) > MAX_STEP_ID
    ensures Renumber(st, ids) == Diverges
    decreases |ids|
  {
    hide FreeFrom;
    FreeWhenAhead(st);
    var id := ids[0];
    if NeedsId(st, id) {
      if MAX_STEP_ID !in st.seen {
        AheadStep(st, st.next);
        HoldsStep(st, earlier, st.next, id);
        DivergesFrom(Taking(st, st.next), earlier + {id}, ids[1..], st.next);
      }
    } else {
      AheadStep(st, id);
      HoldsStep(st, earlier, id, id);
      DivergesFrom(Taking(st, id), earlier + {id}, ids[1..], top);
    }
  }

  function SetOf(ids: seq<StepId>): set<StepId> {
    set i | 0 <= i < |ids| :: ids[i]
  }

  lemma {:induction false} HoldsAll(ids: seq<StepId>)
    requires Renumber(START, ids).Done?
    ensures Holds(Renumber(START, ids).state, SetOf(ids))
    decreases |ids|
  {
    hide FreeFrom, Holds, Taking;
    if ids == [] {
      HoldsNothing();
    } else {
      var front, last := ids[..|ids| - 1], ids[|ids| - 1];
      assert ids == front + [last];
      RenumberConcat(START, front, [last]);
      HoldsAll(front);
      var st := Renumber(START, front).state;
      var given := if NeedsId(st, last) then FreeFrom(st.seen, st.next).1 else last;
      HoldsStep(st, SetOf(front), given, last);
      assert SetOf(ids) == SetOf(front) + {last};
    }
  }

  lemma HoldsNothing()
    ensures Holds(START, SetOf([]))
  {
  }

  /** With more ids lacking after some id than there are above it, it does not end. */
  lemma {:induction false} NoRoom(ids: seq<StepId>, p: nat)
    requires p < |ids| && ids[p] != 0
    requires ids[p] + Lacking(SetOf(ids[..p + 1]), ids[p + 1..]) > MAX_STEP_ID
    ensures Renumber(START, ids) == Diverges
  {
    hide FreeFrom, Holds, Ahead;
    var upTo, rest := ids[..p + 1], ids[p + 1..];
    assert ids == upTo + rest && upTo[p] == ids[p];
    RenumberConcat(START, upTo, rest);
    if Renumber(START, upTo).Done? {
      AheadAtStart();
      RenumberedIsValid(START, upTo);
      HoldsAll(upTo);
      var st := Renumber(START, upTo).state;
      TakenIn(st, SetOf(upTo), ids[p]);
      DivergesFrom(st, SetOf(upTo), rest, ids[p]);
    }
  }

  lemma TakenIn(st: State, earlier: set<StepId>, id: StepId)
    requires Holds(st, earlier) && id in earlier && id != 0
    ensures id in st.seen
  {
  }

  /** A task file that already holds the largest id and then an invocation without one is never loaded. */
  lemma LargestThenMissing()
    ensures Renumber(START, [MAX_STEP_ID, 0]) == Diverges
  {
    var st := Taking(START, MAX_STEP_ID);
    assert [MAX_STEP_ID, 0][1..] == [0];
    assert st == State({MAX_STEP_ID}, MAX_STEP_ID);
    assert FreeFrom(st.seen, st.next) == (false, MAX_STEP_ID);
  }

  // ------------------------------------------------------------------------------------------
  // The nested loops over the pulses, in place.

  function Ids(invocations: seq<Invocation>): (r: seq<StepId>)
    ensures |r| == |invocations|
    ensures forall i :: 0 <= i < |r| ==> r[i] == invocations[i].stepId
  {
    seq(|invocations|, i requires 0 <= i < |invocations| => invocations[i].stepId)
  }

  function AllIds(pulses: seq<Pulse>): seq<StepId> {
    if pulses == [] then [] else AllIds(pulses[..|pulses| - 1]) + Ids(pulses[|pulses| - 1].invocations)
  }

  predicate SameInvocation(a: Invocation, b: Invocation) {
    a.name == b.name && a.outcome == b.outcome
  }

  /** Everything but the step ids. */
  predicate SamePulse(a: Pulse, b: Pulse) {
    && a.input == b.input && a.response == b.response && |a.invocations| == |b.invocations|
    && forall i :: 0 <= i < |a.invocations| ==> SameInvocation(a.invocations[i], b.invocations[i])
  }

  /** One round of the inner loop. */
  method AssignId(seen: set<StepId>, next: StepId, id: StepId)
    returns (seen': set<StepId>, next': StepId, id': StepId)
    requires NeedsId(State(seen, next), id) ==> FreeFrom(seen, next).0
    ensures id' == if NeedsId(State(seen, next), id) then FreeFrom(seen, next).1 else id
    ensures State(seen', next') == Taking(State(seen, next), id')
  {
    seen', next', id' := seen, next, id;
    if id == 0 || id in seen {
      while next' in seen'
        invariant FreeFrom(seen, next') == FreeFrom(seen, next) && seen' == seen && next <= next'
        decreases MAX_STEP_ID - next'
      {
        next' := SaturatingSucc(next');
      }
      seen' := seen' + {next'};
      id' := next';
    } else {
      seen' := seen' + {id};
    }
    next' := Max(next', SaturatingSucc(id'));
  }

  lemma {:induction false} RenumberSnoc(st: State, ids: seq<StepId>, id: StepId)
    requires Renumber(st, ids + [id]).Done?
    ensures Renumber(st, ids).Done?
    ensures var before := Renumber(st, ids);
            var needs := NeedsId(before.state, id);
            var given := if needs then FreeFrom(before.state.seen, before.state.next).1 else id;
            && (needs ==> FreeFrom(before.state.seen, before.state.next).0)
            && Renumber(st, ids + [id]) == Done(before.ids + [given], Taking(before.state, given))
  {
    hide FreeFrom, Taking, NeedsId;
    RenumberConcat(st, ids, [id]);
    assert [id][1..] == [];
  }

  lemma RenumberPrefix(st: State, a: seq<StepId>, b: seq<StepId>)
    requires Renumber(st, a + b).Done?
    ensures Renumber(st, a).Done? && Renumber(Renumber(st, a).state, b).Done?
    ensures Renumber(st, a + b) ==
            Done(Renumber(st, a).ids + Renumber(Renumber(st, a).state, b).ids, Renumber(Renumber(st, a).state, b).state)
  {
    hide Renumber;
    RenumberConcat(st, a, b);
  }

  /** The inner loop: one pulse. */
  method RenumberPulse(invocations: seq<Invocation>, seen: set<StepId>, next: StepId)
    returns (renumbered: seq<Invocation>, seen': set<StepId>, next': StepId)
    requires Renumber(State(seen, next), Ids(invocations)).Done?
    ensures |renumbered| == |invocations|
    ensures forall i :: 0 <= i < |invocations| ==> SameInvocation(renumbered[i], invocations[i])
    ensures Renumber(State(seen, next), Ids(invocations)) == Done(Ids(renumbered), State(seen', next'))
  {
    hide Renumber, FreeFrom, Taking;
    ghost var ids := Ids(invocations);
    renumbered, seen', next' := invocations, seen, next;
    NothingToRenumber(State(seen, next));
    for i := 0 to |invocations|
      invariant |renumbered| == |invocations| && renumbered[i..] == invocations[i..]
      invariant forall j :: 0 <= j < i ==> SameInvocation(renumbered[j], invocations[j])
      invariant Renumber(State(seen, next), ids[..i]) == Done(Ids(renumbered[..i]), State(seen', next'))
    {
      assert ids == ids[..i + 1] + ids[i + 1..];
      RenumberPrefix(State(seen, next), ids[..i + 1], ids[i + 1..]);
      assert ids[..i + 1] == ids[..i] + [ids[i]];
      RenumberSnoc(State(seen, next), ids[..i], ids[i]);
      assert renumbered[i] == renumbered[i..][0] == invocations[i];
      var given;
      ghost var before := Ids(renumbered[..i]);
      seen', next', given := AssignId(seen', next', renumbered[i].stepId);
      renumbered := renumbered[i := renumbered[i].(stepId := given)];
      assert Ids(renumbered[..i + 1]) == before + [given];
    }
    assert ids[..|ids|] == ids && renumbered[..|renumbered|] == renumbered;
  }

  lemma NothingToRenumber(st: State)
    ensures Renumber(st, []) == Done([], st)
  {
  }

  lemma AllIdsPrefix(pulses: seq<Pulse>, i: nat)
    requires i < |pulses|
    ensures AllIds(pulses[..i + 1]) == AllIds(pulses[..i]) + Ids(pulses[i].invocations)
  {
    assert pulses[..i + 1][..i] == pulses[..i];
  }

  lemma {:induction false} AllIdsSplit(pulses: seq<Pulse>, i: nat)
    requires i <= |pulses|
    ensures AllIds(pulses[..i]) <= AllIds(pulses)
  {
    if i == |pulses| {
      assert pulses[..i] == pulses;
    } else {
      AllIdsSplit(pulses[..|pulses| - 1], i);
      assert pulses[..|pulses| - 1][..i] == pulses[..i];
    }
  }

  method NormalizeToolInvocationStepIds(pulses: array<Pulse>)
    requires Renumber(START, AllIds(pulses[..])).Done?
    modifies pulses
    ensures var outcome := old(Renumber(START, AllIds(pulses[..])));
            outcome.Done? && AllIds(pulses[..]) == outcome.ids
    ensures forall p :: 0 <= p < pulses.Length ==> SamePulse(pulses[p], old(pulses[p]))
  {
    hide Renumber, SameInvocation, AllIds;
    ghost var was := pulses[..];
    ghost var ids := AllIds(was);
    var next: StepId := 1;
    var seen: set<StepId> := {};
    NothingToRenumber(START);
    NoIds();
    for p := 0 to pulses.Length
      invariant pulses[p..] == was[p..]
      invariant forall q :: 0 <= q < p ==> SamePulse(pulses[q], was[q])
      invariant Renumber(START, AllIds(was[..p])) == Done(AllIds(pulses[..p]), State(seen, next))
    {
      AllIdsSplit(was, p + 1);
      AllIdsPrefix(was, p);
      var whole := AllIds(was[..p + 1]);
      assert ids == whole + ids[|whole|..];
      RenumberPrefix(START, whole, ids[|whole|..]);
      RenumberPrefix(START, AllIds(was[..p]), Ids(was[p].invocations));
      assert pulses[p] == pulses[p..][0] == was[p];
      var invocations;
      ghost var before := pulses[..p];
      invocations, seen, next := RenumberPulse(pulses[p].invocations, seen, next);
      pulses[p] := pulses[p].(invocations := invocations);
      assert pulses[..p + 1] == before + [pulses[p]];
      AllIdsPrefix(pulses[..p + 1], p);
      assert pulses[..p + 1][..p + 1] == pulses[..p + 1] && pulses[..p + 1][..p] == before;
    }
    assert was[..pulses.Length] == was && pulses[..pulses.Length] == pulses[..];
  }

  lemma NoIds()
    ensures AllIds([]) == []
  {
  }

  /** A whole history is loaded: nothing but step ids changes, and these end up usable as names. */
  method LoadHistory(history: seq<Pulse>) returns (loaded: seq<Pulse>)
    requires Renumber(START, AllIds(history)).Done?
    ensures |loaded| == |history| && forall p :: 0 <= p < |history| ==> SamePulse(loaded[p], history[p])
    ensures Valid(AllIds(loaded))
    ensures AllIds(loaded) == AllIds(history) <==> Valid(AllIds(history))
  {
    hide Renumber, AllIds, Ahead, SamePulse;
    var pulses := new Pulse[|history|](i requires 0 <= i < |history| => history[i]);
    assert pulses[..] == history;
    NormalizeToolInvocationStepIds(pulses);
    AheadAtStart();
    RenumberedIsValid(START, AllIds(history));
    UnchangedIff(AllIds(history));
    return pulses[..];
  }
}
