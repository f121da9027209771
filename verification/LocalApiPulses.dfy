/** Whole pulses, told only by their events: each gets one start and one end. */
module LocalApiPulses {
  import opened Text
  import opened Wrappers
  import opened Envelopes
  import opened Normalizing
  import opened LocalApiProtocol
  import opened PulseTask

  /** An input, what the pulse task sends before its terminal update, that update, and what arrives after it:
      command sessions that outlive the task, decisions, interrupts, but no more text. */
  datatype Pulse = Pulse(input: string, body: seq<Event>, terminal: Event, tail: seq<Event>)
  {
    function Events(): seq<Event> {
      [UserInput(input)] + body + [terminal] + tail
    }
  }

  predicate NoText(e: Event) {
    InsidePulse(e) && !(e.ModelUpdate? && e.update.StreamDelta?)
  }

  function SessionsAfter(sessions: set<SessionId>, e: Event): set<SessionId> {
    match e
    case SessionStarted(session) => sessions + {session}
    case SessionFinished(session) => sessions - {session}
    case _ => sessions
  }

  function Sessions(start: set<SessionId>, events: seq<Event>): set<SessionId> {
    if events == [] then start else SessionsAfter(Sessions(start, events[..|events| - 1]), events[|events| - 1])
  }

  /** At some moment from the terminal update on, no command session is running. */
  ghost predicate SessionsSettle(p: Pulse) {
    p.terminal.TurnError? || exists n :: 0 <= n <= |p.tail| && Sessions(Sessions({}, p.body), p.tail[..n]) == {}
  }

  ghost predicate Complete(p: Pulse) {
    && AllInside(p.body) && IsTerminal(p.terminal)
    && (forall i :: 0 <= i < |p.tail| ==> NoText(p.tail[i]))
    && SessionsSettle(p)
  }

  // ------------------------------------------------------------------------------------------
  // The flags of the mode through one pulse.

  /** In the middle of a pulse that has not had its terminal update. */
  ghost predicate Streaming(s: Shared, sessions: set<SessionId>) {
    s.turnInProgress && !s.completionPending && s.sessions == sessions
  }

  /** After the terminal update: waiting for sessions, or over. */
  ghost predicate Draining(s: Shared, sessions: set<SessionId>) {
    if s.turnInProgress then s.completionPending && s.sessions == sessions && sessions != {} else !s.completionPending
  }

  lemma StreamingStep(s: Shared, sessions: set<SessionId>, e: Event)
    requires Streaming(s, sessions) && InsidePulse(e)
    ensures Disciplined(s, e) && Streaming(s.Next(e), SessionsAfter(sessions, e))
  {
    hide Norm.Normalize, Norm.NormalizeRequest;
  }

  lemma TerminalStep(s: Shared, sessions: set<SessionId>, e: Event)
    requires Streaming(s, sessions) && IsTerminal(e)
    ensures Disciplined(s, e) && Draining(s.Next(e), sessions)
    ensures e.TurnError? || sessions == {} ==> !s.Next(e).turnInProgress
  {
    hide Norm.FinishTurn, Norm.EmitError;
  }

  lemma DrainingStep(s: Shared, sessions: set<SessionId>, e: Event)
    requires Draining(s, sessions) && NoText(e)
    ensures Disciplined(s, e) && Draining(s.Next(e), SessionsAfter(sessions, e))
    ensures !s.turnInProgress || SessionsAfter(sessions, e) == {} ==> !s.Next(e).turnInProgress
  {
    hide Norm.FinishTurn, Norm.Normalize, Norm.NormalizeRequest;
  }

  lemma RunSnoc(s: Shared, events: seq<Event>, e: Event)
    ensures Run(s, events + [e]) == Run(s, events).Next(e)
  {
    assert (events + [e])[..|events|] == events;
  }

  lemma {:induction false} RunConcat(s: Shared, a: seq<Event>, b: seq<Event>)
    ensures Run(s, a + b) == Run(Run(s, a), b)
    decreases |b|
  {
    hide Shared.Next;
    if b == [] {
      assert a + b == a;
    } else {
      assert (a + b)[..|a + b| - 1] == a + b[..|b| - 1];
      RunConcat(s, a, b[..|b| - 1]);
    }
  }

  lemma {:induction false} DisciplinedSnoc(s: Shared, events: seq<Event>, e: Event)
    requires DisciplinedFrom(s, events) && Disciplined(Run(s, events), e)
    ensures DisciplinedFrom(s, events + [e])
  {
    hide Disciplined, Run;
    var all := events + [e];
    forall i | 0 <= i < |all| ensures Disciplined(Run(s, all[..i]), all[i]) {
      assert i < |events| ==> all[..i] == events[..i];
      assert i == |events| ==> all[..i] == events;
    }
  }

  lemma {:induction false} DisciplinedConcat(s: Shared, a: seq<Event>, b: seq<Event>)
    requires DisciplinedFrom(s, a) && DisciplinedFrom(Run(s, a), b)
    ensures DisciplinedFrom(s, a + b)
    decreases |b|
  {
    hide Disciplined, Run;
    if b == [] {
      assert a + b == a;
    } else {
      var front, last := b[..|b| - 1], b[|b| - 1];
      forall i | 0 <= i < |front| ensures Disciplined(Run(Run(s, a), front[..i]), front[i]) {
        assert front[..i] == b[..i];
        assert Disciplined(Run(Run(s, a), b[..i]), b[i]);
      }
      DisciplinedConcat(s, a, front);
      assert Disciplined(Run(Run(s, a), b[..|b| - 1]), b[|b| - 1]);
      RunConcat(s, a, front);
      DisciplinedSnoc(s, a + front, last);
      assert a + b == (a + front) + [last];
    }
  }

  lemma {:induction false} BodyKeepsStreaming(s: Shared, sessions: set<SessionId>, body: seq<Event>)
    requires Streaming(s, sessions) && AllInside(body)
    ensures DisciplinedFrom(s, body) && Streaming(Run(s, body), Sessions(sessions, body))
    decreases |body|
  {
    hide Disciplined, InsidePulse, Shared.Next, SessionsAfter, Streaming;
    if body != [] {
      var front, last := body[..|body| - 1], body[|body| - 1];
      BodyKeepsStreaming(s, sessions, front);
      StreamingStep(Run(s, front), Sessions(sessions, front), last);
      DisciplinedSnoc(s, front, last);
      assert body == front + [last];
    }
  }

  lemma {:induction false} TailKeepsDraining(s: Shared, sessions: set<SessionId>, tail: seq<Event>)
    requires Draining(s, sessions) && forall i :: 0 <= i < |tail| ==> NoText(tail[i])
    ensures DisciplinedFrom(s, tail) && Draining(Run(s, tail), Sessions(sessions, tail))
    ensures (!s.turnInProgress || exists n :: 0 < n <= |tail| && Sessions(sessions, tail[..n]) == {}) ==>
              !Run(s, tail).turnInProgress
    decreases |tail|
  {
    hide Disciplined, NoText, Shared.Next, SessionsAfter, Draining;
    if tail != [] {
      var front, last := tail[..|tail| - 1], tail[|tail| - 1];
      TailKeepsDraining(s, sessions, front);
      DrainingStep(Run(s, front), Sessions(sessions, front), last);
      DisciplinedSnoc(s, front, last);
      assert tail == front + [last];
      if n :| 0 < n <= |tail| && Sessions(sessions, tail[..n]) == {} {
        assert n < |tail| ==> front[..n] == tail[..n];
        assert n == |tail| ==> tail[..n] == tail;
      }
    }
  }

  /** A complete pulse is disciplined from its input to its last event, and leaves the mode idle. */
  lemma PulseDisciplined(s: Shared, p: Pulse)
    requires !s.turnInProgress && Complete(p)
    ensures DisciplinedFrom(s, p.Events()) && !Run(s, p.Events()).turnInProgress
  {
    hide Disciplined, Run, Shared.OnUserInput, AllInside, NoText, IsTerminal, Sessions;
    var start, sessions := [UserInput(p.input)], Sessions({}, p.body);
    var s1 := s.OnUserInput(p.input);
    StartStreams(s, p.input);
    BodyKeepsStreaming(s1, {}, p.body);
    var s2 := Run(s1, p.body);
    TerminalStep(s2, sessions, p.terminal);
    OneEvent(s2, p.terminal);
    var s3 := Run(s2, [p.terminal]);
    TailKeepsDraining(s3, sessions, p.tail);
    SettledByTail(sessions, p);
    RunConcat(s, start, p.body);
    RunConcat(s, start + p.body, [p.terminal]);
    RunConcat(s, start + p.body + [p.terminal], p.tail);
    DisciplinedConcat(s, start, p.body);
    DisciplinedConcat(s, start + p.body, [p.terminal]);
    DisciplinedConcat(s, start + p.body + [p.terminal], p.tail);
  }

  lemma SettledByTail(sessions: set<SessionId>, p: Pulse)
    requires SessionsSettle(p) && sessions == Sessions({}, p.body)
    ensures p.terminal.TurnError? || sessions == {} || exists n :: 0 < n <= |p.tail| && Sessions(sessions, p.tail[..n]) == {}
  {
    if !p.terminal.TurnError? {
      var n :| 0 <= n <= |p.tail| && Sessions(sessions, p.tail[..n]) == {};
      assert n == 0 ==> p.tail[..n] == [];
    }
  }

  lemma OneEvent(s: Shared, e: Event)
    ensures Run(s, [e]) == s.Next(e)
    ensures Disciplined(s, e) ==> DisciplinedFrom(s, [e])
  {
    hide Disciplined, Shared.Next;
    assert [e][..0] == [];
  }

  lemma StartStreams(s: Shared, input: string)
    requires !s.turnInProgress
    ensures Streaming(s.OnUserInput(input), {}) && Run(s, [UserInput(input)]) == s.OnUserInput(input)
    ensures DisciplinedFrom(s, [UserInput(input)])
  {
    OneEvent(s, UserInput(input));
  }

  // ------------------------------------------------------------------------------------------
  // All pulses.

  function AllEvents(pulses: seq<Pulse>): seq<Event> {
    if pulses == [] then [] else AllEvents(pulses[..|pulses| - 1]) + pulses[|pulses| - 1].Events()
  }

  lemma {:induction false} PulsesDisciplined(pulses: seq<Pulse>)
    requires forall i :: 0 <= i < |pulses| ==> Complete(pulses[i])
    ensures DisciplinedFrom(NEW_TASK, AllEvents(pulses)) && !Run(NEW_TASK, AllEvents(pulses)).turnInProgress
    decreases |pulses|
  {
    hide Complete, Pulse.Events, DisciplinedFrom, Shared.Next;
    if pulses == [] {
      assert DisciplinedFrom(NEW_TASK, []) by { NothingDisciplined(); }
    } else {
      var front, last := pulses[..|pulses| - 1], pulses[|pulses| - 1];
      PulsesDisciplined(front);
      PulseDisciplined(Run(NEW_TASK, AllEvents(front)), last);
      DisciplinedConcat(NEW_TASK, AllEvents(front), last.Events());
      RunConcat(NEW_TASK, AllEvents(front), last.Events());
    }
  }

  lemma NothingDisciplined()
    ensures DisciplinedFrom(NEW_TASK, [])
  {
  }

  function Starts(log: seq<Envelope>): nat {
    if log == [] then 0 else Starts(log[..|log| - 1]) + if log[|log| - 1].signal.PulseStart? then 1 else 0
  }

  function Ends(log: seq<Envelope>): nat {
    if log == [] then 0 else Ends(log[..|log| - 1]) + if log[|log| - 1].signal.PulseEnd? then 1 else 0
  }

  /** In a log whose marks alternate there is an end for every start but the one of an open pulse. */
  lemma {:induction false} AlternatingCounts(log: seq<Envelope>)
    requires InPulse(log).Some?
    ensures Starts(log) == Ends(log) + if InPulse(log).value then 1 else 0
    decreases |log|
  {
    if log != [] {
      assert log == log[..|log| - 1] + [log[|log| - 1]];
      InPulseSnoc(log[..|log| - 1], log[|log| - 1]);
      AlternatingCounts(log[..|log| - 1]);
    }
  }

  lemma {:induction false} StartsConcat(x: seq<Envelope>, y: seq<Envelope>)
    ensures Starts(x + y) == Starts(x) + Starts(y)
    decreases |y|
  {
    if y == [] {
      assert x + y == x;
    } else {
      assert (x + y)[..|x + y| - 1] == x + y[..|y| - 1];
      StartsConcat(x, y[..|y| - 1]);
    }
  }

  lemma {:induction false} QuietHasNoStart(log: seq<Envelope>)
    requires QuietSignals(log)
    ensures Starts(log) == 0
    decreases |log|
  {
    if log != [] {
      QuietHasNoStart(log[..|log| - 1]);
    }
  }

  function Inputs(events: seq<Event>): nat {
    if events == [] then 0 else Inputs(events[..|events| - 1]) + if events[|events| - 1].UserInput? then 1 else 0
  }

  lemma AddedStarts(s: Shared, e: Event)
    ensures Starts(s.Next(e).log) == Starts(s.log) + if e.UserInput? then 1 else 0
  {
    hide Shared.Next, Output;
    var added := EndsExactlyWhen(s, e);
    StartsConcat(s.log, added);
    if e.UserInput? {
      assert added[..0] == [];
      assert Starts(added) == 1;
    } else if EndStatus(s, e).None? {
      QuietHasNoStart(added);
    } else {
      QuietHasNoStart(added[..|added| - 1]);
    }
  }

  lemma {:induction false} OneStartPerInput(events: seq<Event>)
    ensures Starts(Run(NEW_TASK, events).log) == Inputs(events)
    decreases |events|
  {
    hide Shared.Next;
    if events != [] {
      OneStartPerInput(events[..|events| - 1]);
      AddedStarts(Run(NEW_TASK, events[..|events| - 1]), events[|events| - 1]);
    }
  }

  lemma {:induction false} InputsConcat(a: seq<Event>, b: seq<Event>)
    ensures Inputs(a + b) == Inputs(a) + Inputs(b)
    decreases |b|
  {
    if b == [] {
      assert a + b == a;
    } else {
      assert (a + b)[..|a + b| - 1] == a + b[..|b| - 1];
      InputsConcat(a, b[..|b| - 1]);
    }
  }

  lemma {:induction false} NoInputs(events: seq<Event>)
    requires forall i :: 0 <= i < |events| ==> !events[i].UserInput?
    ensures Inputs(events) == 0
    decreases |events|
  {
    if events != [] {
      NoInputs(events[..|events| - 1]);
    }
  }

  lemma PulseHasOneInput(p: Pulse)
    requires Complete(p)
    ensures Inputs(p.Events()) == 1
  {
    InputsConcat([UserInput(p.input)], p.body);
    InputsConcat([UserInput(p.input)] + p.body, [p.terminal]);
    InputsConcat([UserInput(p.input)] + p.body + [p.terminal], p.tail);
    NoInputs(p.body);
    NoInputs(p.tail);
    NoInputs([p.terminal]);
    assert [UserInput(p.input)][..0] == [];
    assert Inputs([UserInput(p.input)]) == 1;
  }

  lemma {:induction false} InputsOf(pulses: seq<Pulse>)
    requires forall i :: 0 <= i < |pulses| ==> Complete(pulses[i])
    ensures Inputs(AllEvents(pulses)) == |pulses|
    decreases |pulses|
  {
    hide Complete, Pulse.Events;
    if pulses != [] {
      InputsOf(pulses[..|pulses| - 1]);
      PulseHasOneInput(pulses[|pulses| - 1]);
      InputsConcat(AllEvents(pulses[..|pulses| - 1]), pulses[|pulses| - 1].Events());
    }
  }

  /** Any number of complete pulses one after the other: the stream has one start and one end for each,
      alternating, is numbered without a gap, and every synthetic text block in it is closed. */
  lemma OneEndPerPulse(pulses: seq<Pulse>)
    requires forall i :: 0 <= i < |pulses| ==> Complete(pulses[i])
    requires RoomRun(AllEvents(pulses))
    ensures var log := Run(NEW_TASK, AllEvents(pulses)).log;
            && Starts(log) == |pulses| == Ends(log) && InPulse(log) == Some(false)
            && NumberedFrom(log, 1) && BracketAll(NO_BLOCK, log) != Broken
  {
    hide Disciplined, Shared.Next, Complete, BracketAll, Starts, Ends, InPulse, AllEvents, Inputs, RoomRun;
    PulsesDisciplined(pulses);
    StreamOverEveryRun(AllEvents(pulses));
    OneStartPerInput(AllEvents(pulses));
    InputsOf(pulses);
    AlternatingCounts(Run(NEW_TASK, AllEvents(pulses)).log);
  }
}
