/** The local API mode as an object around its normalizer; every handler refines the protocol step. */
module LocalApiMode {
  import opened Wrappers
  import opened Envelopes
  import opened Normalizing
  import opened LocalApiProtocol
  import opened LocalApiStory
  import opened Announced
  import Normalizer

  const RECENT_PEER_EVENT_LIMIT: nat := 128

  /** The newest `RECENT_PEER_EVENT_LIMIT` of what was known and what is waiting. */
  function Recent<T>(known: seq<T>, waiting: seq<T>): seq<T> {
    var all := known + waiting;
    if |all| <= RECENT_PEER_EVENT_LIMIT then all else all[|all| - RECENT_PEER_EVENT_LIMIT..]
  }

  class LocalApiMode<Peer> {
    const normalizer: Normalizer.Normalizer
    var emitted: seq<Envelope>
    var turnInProgress: bool
    var interrupted: bool
    var activeCommandSessions: set<SessionId>
    var turnCompletionPending: bool
    var quit: bool
    var peerUpdates: seq<Peer>
    var recentPeerUpdates: seq<Peer>

    ghost function Abs(): Shared
      reads this, normalizer
    {
      Shared(normalizer.Abs(), emitted, turnInProgress, interrupted, activeCommandSessions, turnCompletionPending, quit)
    }

    constructor ()
      ensures Abs() == NEW_TASK && fresh(normalizer)
      ensures peerUpdates == [] && recentPeerUpdates == []
    {
      normalizer := new Normalizer.Normalizer();
      emitted, turnInProgress, interrupted, activeCommandSessions := [], false, false, {};
      turnCompletionPending, quit, peerUpdates, recentPeerUpdates := false, false, [], [];
    }

    method DrainPeerUpdates()
      requires |recentPeerUpdates| <= RECENT_PEER_EVENT_LIMIT
      modifies `peerUpdates, `recentPeerUpdates
      ensures peerUpdates == [] && recentPeerUpdates == Recent(old(recentPeerUpdates), old(peerUpdates))
      ensures |recentPeerUpdates| <= RECENT_PEER_EVENT_LIMIT
    {
      ghost var all := recentPeerUpdates + peerUpdates;
      while peerUpdates != []
        invariant |recentPeerUpdates| <= RECENT_PEER_EVENT_LIMIT
        invariant Recent(recentPeerUpdates, peerUpdates) == Recent(old(recentPeerUpdates), old(peerUpdates))
        decreases |peerUpdates|
      {
        var update := peerUpdates[0];
        assert recentPeerUpdates + peerUpdates == (recentPeerUpdates + [update]) + peerUpdates[1..];
        peerUpdates := peerUpdates[1..];
        if |recentPeerUpdates| == RECENT_PEER_EVENT_LIMIT {
          recentPeerUpdates := recentPeerUpdates[1..];
        }
        recentPeerUpdates := recentPeerUpdates + [update];
      }
      assert recentPeerUpdates + [] == recentPeerUpdates;
    }

    method EmitEnvelopes(envelopes: seq<Envelope>)
      requires |recentPeerUpdates| <= RECENT_PEER_EVENT_LIMIT
      modifies `emitted, `peerUpdates, `recentPeerUpdates
      ensures emitted == old(emitted) + envelopes
      ensures peerUpdates == [] && recentPeerUpdates == Recent(old(recentPeerUpdates), old(peerUpdates))
      ensures |recentPeerUpdates| <= RECENT_PEER_EVENT_LIMIT
    {
      DrainPeerUpdates();
      for i := 0 to |envelopes|
        invariant emitted == old(emitted) + envelopes[..i]
        invariant peerUpdates == [] && |recentPeerUpdates| <= RECENT_PEER_EVENT_LIMIT
        invariant recentPeerUpdates == Recent(old(recentPeerUpdates), old(peerUpdates))
      {
        emitted := emitted + [envelopes[i]];
      }
      assert envelopes[..|envelopes|] == envelopes;
      assert recentPeerUpdates + [] == recentPeerUpdates;
      DrainPeerUpdates();
    }

    method CompleteTurnIfIdle()
      requires |recentPeerUpdates| <= RECENT_PEER_EVENT_LIMIT
      modifies this, normalizer
      ensures Abs() == old(Abs()).CompleteTurnIfIdle() && |recentPeerUpdates| <= RECENT_PEER_EVENT_LIMIT
    {
      if !turnCompletionPending || activeCommandSessions != {} {
        return;
      }
      var envelopes;
      hide Norm.FinishTurn;
      if interrupted {
        envelopes := normalizer.FinishTurnWithStatus("cancelled", {});
      } else {
        envelopes := normalizer.NormalizeUiUpdate(PulseComplete, {});
      }
      turnCompletionPending := false;
      turnInProgress := false;
      quit := true;
      EmitEnvelopes(envelopes);
    }

    method OnUserInput(input: string)
      requires |recentPeerUpdates| <= RECENT_PEER_EVENT_LIMIT
      modifies this, normalizer
      ensures Abs() == old(Abs()).OnUserInput(input) && |recentPeerUpdates| <= RECENT_PEER_EVENT_LIMIT
    {
      hide Norm.StartPulse;
      turnInProgress := true;
      interrupted := false;
      activeCommandSessions := {};
      turnCompletionPending := false;
      quit := false;
      var start := normalizer.StartPulse(1, Some(input));
      EmitEnvelopes([start]);
    }

    method OnInterrupt()
      modifies `interrupted
      ensures Abs() == old(Abs()).Next(Interrupt)
    {
      if !turnInProgress {
        return;
      }
      interrupted := true;
    }

    method OnError(message: string)
      requires |recentPeerUpdates| <= RECENT_PEER_EVENT_LIMIT
      modifies this, normalizer
      ensures Abs() == old(Abs()).OnError(message) && |recentPeerUpdates| <= RECENT_PEER_EVENT_LIMIT
    {
      hide Norm.EmitError;
      var envelopes := normalizer.EmitError("runtime_error", message, false, {});
      activeCommandSessions := {};
      turnCompletionPending := false;
      turnInProgress := false;
      quit := true;
      EmitEnvelopes(envelopes);
    }

    method OnStreamUpdate(update: Update)
      requires |recentPeerUpdates| <= RECENT_PEER_EVENT_LIMIT
      modifies this, normalizer
      ensures Abs() == old(Abs()).OnUpdate(update) && |recentPeerUpdates| <= RECENT_PEER_EVENT_LIMIT
    {
      hide Norm.Normalize;
      match update {
        case ToolApprovalUpdate(capability) =>
          var e := normalizer.NextEnvelope(ApprovalRequest(capability));
          EmitEnvelopes([e]);
        case LineUpdate(_) => Forward(update);
        case StreamDelta(_) => Forward(update);
        case StreamBlockStart(_, _, _) => Forward(update);
        case StreamBlockDelta(_, _, _) => Forward(update);
        case StreamBlockComplete(_) => Forward(update);
        case _ =>
      }
    }

    method Forward(update: Update)
      requires |recentPeerUpdates| <= RECENT_PEER_EVENT_LIMIT
      modifies this, normalizer
      ensures Abs() == old(Abs()).Emit(old(Abs()).norm.Normalize(update, {}))
      ensures |recentPeerUpdates| <= RECENT_PEER_EVENT_LIMIT
    {
      hide Norm.Normalize;
      var envelopes := normalizer.NormalizeUiUpdate(update, {});
      EmitEnvelopes(envelopes);
    }

    method OnDecision(request: Request)
      requires |recentPeerUpdates| <= RECENT_PEER_EVENT_LIMIT
      modifies this, normalizer
      ensures Abs() == old(Abs()).Next(Decide(request)) && |recentPeerUpdates| <= RECENT_PEER_EVENT_LIMIT
    {
      hide Norm.NormalizeRequest;
      var envelopes := normalizer.NormalizeRuntimeRequest(request);
      EmitEnvelopes(envelopes);
    }

    method Handle(e: Event)
      requires |recentPeerUpdates| <= RECENT_PEER_EVENT_LIMIT
      modifies this, normalizer
      ensures Abs() == old(Abs()).Next(e) && |recentPeerUpdates| <= RECENT_PEER_EVENT_LIMIT
    {
      hide Shared.OnUserInput, Shared.OnError, Shared.OnUpdate, Shared.CompleteTurnIfIdle, Norm.NormalizeRequest;
      match e {
        case UserInput(input) => OnUserInput(input);
        case Interrupt => OnInterrupt();
        case ModelUpdate(update) => OnStreamUpdate(update);
        case TurnComplete =>
          turnCompletionPending := true;
          CompleteTurnIfIdle();
        case TurnError(message) => OnError(message);
        case SessionStarted(session) => activeCommandSessions := activeCommandSessions + {session};
        case SessionFinished(session) =>
          activeCommandSessions := activeCommandSessions - {session};
          CompleteTurnIfIdle();
        case Decide(request) => OnDecision(request);
      }
    }
  }

  /** The runtime loop: a fresh task fed any events emits a numbered stream that says what they tell, whose
      starts and ends alternate exactly when the events are well placed, and whose text blocks are bracketed if
      they keep the brackets. */
  method RunTask(events: seq<Event>) returns (log: seq<Envelope>)
    requires RoomRun(events)
    ensures NumberedFrom(log, 1)
    ensures InPulse(log).Some? <==> AllPlaced(events)
    ensures AllKeepBrackets(events) ==> BracketAll(NO_BLOCK, log) != Broken
    ensures Seen(log) == Story(events) && AllFramed(log)
  {
    hide Shared.Next, BracketAll, InPulse, RoomRun, AllPlaced, AllKeepBrackets, TextOk, Seen, Story, AllFramed;
    var mode := new LocalApiMode<()>();
    for i := 0 to |events|
      invariant fresh(mode) && fresh(mode.normalizer) && |mode.recentPeerUpdates| <= RECENT_PEER_EVENT_LIMIT
      invariant mode.Abs() == Run(NEW_TASK, events[..i])
    {
      assert events[..i + 1][..i] == events[..i];
      mode.Handle(events[i]);
    }
    assert events[..|events|] == events;
    NumberedOverEveryRun(events);
    AlternatesOverEveryRunIff(events);
    BracketsOverEveryRunIff(events);
    StoryOverEveryRun(events);
    FramesOverEveryRun(events);
    if AllTrack(events) {
      assert Tracks(Run(NEW_TASK, events[..|events|]));
    }
    return mode.emitted;
  }
}
