/**
 * What the coordinator guarantees over any sequence of MediaPlayer events
 * and garbage collections, proved about the transition functions of
 * SessionModel.
 */
module SessionProperties {
  import opened Wrappers
  import opened Android
  import opened SessionModel

  /** Without a live active session, no reachable session is active at all. */
  lemma NoLiveActiveSession(c: Coord, i: nat)
    requires Inv(c) && !LiveActive(c)
    requires i < |c.sessions| && !c.sessions[i].reclaimed
    ensures !c.sessions[i].active
  {
  }

  lemma ReleaseKeepsInv(c: Coord, id: SessionId, faults: set<Fault>)
    requires Inv(c) && !LiveActive(c) && id < |c.sessions|
    ensures Inv(Release(c, id, faults)) && !LiveActive(Release(c, id, faults))
  {
    var r := Release(c, id, faults);
    forall i | 0 <= i < |r.sessions| && !r.sessions[i].reclaimed
      ensures !r.sessions[i].active
    {
      if i != id { NoLiveActiveSession(c, i); }
      else if c.sessions[id].active { NoLiveActiveSession(c, id); }
    }
  }

  lemma CreateKeepsInv(c: Coord, faults: set<Fault>)
    requires Inv(c) && !LiveActive(c)
    ensures Inv(Create(c, faults))
  {
    var r := Create(c, faults);
    forall i | 0 <= i < |r.sessions| && r.sessions[i].active && !r.sessions[i].reclaimed
      ensures r.mediaSession == Some(i)
    {
      if i < |c.sessions| {
        assert r.sessions[i] == c.sessions[i];
        NoLiveActiveSession(c, i);
      }
    }
  }

  /** ensureMediaSessionActive keeps the invariant. */
  lemma {:induction false} EnsureActiveKeepsInv(c: Coord, faults: set<Fault>)
    requires Inv(c)
    ensures Inv(EnsureActive(c, faults))
  {
    if !LiveActive(c) {
      match Get(c)
      case Some(id) =>
        ReleaseKeepsInv(c, id, faults);
        CreateKeepsInv(Release(c, id, faults), faults);
      case None =>
        CreateKeepsInv(c, faults);
    }
  }

  /** updatePlaybackState keeps the invariant. */
  lemma UpdatePlaybackKeepsInv(c: Coord, state: int, faults: set<Fault>)
    requires Inv(c)
    ensures Inv(UpdatePlayback(c, state, faults))
  {
    var r := UpdatePlayback(c, state, faults);
    forall i | 0 <= i < |r.sessions|
      ensures r.sessions[i].active == c.sessions[i].active && r.sessions[i].released == c.sessions[i].released
      ensures r.sessions[i].reclaimed == c.sessions[i].reclaimed
    {
      assert r.sessions[i].(playback := c.sessions[i].playback) == c.sessions[i];
    }
  }

  /** Every event keeps the invariant. */
  lemma {:induction false} StepKeepsInv(c: Coord, e: Event)
    requires Inv(c)
    ensures Inv(Step(c, e))
  {
    match e
    case Start(hasContext, faults) =>
      if hasContext {
        EnsureActiveKeepsInv(c, faults);
        UpdatePlaybackKeepsInv(EnsureActive(c, faults), STATE_PLAYING, faults);
      }
    case Pause(faults) => UpdatePlaybackKeepsInv(c, STATE_PAUSED, faults);
    case Stop(faults) => UpdatePlaybackKeepsInv(c, STATE_STOPPED, faults);
    case Collect(id) =>
  }

  /** Every run keeps the invariant. */
  lemma {:induction false} RunKeepsInv(c: Coord, events: seq<Event>)
    requires Inv(c)
    ensures Inv(Run(c, events))
    decreases |events|
  {
    if events != [] {
      StepKeepsInv(c, events[0]);
      RunKeepsInv(Step(c, events[0]), events[1..]);
    }
  }

  /**
   * Whatever happens, at most one reachable session is active, and it is
   * the one the companion field references.
   */
  lemma AtMostOneActiveSession(events: seq<Event>, i: nat, j: nat)
    requires i < |Run(INITIAL, events).sessions| && j < |Run(INITIAL, events).sessions|
    requires Run(INITIAL, events).sessions[i].active && !Run(INITIAL, events).sessions[i].reclaimed
    requires Run(INITIAL, events).sessions[j].active && !Run(INITIAL, events).sessions[j].reclaimed
    ensures i == j && Run(INITIAL, events).mediaSession == Some(i)
  {
    RunKeepsInv(INITIAL, events);
  }

  /** Whatever happens, the notification channel is created at most once. */
  lemma ChannelRegisteredAtMostOnce(events: seq<Event>)
    ensures Run(INITIAL, events).channelRegistrations <= 1
    ensures Run(INITIAL, events).channelRegistrations == 1 <==> Run(INITIAL, events).notificationChannelCreated
  {
    RunKeepsInv(INITIAL, events);
  }

  /**
   * What never goes back: no constructed session disappears, a released
   * session stays released, a reclaimed one stays reclaimed, and the
   * channel flag never returns to false.
   */
  predicate Monotone(c: Coord, r: Coord) {
    |c.sessions| <= |r.sessions| &&
    (forall i :: 0 <= i < |c.sessions| && c.sessions[i].released ==> r.sessions[i].released) &&
    (forall i :: 0 <= i < |c.sessions| && c.sessions[i].reclaimed ==> r.sessions[i].reclaimed) &&
    (c.notificationChannelCreated ==> r.notificationChannelCreated) &&
    c.channelRegistrations <= r.channelRegistrations &&
    c.releaseCalls <= r.releaseCalls
  }

  lemma MonotoneTransitive(a: Coord, b: Coord, c: Coord)
    requires Monotone(a, b) && Monotone(b, c)
    ensures Monotone(a, c)
  {
  }

  lemma ReleaseMonotone(c: Coord, id: SessionId, faults: set<Fault>)
    requires WellFormed(c) && id < |c.sessions|
    ensures Monotone(c, Release(c, id, faults))
  {
  }

  lemma CreateMonotone(c: Coord, faults: set<Fault>)
    requires WellFormed(c)
    ensures Monotone(c, Create(c, faults))
  {
    var r := Create(c, faults);
    forall i | 0 <= i < |c.sessions| ensures r.sessions[i] == c.sessions[i] {
      assert r.sessions[..|c.sessions|][i] == r.sessions[i];
    }
  }

  lemma {:induction false} EnsureActiveMonotone(c: Coord, faults: set<Fault>)
    requires WellFormed(c)
    ensures Monotone(c, EnsureActive(c, faults))
  {
    match Get(c)
    case Some(id) =>
      if !c.sessions[id].active {
        var rel := Release(c, id, faults);
        ReleaseMonotone(c, id, faults);
        CreateMonotone(rel, faults);
        MonotoneTransitive(c, rel, Create(rel, faults));
      }
    case None =>
      CreateMonotone(c, faults);
  }

  lemma {:induction false} StepMonotone(c: Coord, e: Event)
    requires WellFormed(c)
    ensures Monotone(c, Step(c, e))
  {
    match e
    case Start(hasContext, faults) =>
      if hasContext {
        var a := EnsureActive(c, faults);
        EnsureActiveMonotone(c, faults);
        UpdatePlaybackKeepsLifecycle(a, STATE_PLAYING, faults);
        MonotoneTransitive(c, a, UpdatePlayback(a, STATE_PLAYING, faults));
      }
    case Pause(faults) => UpdatePlaybackKeepsLifecycle(c, STATE_PAUSED, faults);
    case Stop(faults) => UpdatePlaybackKeepsLifecycle(c, STATE_STOPPED, faults);
    case Collect(id) =>
  }

  /** Everything but a session's published playback state is `c`'s. */
  predicate SameLifecycle(c: Coord, r: Coord) {
    r.(sessions := c.sessions) == c && |r.sessions| == |c.sessions| &&
    forall i :: 0 <= i < |c.sessions| ==>
      r.sessions[i].active == c.sessions[i].active &&
      r.sessions[i].released == c.sessions[i].released &&
      r.sessions[i].reclaimed == c.sessions[i].reclaimed
  }

  lemma UpdatePlaybackKeepsLifecycle(c: Coord, state: int, faults: set<Fault>)
    requires WellFormed(c)
    ensures SameLifecycle(c, UpdatePlayback(c, state, faults))
  {
    var r := UpdatePlayback(c, state, faults);
    forall i | 0 <= i < |c.sessions|
      ensures r.sessions[i].active == c.sessions[i].active && r.sessions[i].released == c.sessions[i].released
      ensures r.sessions[i].reclaimed == c.sessions[i].reclaimed
    {
      assert r.sessions[i].(playback := c.sessions[i].playback) == c.sessions[i];
    }
  }

  /** Every run is monotone. */
  lemma {:induction false} RunMonotone(c: Coord, events: seq<Event>)
    requires WellFormed(c)
    ensures Monotone(c, Run(c, events))
    decreases |events|
  {
    if events != [] {
      StepMonotone(c, events[0]);
      RunMonotone(Step(c, events[0]), events[1..]);
      MonotoneTransitive(c, Step(c, events[0]), Run(Step(c, events[0]), events[1..]));
    }
  }

  /** A released session is never brought back. */
  lemma ReleasedStaysReleased(c: Coord, events: seq<Event>, i: nat)
    requires WellFormed(c) && i < |c.sessions| && c.sessions[i].released
    ensures i < |Run(c, events).sessions| && Run(c, events).sessions[i].released
    ensures !Run(c, events).sessions[i].active || !Inv(c)
  {
    RunMonotone(c, events);
    if Inv(c) { RunKeepsInv(c, events); }
  }

  /** Once created, the channel flag stays set and the channel is never registered again. */
  lemma ChannelFlagNeverReverts(c: Coord, events: seq<Event>)
    requires Inv(c) && c.notificationChannelCreated
    ensures Run(c, events).notificationChannelCreated
    ensures Run(c, events).channelRegistrations == c.channelRegistrations
  {
    RunMonotone(c, events);
    RunKeepsInv(c, events);
  }

  /** Only pause and stop events. */
  predicate PausesAndStops(events: seq<Event>) {
    forall k :: 0 <= k < |events| ==> events[k].Pause? || events[k].Stop?
  }

  /**
   * Pause and stop only ever publish playback states: no session is
   * constructed, deactivated or released, so a session survives them.
   */
  lemma {:induction false} PauseAndStopKeepSessions(c: Coord, events: seq<Event>)
    requires WellFormed(c) && PausesAndStops(events)
    ensures SameLifecycle(c, Run(c, events))
    decreases |events|
  {
    if events != [] {
      var e := events[0];
      var n := Step(c, e);
      UpdatePlaybackKeepsLifecycle(c, if e.Pause? then STATE_PAUSED else STATE_STOPPED, e.faults);
      assert PausesAndStops(events[1..]) by {
        forall k | 0 <= k < |events[1..]| ensures events[1..][k].Pause? || events[1..][k].Stop? {
          assert events[1..][k] == events[k + 1];
        }
      }
      PauseAndStopKeepSessions(n, events[1..]);
    }
  }

  /**
   * A start that stores an activated session makes every later start a
   * no-op for the session lifecycle: nothing is constructed or released.
   */
  lemma SecondStartIsNoOp(c: Coord, first: set<Fault>, second: set<Fault>)
    requires WellFormed(c)
    requires CreationStores(first) && ActivationIgnored !in first
    ensures LiveActive(OnStart(c, true, first))
    ensures EnsureActive(OnStart(c, true, first), second) == OnStart(c, true, first)
    ensures SameLifecycle(OnStart(c, true, first), OnStart(OnStart(c, true, first), true, second))
  {
    var c1 := OnStart(c, true, first);
    if LiveActive(c) {
      var a := EnsureActive(c, first);
      UpdatePlaybackKeepsLifecycle(a, STATE_PLAYING, first);
    }
    UpdatePlaybackKeepsLifecycle(c1, STATE_PLAYING, second);
  }

  /**
   * From a fresh process, start / pause / stop without faults leaves one
   * session: active, never released, its last state STOPPED.
   */
  lemma StartPauseStopKeepsSessionActive()
    ensures var r := Run(INITIAL, [Start(true, {}), Pause({}), Stop({})]);
      |r.sessions| == 1 && r.sessions[0].active && !r.sessions[0].released && r.releaseCalls == 0 &&
      r.sessions[0].playback == Some(PlaybackState(STATE_STOPPED, PLAYBACK_POSITION_UNKNOWN, PLAYBACK_ACTIONS)) &&
      r.notificationChannelCreated && r.channelRegistrations == 1
  {
    var c1 := Step(INITIAL, Start(true, {}));
    var c2 := Step(c1, Pause({}));
    var c3 := Step(c2, Stop({}));
    assert Run(c3, []) == c3;
    assert Run(INITIAL, [Start(true, {}), Pause({}), Stop({})]) == Run(c1, [Pause({}), Stop({})]);
    assert Run(c1, [Pause({}), Stop({})]) == Run(c2, [Stop({})]);
  }

  /**
   * Pause before any start changes nothing: there is no session to update.
   */
  lemma PauseWithoutSessionIsNoOp(faults: set<Fault>)
    ensures Step(INITIAL, Pause(faults)) == INITIAL
    ensures Step(INITIAL, Stop(faults)) == INITIAL
  {
  }

  /**
   * The reference is not cleared: when activation silently fails and the
   * next creation throws, the field still names the released first session,
   * and the following start releases it a second time.
   */
  lemma StaleReferenceReleasedAgain()
    ensures var r1 := Step(INITIAL, Start(true, {ActivationIgnored}));
      var r2 := Step(r1, Start(true, {ConstructFails}));
      var r3 := Step(r2, Start(true, {}));
      r2.mediaSession == Some(0) && r2.sessions[0].released && !r2.sessions[0].active &&
      r3.releaseCalls == 2 && r3.mediaSession == Some(1) && r3.sessions[1].active
  {
  }

  /**
   * A session the garbage collector reclaims while active is never
   * deactivated: the next start creates a second active session and the
   * first stays active.
   */
  lemma ReclaimedActiveSessionStaysActive()
    ensures var r1 := Step(INITIAL, Start(true, {}));
      var r2 := Step(r1, Collect(0));
      var r3 := Step(r2, Start(true, {}));
      |r3.sessions| == 2 && r3.sessions[0].active && r3.sessions[1].active && r3.mediaSession == Some(1)
  {
  }
}
