/**
 * The MediaSession coordinator of Init.kt as a value: the companion fields
 * `mediaSession` and `notificationChannelCreated`, the MediaSession objects
 * the coordinator has constructed, and one transition function per
 * operation. The class in SessionCoordinator is specified by these.
 */
module SessionModel {
  import opened Wrappers
  import opened Android

  /** A MediaSession object, named by its construction order. */
  type SessionId = nat

  /** What `setPlaybackState` publishes. */
  datatype PlaybackState = PlaybackState(state: int, position: int, actions: bv64)

  /** The fixed action mask of every published playback state. */
  const PLAYBACK_ACTIONS: bv64 := ACTION_PLAY | ACTION_PAUSE | ACTION_STOP | ACTION_PLAY_PAUSE

  /**
   * The state of one MediaSession object: its `isActive` flag, whether
   * `release()` has returned on it, whether the garbage collector has
   * reclaimed it (so the weak reference no longer yields it), and the last
   * playback state published to it.
   */
  datatype Session = Session(active: bool, released: bool, reclaimed: bool, playback: Option<PlaybackState>)

  const FRESH_SESSION: Session := Session(false, false, false, None)

  /**
   * The external calls that can throw (or, for activation, silently not
   * take effect). One operation is given the set of those that misbehave.
   */
  datatype Fault =
    | ConstructFails     // the MediaSession constructor throws
    | ConfigureFails     // setFlags, setPlaybackToLocal or setCallback throws
    | ActivationIgnored  // setActive(true) swallows a platform error; isActive stays false
    | ChannelFails       // no NotificationManager, or createNotificationChannel throws
    | NotifyFails        // building or posting the media notification throws
    | DeactivateFails    // setActive(false) throws
    | ReleaseFails       // release() throws
    | PublishFails       // building or setting the playback state throws

  /**
   * The coordinator's state. `releaseCalls` counts the `release()` calls
   * that returned and `channelRegistrations` the channels created; with
   * `|sessions|` (sessions constructed) they make the once-only and
   * idempotence properties statable.
   */
  datatype Coord = Coord(
    mediaSession: Option<SessionId>,
    notificationChannelCreated: bool,
    sessions: seq<Session>,
    notifiedSession: Option<SessionId>,
    releaseCalls: nat,
    channelRegistrations: nat)

  /** The companion object at class-load time. */
  const INITIAL: Coord := Coord(None, false, [], None, 0, 0)

  /** Every stored session name denotes a constructed session. */
  predicate WellFormed(c: Coord) {
    (c.mediaSession.Some? ==> c.mediaSession.value < |c.sessions|) &&
    (c.notifiedSession.Some? ==> c.notifiedSession.value < |c.sessions|)
  }

  /**
   * The invariant the coordinator keeps: a session that is active and still
   * reachable is the referenced one (so at most one is), a released session
   * is inactive, and the channel has been registered once exactly when the
   * flag says so.
   */
  predicate Inv(c: Coord) {
    WellFormed(c) &&
    (forall i :: 0 <= i < |c.sessions| && c.sessions[i].active && !c.sessions[i].reclaimed
       ==> c.mediaSession == Some(i)) &&
    (forall i :: 0 <= i < |c.sessions| && c.sessions[i].released ==> !c.sessions[i].active) &&
    c.channelRegistrations == (if c.notificationChannelCreated then 1 else 0)
  }

  /** `mediaSession?.get()`: the referenced session unless it was reclaimed. */
  function Get(c: Coord): (r: Option<SessionId>)
    requires WellFormed(c)
    ensures r.Some? ==> r == c.mediaSession && r.value < |c.sessions| && !c.sessions[r.value].reclaimed
    ensures r.None? ==> c.mediaSession.None? || c.sessions[c.mediaSession.value].reclaimed
  {
    match c.mediaSession
    case None => None
    case Some(id) => if c.sessions[id].reclaimed then None else Some(id)
  }

  /** The early-return test of ensureMediaSessionActive. */
  predicate LiveActive(c: Coord)
    requires WellFormed(c)
  {
    Get(c).Some? && c.sessions[Get(c).value].active
  }

  /** Creation got as far as storing the new session. */
  predicate CreationStores(faults: set<Fault>) {
    ConstructFails !in faults && ConfigureFails !in faults
  }

  /** The sessions of `c` other than `id` are those of `d`. */
  predicate OthersUnchanged(c: Coord, d: Coord, id: SessionId)
    requires |c.sessions| <= |d.sessions|
  {
    forall j :: 0 <= j < |c.sessions| && j != id ==> d.sessions[j] == c.sessions[j]
  }

  /** Whether `release()` is reached on a session and returns. */
  predicate ReleaseReturns(s: Session, faults: set<Fault>) {
    !(s.active && DeactivateFails in faults) && ReleaseFails !in faults
  }

  /**
   * releaseMediaSession: deactivate if active, then release. A throwing
   * call is swallowed and what happened before it stays; the companion
   * field is not touched.
   */
  function Release(c: Coord, id: SessionId, faults: set<Fault>): (r: Coord)
    requires WellFormed(c) && id < |c.sessions|
    ensures WellFormed(r) && |r.sessions| == |c.sessions| && OthersUnchanged(c, r, id)
    ensures r.mediaSession == c.mediaSession && r.notifiedSession == c.notifiedSession
    ensures r.notificationChannelCreated == c.notificationChannelCreated
    ensures r.channelRegistrations == c.channelRegistrations
    ensures r.sessions[id].reclaimed == c.sessions[id].reclaimed
    ensures r.sessions[id].playback == c.sessions[id].playback
    ensures !c.sessions[id].active || DeactivateFails !in faults ==> !r.sessions[id].active
    ensures c.sessions[id].active && DeactivateFails in faults ==> r == c
    ensures r.sessions[id].released <==> c.sessions[id].released || ReleaseReturns(c.sessions[id], faults)
    ensures r.releaseCalls == c.releaseCalls + (if ReleaseReturns(c.sessions[id], faults) then 1 else 0)
  {
    var s := c.sessions[id];
    if s.active && DeactivateFails in faults then c
    else
      var inactive := s.(active := false);
      if ReleaseFails in faults then c.(sessions := c.sessions[id := inactive])
      else c.(sessions := c.sessions[id := inactive.(released := true)], releaseCalls := c.releaseCalls + 1)
  }

  /**
   * ensureNotificationChannel: registers the channel unless the flag is
   * already set; the flag is set only once registration has succeeded.
   */
  function EnsureChannel(c: Coord, faults: set<Fault>): (r: Coord)
    ensures c.notificationChannelCreated ==> r == c
    ensures r.notificationChannelCreated <==> c.notificationChannelCreated || ChannelFails !in faults
    ensures r.channelRegistrations
         == c.channelRegistrations + (if r.notificationChannelCreated && !c.notificationChannelCreated then 1 else 0)
    ensures r.(notificationChannelCreated := c.notificationChannelCreated, channelRegistrations := c.channelRegistrations) == c
  {
    if c.notificationChannelCreated then c
    else if ChannelFails in faults then c
    else c.(notificationChannelCreated := true, channelRegistrations := c.channelRegistrations + 1)
  }

  /** createMediaNotification: posts the notification linked to a session. */
  function PostNotification(c: Coord, id: SessionId, faults: set<Fault>): (r: Coord)
    ensures NotifyFails in faults ==> r == c
    ensures NotifyFails !in faults ==> r.notifiedSession == Some(id)
    ensures r.(notifiedSession := c.notifiedSession) == c
  {
    if NotifyFails in faults then c else c.(notifiedSession := Some(id))
  }

  /**
   * createMediaSession: construct, configure, activate, store, then register
   * the channel and post the notification. A throw before the store leaves
   * the companion fields as they were.
   */
  function Create(c: Coord, faults: set<Fault>): (r: Coord)
    requires WellFormed(c)
    ensures WellFormed(r)
    ensures |c.sessions| <= |r.sessions| <= |c.sessions| + 1 && r.sessions[..|c.sessions|] == c.sessions
    ensures r.releaseCalls == c.releaseCalls
    ensures ConstructFails in faults ==> r == c
    ensures !CreationStores(faults) ==> r.mediaSession == c.mediaSession
    ensures !CreationStores(faults) || NotifyFails in faults ==> r.notifiedSession == c.notifiedSession
    ensures !CreationStores(faults) ==> (r.notificationChannelCreated == c.notificationChannelCreated
      && r.channelRegistrations == c.channelRegistrations)
    ensures |r.sessions| == |c.sessions| + 1 ==> (!r.sessions[|c.sessions|].released
      && !r.sessions[|c.sessions|].reclaimed && r.sessions[|c.sessions|].playback.None?)
    ensures ConstructFails !in faults ==> |r.sessions| == |c.sessions| + 1
    ensures ConstructFails !in faults && ConfigureFails in faults ==> !r.sessions[|c.sessions|].active
    ensures CreationStores(faults) ==> r.mediaSession == Some(|c.sessions|) && Get(r) == r.mediaSession
    ensures CreationStores(faults) ==> (r.sessions[|c.sessions|].active <==> ActivationIgnored !in faults)
    ensures CreationStores(faults) ==> (r.notificationChannelCreated == EnsureChannel(c, faults).notificationChannelCreated
      && r.channelRegistrations == EnsureChannel(c, faults).channelRegistrations)
    ensures CreationStores(faults) && NotifyFails !in faults ==> r.notifiedSession == Some(|c.sessions|)
  {
    if ConstructFails in faults then c
    else
      var id := |c.sessions|;
      var constructed := c.(sessions := c.sessions + [FRESH_SESSION]);
      if ConfigureFails in faults then constructed
      else
        var activated := constructed.(sessions := constructed.sessions[id := FRESH_SESSION.(active := ActivationIgnored !in faults)]);
        var stored := activated.(mediaSession := Some(id));
        PostNotification(EnsureChannel(stored, faults), id, faults)
  }

  /**
   * ensureMediaSessionActive: nothing to do while the referenced session is
   * live and active; otherwise release the live (inactive) one, if any, and
   * create a new one.
   */
  function EnsureActive(c: Coord, faults: set<Fault>): (r: Coord)
    requires WellFormed(c)
    ensures WellFormed(r)
    ensures LiveActive(c) ==> r == c
    ensures |c.sessions| <= |r.sessions| <= |c.sessions| + 1
    ensures ConstructFails in faults ==> |r.sessions| == |c.sessions|
    ensures !LiveActive(c) && ConstructFails !in faults
      ==> (|r.sessions| == |c.sessions| + 1
           && r.sessions[|c.sessions|] == FRESH_SESSION.(active := CreationStores(faults) && ActivationIgnored !in faults))
    ensures !LiveActive(c) && Get(c).Some?
      ==> r.sessions[Get(c).value]
          == c.sessions[Get(c).value].(released := c.sessions[Get(c).value].released || ReleaseFails !in faults)
    ensures !LiveActive(c) && CreationStores(faults) ==> r.mediaSession == Some(|c.sessions|)
    ensures !LiveActive(c) && CreationStores(faults) && ActivationIgnored !in faults ==> LiveActive(r)
    ensures !LiveActive(c) && Get(c).Some? && ReleaseFails !in faults
      ==> r.sessions[Get(c).value].released && !r.sessions[Get(c).value].active
    ensures !CreationStores(faults) ==> (r.mediaSession == c.mediaSession
      && r.notificationChannelCreated == c.notificationChannelCreated
      && r.channelRegistrations == c.channelRegistrations)
    ensures !LiveActive(c) && CreationStores(faults)
      ==> (r.notificationChannelCreated <==> c.notificationChannelCreated || ChannelFails !in faults)
    ensures !LiveActive(c) && CreationStores(faults)
      ==> r.channelRegistrations == c.channelRegistrations
          + (if !c.notificationChannelCreated && ChannelFails !in faults then 1 else 0)
    ensures !LiveActive(c) && CreationStores(faults) && NotifyFails !in faults ==> r.notifiedSession == Some(|c.sessions|)
    ensures LiveActive(c) || !(CreationStores(faults) && NotifyFails !in faults) ==> r.notifiedSession == c.notifiedSession
    ensures r.releaseCalls == c.releaseCalls
      + (if !LiveActive(c) && Get(c).Some? && ReleaseReturns(c.sessions[Get(c).value], faults) then 1 else 0)
    ensures forall i :: 0 <= i < |c.sessions| && Some(i) != Get(c) ==> r.sessions[i] == c.sessions[i]
    ensures c.notificationChannelCreated ==> r.notificationChannelCreated && r.channelRegistrations == c.channelRegistrations
  {
    match Get(c)
    case Some(id) =>
      if c.sessions[id].active then c else Create(Release(c, id, faults), faults)
    case None => Create(c, faults)
  }

  /**
   * updatePlaybackState: publish the given state, an unknown position and
   * the fixed action mask to the live referenced session, if there is one.
   * Nothing but that session's last published state changes.
   */
  function UpdatePlayback(c: Coord, state: int, faults: set<Fault>): (r: Coord)
    requires WellFormed(c)
    ensures WellFormed(r) && |r.sessions| == |c.sessions|
    ensures Get(c).None? || PublishFails in faults ==> r == c
    ensures Get(c).Some? && PublishFails !in faults
      ==> r.sessions[Get(c).value].playback == Some(PlaybackState(state, PLAYBACK_POSITION_UNKNOWN, PLAYBACK_ACTIONS))
    ensures r.(sessions := c.sessions) == c
    ensures forall i :: 0 <= i < |c.sessions| ==> r.sessions[i].(playback := c.sessions[i].playback) == c.sessions[i]
    ensures forall i :: 0 <= i < |c.sessions| && Some(i) != Get(c) ==> r.sessions[i] == c.sessions[i]
  {
    match Get(c)
    case None => c
    case Some(id) =>
      if PublishFails in faults then c
      else
        var published := PlaybackState(state, PLAYBACK_POSITION_UNKNOWN, PLAYBACK_ACTIONS);
        c.(sessions := c.sessions[id := c.sessions[id].(playback := Some(published))])
  }

  /** The garbage collector reclaims a session: the weak reference stops yielding it. */
  function Reclaim(c: Coord, id: SessionId): (r: Coord)
    requires WellFormed(c) && id < |c.sessions|
    ensures WellFormed(r) && |r.sessions| == |c.sessions| && OthersUnchanged(c, r, id)
    ensures r.sessions[id] == c.sessions[id].(reclaimed := true)
    ensures r.(sessions := c.sessions) == c
  {
    c.(sessions := c.sessions[id := c.sessions[id].(reclaimed := true)])
  }

  /**
   * The MediaPlayer.start hook: when the player's context can be read,
   * ensure an active session, then publish STATE_PLAYING.
   */
  function OnStart(c: Coord, hasContext: bool, faults: set<Fault>): (r: Coord)
    requires WellFormed(c)
    ensures WellFormed(r)
    ensures !hasContext ==> r == c
    ensures hasContext && LiveActive(c) ==> r.(sessions := c.sessions) == c && |r.sessions| == |c.sessions|
    ensures hasContext && LiveActive(c)
      ==> forall i :: 0 <= i < |c.sessions| ==> r.sessions[i].(playback := c.sessions[i].playback) == c.sessions[i]
    ensures hasContext ==> (r.(sessions := EnsureActive(c, faults).sessions) == EnsureActive(c, faults)
      && |r.sessions| == |EnsureActive(c, faults).sessions|)
    ensures hasContext ==> forall i :: 0 <= i < |EnsureActive(c, faults).sessions| ==>
      r.sessions[i].(playback := EnsureActive(c, faults).sessions[i].playback) == EnsureActive(c, faults).sessions[i]
    ensures hasContext && Get(EnsureActive(c, faults)).Some? && PublishFails !in faults
      ==> r.sessions[Get(EnsureActive(c, faults)).value].playback
          == Some(PlaybackState(STATE_PLAYING, PLAYBACK_POSITION_UNKNOWN, PLAYBACK_ACTIONS))
    ensures hasContext && !LiveActive(c) && CreationStores(faults) && ActivationIgnored !in faults
      ==> LiveActive(r) && r.mediaSession == Some(|c.sessions|)
  {
    if hasContext then UpdatePlayback(EnsureActive(c, faults), STATE_PLAYING, faults) else c
  }

  /** The MediaPlayer.pause hook. */
  function OnPause(c: Coord, faults: set<Fault>): (r: Coord)
    requires WellFormed(c)
    ensures WellFormed(r) && |r.sessions| == |c.sessions|
    ensures Get(c).Some? && PublishFails !in faults
      ==> r.sessions[Get(c).value].playback == Some(PlaybackState(STATE_PAUSED, PLAYBACK_POSITION_UNKNOWN, PLAYBACK_ACTIONS))
  {
    UpdatePlayback(c, STATE_PAUSED, faults)
  }

  /** The MediaPlayer.stop hook. */
  function OnStop(c: Coord, faults: set<Fault>): (r: Coord)
    requires WellFormed(c)
    ensures WellFormed(r) && |r.sessions| == |c.sessions|
    ensures Get(c).Some? && PublishFails !in faults
      ==> r.sessions[Get(c).value].playback == Some(PlaybackState(STATE_STOPPED, PLAYBACK_POSITION_UNKNOWN, PLAYBACK_ACTIONS))
  {
    UpdatePlayback(c, STATE_STOPPED, faults)
  }

  /**
   * What can happen to the coordinator: the three MediaPlayer hooks, and
   * the garbage collector reclaiming a session object.
   */
  datatype Event =
    | Start(hasContext: bool, faults: set<Fault>)
    | Pause(faults: set<Fault>)
    | Stop(faults: set<Fault>)
    | Collect(id: SessionId)

  /** One event. Reclaiming a session that was never constructed changes nothing. */
  function Step(c: Coord, e: Event): (r: Coord)
    requires WellFormed(c)
    ensures WellFormed(r)
  {
    match e
    case Start(hasContext, faults) => OnStart(c, hasContext, faults)
    case Pause(faults) => OnPause(c, faults)
    case Stop(faults) => OnStop(c, faults)
    case Collect(id) => if id < |c.sessions| then Reclaim(c, id) else c
  }

  /** A sequence of events, in order. */
  function Run(c: Coord, events: seq<Event>): (r: Coord)
    requires WellFormed(c)
    ensures WellFormed(r)
    decreases |events|
  {
    if events == [] then c else Run(Step(c, events[0]), events[1..])
  }
}
