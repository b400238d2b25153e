/**
 * The companion object of Init.kt as an object with mutable fields: the
 * weak reference `mediaSession`, the write-once `notificationChannelCreated`,
 * and the MediaSession objects it has constructed. Each method updates the
 * fields step by step as the source does; its postcondition ties the new
 * state to the transition function of SessionModel, whose properties
 * SessionProperties proves.
 */
module Coordinator {
  import opened Wrappers
  import opened Android
  import opened SessionModel
  import SessionProperties

  class SessionCoordinator {
    /** The weak reference; `None` is a null field. */
    var mediaSession: Option<SessionId>
    var notificationChannelCreated: bool
    /** The MediaSession objects constructed so far, by construction order. */
    var sessions: seq<Session>
    /** The session the media notification (id 9876) was last posted for. */
    var notifiedSession: Option<SessionId>
    ghost var releaseCalls: nat
    ghost var channelRegistrations: nat

    /** The state as a value. */
    ghost function Model(): Coord
      reads this
    {
      Coord(mediaSession, notificationChannelCreated, sessions, notifiedSession, releaseCalls, channelRegistrations)
    }

    ghost predicate Valid()
      reads this
    {
      Inv(Model())
    }

    /** The companion object at class-load time. */
    constructor ()
      ensures Valid() && Model() == INITIAL
    {
      mediaSession := None;
      notificationChannelCreated := false;
      sessions := [];
      notifiedSession := None;
      releaseCalls := 0;
      channelRegistrations := 0;
    }

    /** `mediaSession?.get()`. */
    method Get() returns (session: Option<SessionId>)
      requires WellFormed(Model())
      ensures session == SessionModel.Get(Model())
      ensures session.Some? ==> session.value < |sessions| && !sessions[session.value].reclaimed
    {
      session := None;
      if mediaSession.Some? && !sessions[mediaSession.value].reclaimed {
        session := mediaSession;
      }
    }

    /** ensureMediaSessionActive. */
    method EnsureMediaSessionActive(faults: set<Fault>)
      requires Valid()
      modifies this
      ensures Valid()
      ensures Model() == EnsureActive(old(Model()), faults)
      ensures old(LiveActive(Model())) ==> Model() == old(Model())
    {
      var session := Get();
      if session.Some? && sessions[session.value].active {
        return;
      }
      ghost var before := Model();
      if session.Some? {
        ReleaseMediaSession(session.value, faults);
      }
      CreateMediaSession(faults);
      SessionProperties.EnsureActiveKeepsInv(before, faults);
    }

    /** createMediaSession. */
    method CreateMediaSession(faults: set<Fault>)
      requires WellFormed(Model())
      modifies this
      ensures Model() == Create(old(Model()), faults)
    {
      if ConstructFails in faults {
        return;
      }
      var id := |sessions|;
      sessions := sessions + [FRESH_SESSION];
      if ConfigureFails in faults {
        return;
      }
      if ActivationIgnored !in faults {
        sessions := sessions[id := sessions[id].(active := true)];
      }
      mediaSession := Some(id);
      EnsureNotificationChannel(faults);
      CreateMediaNotification(id, faults);
    }

    /** releaseMediaSession. */
    method ReleaseMediaSession(id: SessionId, faults: set<Fault>)
      requires WellFormed(Model()) && id < |sessions|
      modifies this
      ensures Model() == Release(old(Model()), id, faults)
    {
      if sessions[id].active {
        if DeactivateFails in faults {
          return;
        }
        sessions := sessions[id := sessions[id].(active := false)];
      }
      if ReleaseFails in faults {
        return;
      }
      sessions := sessions[id := sessions[id].(released := true)];
      releaseCalls := releaseCalls + 1;
    }

    /** updatePlaybackState. */
    method UpdatePlaybackState(state: int, faults: set<Fault>)
      requires Valid()
      modifies this
      ensures Valid()
      ensures Model() == UpdatePlayback(old(Model()), state, faults)
      ensures mediaSession == old(mediaSession) && notificationChannelCreated == old(notificationChannelCreated)
    {
      var session := Get();
      if session.None? {
        return;
      }
      if PublishFails in faults {
        return;
      }
      var id := session.value;
      ghost var before := Model();
      var published := PlaybackState(state, PLAYBACK_POSITION_UNKNOWN, PLAYBACK_ACTIONS);
      sessions := sessions[id := sessions[id].(playback := Some(published))];
      SessionProperties.UpdatePlaybackKeepsInv(before, state, faults);
    }

    /**
     * ensureNotificationChannel. In a single thread the check before the
     * lock and the check under it are one check.
     */
    method EnsureNotificationChannel(faults: set<Fault>)
      modifies this
      ensures Model() == EnsureChannel(old(Model()), faults)
    {
      if notificationChannelCreated {
        return;
      }
      if ChannelFails in faults {
        return;
      }
      notificationChannelCreated := true;
      channelRegistrations := channelRegistrations + 1;
    }

    /** createMediaNotification. */
    method CreateMediaNotification(id: SessionId, faults: set<Fault>)
      modifies this
      ensures Model() == PostNotification(old(Model()), id, faults)
    {
      if NotifyFails in faults {
        return;
      }
      notifiedSession := Some(id);
    }

    /** The MediaPlayer.start hook. */
    method OnPlayerStart(hasContext: bool, faults: set<Fault>)
      requires Valid()
      modifies this
      ensures Valid()
      ensures Model() == OnStart(old(Model()), hasContext, faults)
    {
      if hasContext {
        EnsureMediaSessionActive(faults);
        UpdatePlaybackState(STATE_PLAYING, faults);
      }
    }

    /** The MediaPlayer.pause hook. */
    method OnPlayerPause(faults: set<Fault>)
      requires Valid()
      modifies this
      ensures Valid()
      ensures Model() == OnPause(old(Model()), faults)
    {
      UpdatePlaybackState(STATE_PAUSED, faults);
    }

    /** The MediaPlayer.stop hook. */
    method OnPlayerStop(faults: set<Fault>)
      requires Valid()
      modifies this
      ensures Valid()
      ensures Model() == OnStop(old(Model()), faults)
    {
      UpdatePlaybackState(STATE_STOPPED, faults);
    }

    /** The garbage collector reclaims a session object. */
    method Collect(id: SessionId)
      requires Valid() && id < |sessions|
      modifies this
      ensures Valid()
      ensures Model() == Reclaim(old(Model()), id)
    {
      sessions := sessions[id := sessions[id].(reclaimed := true)];
    }
  }

  /**
   * A client: two starts in a row construct one session and release none,
   * and pause and stop leave it active.
   */
  method StartTwicePauseStop() returns (c: SessionCoordinator)
    ensures c.Valid() && |c.sessions| == 1 && c.sessions[0].active && !c.sessions[0].released
    ensures c.releaseCalls == 0 && c.channelRegistrations == 1
    ensures c.sessions[0].playback == Some(PlaybackState(STATE_STOPPED, PLAYBACK_POSITION_UNKNOWN, PLAYBACK_ACTIONS))
  {
    c := new SessionCoordinator();
    c.OnPlayerStart(true, {});
    c.OnPlayerStart(true, {});
    c.OnPlayerPause({});
    c.OnPlayerStop({});
  }
}
