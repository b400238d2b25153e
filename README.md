# InDriveAudioFix: a Dafny model of the interception core

InDriveAudioFix is an Xposed module. It attaches to the inDrive driver app (`sinet.startup.inDriver`) and does two jobs so that the app's voice prompts play properly through Android Auto:

- It rewrites the *usage* of every `AudioAttributes` value the app builds or hands to a `MediaPlayer` or `SoundPool`. Any usage other than `USAGE_MEDIA` becomes `USAGE_ASSISTANCE_NAVIGATION_GUIDANCE`.
- It keeps one `MediaSession` alive and active, together with a media notification. The session is created lazily on `MediaPlayer.start` and updated on start, pause and stop.

All of the logic lives in `Init.kt`. The model has these files:

- `audio_fix.dfy` (module `AudioFix`): `fixAudioAttributes` as a pure function over an `AudioAttributes` datatype.
- `hooks.dfy` (module `Hooks`): the package gate, the choice of hooks `handleLoadPackage` installs, the three attribute-hook adapters and the `setMode` block rule.
  - An intercepted call is a `HookParam` holding the arguments, the result and Xposed's `returnEarly` flag.
- `session_model.dfy` (module `SessionModel`): the session coordinator as a value `Coord`, with one transition function per operation.
  - `Coord` holds the `mediaSession` weak reference, the `notificationChannelCreated` flag, every `MediaSession` object constructed (its `isActive` flag, whether it is released, whether the garbage collector has reclaimed it, and its last playback state) and the session the notification was posted for.
  - Two counters, release calls and channel registrations, make the once-only properties statable.
  - `Step` and `Run` apply a sequence of events. An event is a start, pause or stop hook call, or a reclamation by the garbage collector.
- `session_properties.dfy` (module `SessionProperties`): properties of the transition functions over any event sequence.
  - Invariant: at most one reachable session is active, and it is the referenced one.
  - The channel is registered at most once.
  - Nothing goes back: a released session stays released and the channel flag is never cleared.
  - Pause and stop never release or deactivate a session.
  - A second start is a no-op.
  - Some concrete scenarios.
- `session_coordinator.dfy` (module `Coordinator`): class `SessionCoordinator` holds the companion fields. Its methods update them step by step, with the same early returns as the source. Each method's postcondition equates the new state with the matching `SessionModel` function applied to the old state. The public methods keep `Valid()`, which is the invariant above.

Every external call that can throw is modelled as a `Fault` in a `set<Fault>` parameter. Each `catch` in the source swallows the failure and keeps whatever happened before the throw: nothing is rolled back. One fault is not a throw: `MediaSession.setActive(true)` can swallow a platform error itself and leave `isActive` false (`ActivationIgnored`). This is the only way the referenced session can be live but inactive, and so the only way the "release the old session" branch of `ensureMediaSessionActive` is reached. `setActive(false)` has no such "ignored" fault, only a throwing one (`DeactivateFails`): `releaseMediaSession` is only ever reached with an inactive session (Init.kt:377-382), so its deactivation step never runs and an ignored deactivation could not change anything.

The model follows what the code does, including where that falls short of the intended design (exactly one active session, exactly one channel registration):
- `ensureMediaSessionActive` returns nothing and swallows a creation failure. After the old session is released, the field is not cleared. A failed creation therefore leaves `mediaSession` naming a released session, and the next start releases that session a second time (`SessionProperties.StaleReferenceReleasedAgain`).
- The channel is created at most once, not exactly once: if creating it fails, the flag stays false and a later session creation tries again.
- The session is held only weakly. If the garbage collector reclaims a session while it is still active, that session is never deactivated, and the next start creates a second active session (`SessionProperties.ReclaimedActiveSessionStaysActive`). So the invariant "at most one active session" covers only the sessions the coordinator can still reach.

Inputs the model takes as parameters:
- whether the player's context could be read: `hasContext`, which stands for `getPlayerContext`;
- which external calls fail: `faults`;
- the package name;
- which hook points fail to hook.

## Model

| member | source | states |
|---|---|---|
| AudioFix.FixAudioAttributes | app/src/main/java/dev/joel/indriveaudiofix/Init.kt:281-290 | an approved usage (media or navigation guidance) comes back as the same value; any other usage becomes the target usage with every other field kept; the result's usage is always approved; the value changes exactly when the usage does |
| AudioFix.FixIsIdempotent | app/src/main/java/dev/joel/indriveaudiofix/Init.kt:281-290 | correcting a corrected value changes nothing |
| AudioFix.FixIsUniqueMinimalCorrection | app/src/main/java/dev/joel/indriveaudiofix/Init.kt:282-289 | any value that keeps an approved input, keeps the other fields and moves an unapproved usage to the target is the corrected value |
| AudioFix.UnknownUsageBecomesNavigationGuidance | app/src/main/java/dev/joel/indriveaudiofix/Init.kt:32 | USAGE_UNKNOWN becomes USAGE_ASSISTANCE_NAVIGATION_GUIDANCE with content type and flags unchanged |
| Hooks.IsTargetPackage | app/src/main/java/dev/joel/indriveaudiofix/Init.kt:29-55 | only the package `sinet.startup.inDriver` passes the gate |
| Hooks.Groups | app/src/main/java/dev/joel/indriveaudiofix/Init.kt:57-70 | the hook groups in order: build, MediaPlayer and SoundPool attribute hooks first, then the focus group exactly when focus is requested, then the setMode group exactly when in-communication mode is suppressed, the session hooks last; no other group |
| Hooks.InstallGroup | app/src/main/java/dev/joel/indriveaudiofix/Init.kt:169-200 | a group installs a prefix of its hooks, none of them failing, stopping at the first hook that fails |
| Hooks.InstallAll | app/src/main/java/dev/joel/indriveaudiofix/Init.kt:57-70 | running every hook group in turn installs only hooks of those groups, and none whose hooking failed |
| Hooks.HandleLoadPackage | app/src/main/java/dev/joel/indriveaudiofix/Init.kt:54-76 | nothing is installed outside the target package; no hook whose hooking failed is installed |
| Hooks.InstalledWhenGroupPrefixSucceeds | app/src/main/java/dev/joel/indriveaudiofix/Init.kt:57-70 | a hook is installed when neither it nor an earlier hook of its own group fails, whatever fails in the other groups |
| Hooks.InstalledOnlyFromGroups | app/src/main/java/dev/joel/indriveaudiofix/Init.kt:57-70 | every installed hook belongs to an enabled group |
| Hooks.ShippedInstallsUnfailedHooks | app/src/main/java/dev/joel/indriveaudiofix/Init.kt:35-70 | with the shipped switches, the three attribute hooks, the focus start hook and the session start hook are each installed in the target package when their own hooking succeeds |
| Hooks.ShippedNeverBlocksSetMode | app/src/main/java/dev/joel/indriveaudiofix/Init.kt:38-68 | with the shipped switches the setMode hook is never installed |
| Hooks.SetModeHookedExactlyWhenSuppressed | app/src/main/java/dev/joel/indriveaudiofix/Init.kt:66-68 | for any switches, the setMode hook is installed only when suppression is on, and in the target package it is installed whenever suppression is on and hooking setMode succeeds |
| Hooks.InterceptAttributes | app/src/main/java/dev/joel/indriveaudiofix/Init.kt:92-157 | the build hook (result) and the two setAudioAttributes hooks (argument) see the corrected attributes; the call is changed exactly when it carries attributes with an unapproved usage; a non-attributes value and everything else are left alone |
| Hooks.BeforeSetMode | app/src/main/java/dev/joel/indriveaudiofix/Init.kt:213-220 | the original setMode is skipped with a null result exactly when the argument is MODE_IN_COMMUNICATION; any other call is untouched |
| SessionModel.Get | app/src/main/java/dev/joel/indriveaudiofix/Init.kt:374 | the weak reference yields the stored session unless it has been reclaimed |
| SessionModel.Release | app/src/main/java/dev/joel/indriveaudiofix/Init.kt:442-452 | deactivates an active session, then releases it; a throw keeps what was already done; the companion field and the other sessions are unchanged |
| SessionModel.EnsureChannel | app/src/main/java/dev/joel/indriveaudiofix/Init.kt:483-513 | nothing happens once the flag is set; otherwise the flag becomes true exactly when registration succeeds, and the registration count grows by one exactly when the flag flips |
| SessionModel.PostNotification | app/src/main/java/dev/joel/indriveaudiofix/Init.kt:518-548 | posts the notification for the given session unless posting fails; nothing else changes |
| SessionModel.Create | app/src/main/java/dev/joel/indriveaudiofix/Init.kt:392-437 | a constructor throw changes nothing; a later configuration throw leaves one more, inactive session and the companion fields unchanged; otherwise the new session is stored (active unless activation was ignored), then channel registration and notification follow; the notified session changes only when the session is stored and posting succeeds |
| SessionModel.EnsureActive | app/src/main/java/dev/joel/indriveaudiofix/Init.kt:372-387 | a no-op while the referenced session is live and active; otherwise the live stale session is released and a new session becomes the referenced, active one, the channel flag is set unless registration fails (one more registration exactly when it flips) and the notification names the new session unless posting fails; a constructor throw constructs nothing; a configuration throw leaves one more session, inactive and unreferenced; the stale session only gains `released` (unless its release throws); on a creation failure the field keeps its old (released) value and the channel state and notification are unchanged; every other session is untouched; the release count grows by one exactly when a stale session's release returns |
| SessionModel.UpdatePlayback | app/src/main/java/dev/joel/indriveaudiofix/Init.kt:457-478 | no change without a live referenced session; otherwise only that session's playback state becomes (state, unknown position, PLAY, PAUSE, STOP and PLAY_PAUSE) |
| SessionModel.Reclaim | app/src/main/java/dev/joel/indriveaudiofix/Init.kt:46-47 | reclamation hides one session from the weak reference and changes nothing else |
| SessionModel.OnStart | app/src/main/java/dev/joel/indriveaudiofix/Init.kt:243-247 | without a context nothing happens; otherwise the state is that of ensureMediaSessionActive with only playback states changed, and STATE_PLAYING (unknown position, fixed actions) is published to the live session unless publishing fails; with a live active session nothing but playback states changes; otherwise a stored, activated creation leaves a new live active referenced session |
| SessionModel.OnPause | app/src/main/java/dev/joel/indriveaudiofix/Init.kt:257-258 | publishes STATE_PAUSED to the live session |
| SessionModel.OnStop | app/src/main/java/dev/joel/indriveaudiofix/Init.kt:268-269 | publishes STATE_STOPPED to the live session |
| SessionModel.Step | app/src/main/java/dev/joel/indriveaudiofix/Init.kt:239-272 | each hooked MediaPlayer call or reclamation keeps the state well formed |
| SessionModel.Run | app/src/main/java/dev/joel/indriveaudiofix/Init.kt:231-276 | any sequence of events keeps the state well formed |
| SessionProperties.EnsureActiveKeepsInv | app/src/main/java/dev/joel/indriveaudiofix/Init.kt:372-387 | ensureMediaSessionActive keeps at most one reachable active session (the referenced one), released sessions inactive, and one registration exactly when the flag is set |
| SessionProperties.UpdatePlaybackKeepsInv | app/src/main/java/dev/joel/indriveaudiofix/Init.kt:457-478 | updatePlaybackState keeps the invariant |
| SessionProperties.StepKeepsInv | app/src/main/java/dev/joel/indriveaudiofix/Init.kt:239-272 | every event keeps the invariant |
| SessionProperties.RunKeepsInv | app/src/main/java/dev/joel/indriveaudiofix/Init.kt:231-276 | every event sequence keeps the invariant |
| SessionProperties.AtMostOneActiveSession | app/src/main/java/dev/joel/indriveaudiofix/Init.kt:372-387 | after any events from a fresh process, two reachable active sessions are the same session, and it is the referenced one |
| SessionProperties.ChannelRegisteredAtMostOnce | app/src/main/java/dev/joel/indriveaudiofix/Init.kt:483-513 | after any events the notification channel has been created at most once, and once exactly when the flag is set |
| SessionProperties.StepMonotone | app/src/main/java/dev/joel/indriveaudiofix/Init.kt:239-272 | no event removes a session, un-releases one, un-reclaims one or clears the channel flag |
| SessionProperties.RunMonotone | app/src/main/java/dev/joel/indriveaudiofix/Init.kt:231-276 | the same over any event sequence |
| SessionProperties.ReleasedStaysReleased | app/src/main/java/dev/joel/indriveaudiofix/Init.kt:442-452 | a released session stays released, and inactive, for ever |
| SessionProperties.ChannelFlagNeverReverts | app/src/main/java/dev/joel/indriveaudiofix/Init.kt:485-506 | once set, the channel flag stays set and the channel is never registered again |
| SessionProperties.UpdatePlaybackKeepsLifecycle | app/src/main/java/dev/joel/indriveaudiofix/Init.kt:457-478 | updatePlaybackState changes no activation, release or reclamation status and no companion field |
| SessionProperties.PauseAndStopKeepSessions | app/src/main/java/dev/joel/indriveaudiofix/Init.kt:252-272 | any sequence of pauses and stops constructs, deactivates and releases nothing |
| SessionProperties.SecondStartIsNoOp | app/src/main/java/dev/joel/indriveaudiofix/Init.kt:374-379 | after a start that stored an activated session, another start constructs and releases nothing |
| SessionProperties.StartPauseStopKeepsSessionActive | app/src/main/java/dev/joel/indriveaudiofix/Init.kt:243-269 | start, pause, stop from a fresh process: one session, still active and unreleased, last state STOPPED, channel registered once |
| SessionProperties.PauseWithoutSessionIsNoOp | app/src/main/java/dev/joel/indriveaudiofix/Init.kt:459 | pause or stop before any start changes nothing |
| SessionProperties.StaleReferenceReleasedAgain | app/src/main/java/dev/joel/indriveaudiofix/Init.kt:382-436 | after an ignored activation and a failed creation, the field still names the released first session, and the next start releases it again before storing a new active one |
| SessionProperties.ReclaimedActiveSessionStaysActive | app/src/main/java/dev/joel/indriveaudiofix/Init.kt:47 | a session reclaimed while active stays active beside the new one |
| Coordinator.SessionCoordinator.constructor | app/src/main/java/dev/joel/indriveaudiofix/Init.kt:46-51 | null reference, flag false, nothing constructed |
| Coordinator.SessionCoordinator.Get | app/src/main/java/dev/joel/indriveaudiofix/Init.kt:374 | returns what the weak reference yields |
| Coordinator.SessionCoordinator.EnsureMediaSessionActive | app/src/main/java/dev/joel/indriveaudiofix/Init.kt:372-387 | new state is EnsureActive of the old; keeps the invariant; unchanged while a live active session exists |
| Coordinator.SessionCoordinator.CreateMediaSession | app/src/main/java/dev/joel/indriveaudiofix/Init.kt:392-437 | new state is Create of the old |
| Coordinator.SessionCoordinator.ReleaseMediaSession | app/src/main/java/dev/joel/indriveaudiofix/Init.kt:442-452 | new state is Release of the old |
| Coordinator.SessionCoordinator.UpdatePlaybackState | app/src/main/java/dev/joel/indriveaudiofix/Init.kt:457-478 | new state is UpdatePlayback of the old; keeps the invariant and both companion fields |
| Coordinator.SessionCoordinator.EnsureNotificationChannel | app/src/main/java/dev/joel/indriveaudiofix/Init.kt:483-513 | new state is EnsureChannel of the old |
| Coordinator.SessionCoordinator.CreateMediaNotification | app/src/main/java/dev/joel/indriveaudiofix/Init.kt:518-548 | new state is PostNotification of the old |
| Coordinator.SessionCoordinator.OnPlayerStart | app/src/main/java/dev/joel/indriveaudiofix/Init.kt:243-247 | new state is OnStart of the old; keeps the invariant |
| Coordinator.SessionCoordinator.OnPlayerPause | app/src/main/java/dev/joel/indriveaudiofix/Init.kt:257-258 | new state is OnPause of the old; keeps the invariant |
| Coordinator.SessionCoordinator.OnPlayerStop | app/src/main/java/dev/joel/indriveaudiofix/Init.kt:268-269 | new state is OnStop of the old; keeps the invariant |
| Coordinator.SessionCoordinator.Collect | app/src/main/java/dev/joel/indriveaudiofix/Init.kt:47 | new state is Reclaim of the old; keeps the invariant |
| Coordinator.StartTwicePauseStop | app/src/main/java/dev/joel/indriveaudiofix/Init.kt:243-269 | two starts, a pause and a stop leave one active, unreleased session, no release call, one channel registration, last state STOPPED |

## Left out

- Audio focus (`requestTransientFocus`, `abandonFocus`, Init.kt:295-355): stateless calls into `AudioManager`, each wrapped in its own try/catch. Only the installation of their hooks is modelled.
- The order in which Xposed runs the two `MediaPlayer.start` before-hooks (focus and session) is not modelled.
- Xposed itself: `findClass`, `findAndHookMethod`, `MethodHookParam` and the reflection in `getPlayerContext`. A hooked call is a `HookParam` value. A failure to hook is a member of the `failing` set. Whether the player's context could be read is the `hasContext` parameter.
- Concurrency: `@Volatile`, `synchronized(sessionLock)` and the unsynchronised fast path of the double-checked channel registration. The model is one sequential thread, where the two checks are one check.
- How the MediaSession and the notification are built (flags, the `setPlaybackToLocal` attributes, callbacks, titles, icons, `MediaStyle`, the channel's name and importance). Creation is three abstract steps that may fail: construction, configuration, activation.
- Notification posting: only whether it succeeded and which session it names are modelled. What the platform does with a notification whose channel is missing is not modelled.
- Branches for SDK versions below 26: the minimum SDK is 26, so they are dead code.
- The playback speed `1.0f` (floating point) and all logging.
- AudioFix.FixAudioAttributes: `AudioAttributes` is reduced to usage, content type and flags. The other fields that `Builder(attributes)` copies (tags, capture preset, bundle) are not modelled, and neither are the platform's own normalisations inside `Builder.build()`.
- A `param.result` or `param.args[0]` that is not an `AudioAttributes` (or, for setMode, not an `Int`) is a `HookValue` other than `Attributes` (or `IntValue`). The hook leaves such a call alone, as the source's `as? … ?: return` does.
- The Gradle build files hold no logic.
