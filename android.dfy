/**
 * The Android platform constants the module relies on, with the values the
 * platform's public API gives them.
 */
module Android {
  // android.media.AudioAttributes usages
  const USAGE_UNKNOWN: int := 0
  const USAGE_MEDIA: int := 1
  const USAGE_ASSISTANCE_NAVIGATION_GUIDANCE: int := 12

  // android.media.AudioManager modes
  const MODE_IN_COMMUNICATION: int := 3

  // android.media.session.PlaybackState states
  const STATE_STOPPED: int := 1
  const STATE_PAUSED: int := 2
  const STATE_PLAYING: int := 3

  // android.media.session.PlaybackState actions (a Java long bit mask)
  const ACTION_STOP: bv64 := 1
  const ACTION_PAUSE: bv64 := 2
  const ACTION_PLAY: bv64 := 4
  const ACTION_PLAY_PAUSE: bv64 := 512

  const PLAYBACK_POSITION_UNKNOWN: int := -1
}
