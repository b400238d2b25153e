/**
 * The usage correction applied to every AudioAttributes value the target
 * application builds or hands to a player (Init.kt, fixAudioAttributes).
 */
module AudioFix {
  import opened Android

  /** The usage the module rewrites unapproved usages to. */
  const TARGET_USAGE: int := USAGE_ASSISTANCE_NAVIGATION_GUIDANCE

  /**
   * An immutable AudioAttributes value. `Builder(attributes)` copies every
   * field, so the fields other than `usage` stand for all of them.
   */
  datatype AudioAttributes = AudioAttributes(usage: int, contentType: int, flags: int)

  /** Usages that are passed through untouched. */
  predicate Approved(usage: int) {
    usage == USAGE_MEDIA || usage == TARGET_USAGE
  }

  /** Two values that agree on every field except possibly `usage`. */
  predicate SameExceptUsage(a: AudioAttributes, b: AudioAttributes) {
    a.contentType == b.contentType && a.flags == b.flags
  }

  /**
   * Returns the input itself when its usage is approved, otherwise a copy
   * whose only difference is the target usage.
   */
  function FixAudioAttributes(a: AudioAttributes): (r: AudioAttributes)
    ensures Approved(a.usage) ==> r == a
    ensures !Approved(a.usage) ==> r.usage == TARGET_USAGE
    ensures SameExceptUsage(a, r)
    ensures Approved(r.usage)
    ensures r == a <==> r.usage == a.usage
  {
    if Approved(a.usage) then a else AudioAttributes(TARGET_USAGE, a.contentType, a.flags)
  }

  /** Correcting twice is the same as correcting once. */
  lemma FixIsIdempotent(a: AudioAttributes)
    ensures FixAudioAttributes(FixAudioAttributes(a)) == FixAudioAttributes(a)
  {
  }

  /**
   * The correction is the least change that makes the usage approved:
   * any value that keeps the approved input, keeps every other field, and
   * moves an unapproved usage only to the target, is the corrected value.
   */
  lemma FixIsUniqueMinimalCorrection(a: AudioAttributes, b: AudioAttributes)
    requires Approved(a.usage) ==> b == a
    requires !Approved(a.usage) ==> b.usage == TARGET_USAGE
    requires SameExceptUsage(a, b)
    ensures b == FixAudioAttributes(a)
  {
  }

  /** An unknown usage becomes navigation guidance with nothing else changed. */
  lemma UnknownUsageBecomesNavigationGuidance(contentType: int, flags: int)
    ensures FixAudioAttributes(AudioAttributes(USAGE_UNKNOWN, contentType, flags))
         == AudioAttributes(USAGE_ASSISTANCE_NAVIGATION_GUIDANCE, contentType, flags)
  {
  }
}
