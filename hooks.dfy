/**
 * The interception layer of Init.kt: which target process is hooked, which
 * hooks are installed, and how each attribute hook and the setMode hook
 * rewrite the intercepted call.
 */
module Hooks {
  import opened AudioFix
  import opened Android

  /** The package names the module attaches to. */
  const TARGET_PACKAGES: set<string> := {"sinet.startup.inDriver"}

  /** The two compile-time switches of the companion object. */
  datatype Config = Config(requestTransientFocus: bool, suppressInCommMode: bool)

  /** The switches as shipped: focus is requested, setMode is not blocked. */
  const SHIPPED: Config := Config(true, false)

  /** Every method the module hooks. */
  datatype HookPoint =
    | BuilderBuild                       // AudioAttributes.Builder.build, after
    | MediaPlayerSetAudioAttributes      // MediaPlayer.setAudioAttributes, before
    | SoundPoolBuilderSetAudioAttributes // SoundPool.Builder.setAudioAttributes, before
    | FocusOnStart                       // MediaPlayer.start, before
    | FocusOnStop                        // MediaPlayer.stop, after
    | FocusOnRelease                     // MediaPlayer.release, after
    | SetMode                            // AudioManager.setMode, before
    | SessionOnStart                     // MediaPlayer.start, before
    | SessionOnPause                     // MediaPlayer.pause, after
    | SessionOnStop                      // MediaPlayer.stop, after

  /** Whether the package gate lets a process through. */
  function IsTargetPackage(packageName: string): (r: bool)
    ensures r <==> packageName == "sinet.startup.inDriver"
  {
    packageName in TARGET_PACKAGES
  }

  /**
   * The hook-installing functions called by handleLoadPackage, in order,
   * each given by the hooks it installs in order. Each function wraps its
   * whole body in one try, so a failure stops the rest of that group only.
   */
  function Groups(cfg: Config): (r: seq<seq<HookPoint>>)
    ensures [SetMode] in r <==> cfg.suppressInCommMode
    ensures [FocusOnStart, FocusOnStop, FocusOnRelease] in r <==> cfg.requestTransientFocus
    ensures |r| >= 4
    ensures r[0] == [BuilderBuild] && r[1] == [MediaPlayerSetAudioAttributes]
    ensures r[2] == [SoundPoolBuilderSetAudioAttributes]
    ensures r[|r| - 1] == [SessionOnStart, SessionOnPause, SessionOnStop]
    ensures |r| == 4 + (if cfg.requestTransientFocus then 1 else 0) + (if cfg.suppressInCommMode then 1 else 0)
    ensures cfg.requestTransientFocus ==> r[3] == [FocusOnStart, FocusOnStop, FocusOnRelease]
    ensures cfg.suppressInCommMode ==> r[|r| - 2] == [SetMode]
  {
    [[BuilderBuild], [MediaPlayerSetAudioAttributes], [SoundPoolBuilderSetAudioAttributes]]
    + (if cfg.requestTransientFocus then [[FocusOnStart, FocusOnStop, FocusOnRelease]] else [])
    + (if cfg.suppressInCommMode then [[SetMode]] else [])
    + [[SessionOnStart, SessionOnPause, SessionOnStop]]
  }

  /**
   * The hooks one group gets installed when hooking the points in `failing`
   * throws: everything before the first failing point.
   */
  function InstallGroup(points: seq<HookPoint>, failing: set<HookPoint>): (r: seq<HookPoint>)
    ensures |r| <= |points| && r == points[..|r|]
    ensures forall i :: 0 <= i < |r| ==> r[i] !in failing
    ensures |r| < |points| ==> points[|r|] in failing
  {
    if points == [] || points[0] in failing then []
    else [points[0]] + InstallGroup(points[1..], failing)
  }

  /** All points of all groups, in order. */
  function Flatten(groups: seq<seq<HookPoint>>): seq<HookPoint> {
    if groups == [] then [] else groups[0] + Flatten(groups[1..])
  }

  /** The hooks installed by running every group in turn. */
  function InstallAll(groups: seq<seq<HookPoint>>, failing: set<HookPoint>): (r: seq<HookPoint>)
    ensures forall i :: 0 <= i < |r| ==> r[i] !in failing
    ensures forall x :: x in r ==> x in Flatten(groups)
  {
    if groups == [] then []
    else
      var g := InstallGroup(groups[0], failing);
      assert forall x :: x in g ==> x in groups[0] by {
        forall x | x in g ensures x in groups[0] { assert x in groups[0][..|g|]; }
      }
      g + InstallAll(groups[1..], failing)
  }

  /** handleLoadPackage: the hooks installed in a process. */
  function HandleLoadPackage(packageName: string, cfg: Config, failing: set<HookPoint>): (r: seq<HookPoint>)
    ensures !IsTargetPackage(packageName) ==> r == []
    ensures forall i :: 0 <= i < |r| ==> r[i] !in failing
  {
    if !IsTargetPackage(packageName) then [] else InstallAll(Groups(cfg), failing)
  }

  /**
   * A hook point is installed when its group is enabled and neither it nor
   * a point before it in its group fails, whatever happens in other groups.
   */
  lemma {:induction false} InstalledWhenGroupPrefixSucceeds(
    groups: seq<seq<HookPoint>>, failing: set<HookPoint>, k: nat, j: nat)
    requires k < |groups| && j < |groups[k]|
    requires forall i :: 0 <= i <= j ==> groups[k][i] !in failing
    ensures groups[k][j] in InstallAll(groups, failing)
  {
    if k == 0 {
      GroupPrefixInstalled(groups[0], failing, j);
    } else {
      InstalledWhenGroupPrefixSucceeds(groups[1..], failing, k - 1, j);
    }
  }

  lemma {:induction false} GroupPrefixInstalled(points: seq<HookPoint>, failing: set<HookPoint>, j: nat)
    requires j < |points|
    requires forall i :: 0 <= i <= j ==> points[i] !in failing
    ensures j < |InstallGroup(points, failing)|
  {
    if j > 0 {
      GroupPrefixInstalled(points[1..], failing, j - 1);
    }
  }

  /** Only points of the given groups are ever installed. */
  lemma {:induction false} InstalledOnlyFromGroups(groups: seq<seq<HookPoint>>, failing: set<HookPoint>, x: HookPoint)
    requires x in InstallAll(groups, failing)
    ensures x in Flatten(groups)
  {
    if groups != [] {
      var g := InstallGroup(groups[0], failing);
      if x in g {
        assert x in groups[0][..|g|];
      } else {
        InstalledOnlyFromGroups(groups[1..], failing, x);
      }
    }
  }

  /**
   * In the target package the three attribute hooks and the session start
   * hook are installed whenever their own hooking succeeds.
   */
  lemma ShippedInstallsUnfailedHooks(failing: set<HookPoint>)
    ensures BuilderBuild !in failing ==> BuilderBuild in HandleLoadPackage("sinet.startup.inDriver", SHIPPED, failing)
    ensures MediaPlayerSetAudioAttributes !in failing
      ==> MediaPlayerSetAudioAttributes in HandleLoadPackage("sinet.startup.inDriver", SHIPPED, failing)
    ensures SoundPoolBuilderSetAudioAttributes !in failing
      ==> SoundPoolBuilderSetAudioAttributes in HandleLoadPackage("sinet.startup.inDriver", SHIPPED, failing)
    ensures FocusOnStart !in failing ==> FocusOnStart in HandleLoadPackage("sinet.startup.inDriver", SHIPPED, failing)
    ensures SessionOnStart !in failing ==> SessionOnStart in HandleLoadPackage("sinet.startup.inDriver", SHIPPED, failing)
  {
    var groups := Groups(SHIPPED);
    assert HandleLoadPackage("sinet.startup.inDriver", SHIPPED, failing) == InstallAll(groups, failing);
    if BuilderBuild !in failing { InstalledWhenGroupPrefixSucceeds(groups, failing, 0, 0); }
    if MediaPlayerSetAudioAttributes !in failing { InstalledWhenGroupPrefixSucceeds(groups, failing, 1, 0); }
    if SoundPoolBuilderSetAudioAttributes !in failing { InstalledWhenGroupPrefixSucceeds(groups, failing, 2, 0); }
    if FocusOnStart !in failing { InstalledWhenGroupPrefixSucceeds(groups, failing, 3, 0); }
    if SessionOnStart !in failing { InstalledWhenGroupPrefixSucceeds(groups, failing, |groups| - 1, 0); }
  }

  /** The shipped switches never install the setMode hook. */
  lemma ShippedNeverBlocksSetMode(packageName: string, failing: set<HookPoint>)
    ensures SetMode !in HandleLoadPackage(packageName, SHIPPED, failing)
  {
    if IsTargetPackage(packageName) {
      var groups := Groups(SHIPPED);
      assert groups == [[BuilderBuild], [MediaPlayerSetAudioAttributes], [SoundPoolBuilderSetAudioAttributes],
                        [FocusOnStart, FocusOnStop, FocusOnRelease], [SessionOnStart, SessionOnPause, SessionOnStop]];
      assert Flatten(groups[4..]) == groups[4];
      assert Flatten(groups[3..]) == groups[3] + groups[4];
      assert Flatten(groups[2..]) == groups[2] + groups[3] + groups[4];
      assert Flatten(groups[1..]) == groups[1] + groups[2] + groups[3] + groups[4];
      assert Flatten(groups) == [BuilderBuild, MediaPlayerSetAudioAttributes, SoundPoolBuilderSetAudioAttributes,
                                 FocusOnStart, FocusOnStop, FocusOnRelease,
                                 SessionOnStart, SessionOnPause, SessionOnStop];
      if SetMode in InstallAll(groups, failing) {
        InstalledOnlyFromGroups(groups, failing, SetMode);
      }
    }
  }

  /** A point in none of the groups is in none of their flattening. */
  lemma {:induction false} AbsentFromFlatten(groups: seq<seq<HookPoint>>, x: HookPoint)
    requires forall k :: 0 <= k < |groups| ==> x !in groups[k]
    ensures x !in Flatten(groups)
  {
    if groups != [] {
      AbsentFromFlatten(groups[1..], x);
    }
  }

  /**
   * For any switches, the setMode hook is installed only when suppression
   * is on, and in the target package it is installed whenever suppression
   * is on and hooking setMode succeeds.
   */
  lemma SetModeHookedExactlyWhenSuppressed(packageName: string, cfg: Config, failing: set<HookPoint>)
    ensures SetMode in HandleLoadPackage(packageName, cfg, failing) ==> cfg.suppressInCommMode
    ensures IsTargetPackage(packageName) && cfg.suppressInCommMode && SetMode !in failing
      ==> SetMode in HandleLoadPackage(packageName, cfg, failing)
  {
    var groups := Groups(cfg);
    if IsTargetPackage(packageName) {
      if cfg.suppressInCommMode {
        if SetMode !in failing {
          InstalledWhenGroupPrefixSucceeds(groups, failing, |groups| - 2, 0);
        }
      } else if SetMode in InstallAll(groups, failing) {
        InstalledOnlyFromGroups(groups, failing, SetMode);
        AbsentFromFlatten(groups, SetMode);
      }
    }
  }

  /** An argument or result slot of an intercepted call. */
  datatype HookValue = Null | Attributes(attributes: AudioAttributes) | IntValue(n: int) | OtherObject

  /**
   * The mutable view a hook gets of an intercepted call. Assigning `result`
   * also sets `returnEarly`, which in a before-hook skips the original method.
   */
  datatype HookParam = HookParam(args: seq<HookValue>, result: HookValue, returnEarly: bool)

  /** The hook points the usage correction is attached to. */
  predicate IsAttributeSite(site: HookPoint) {
    site.BuilderBuild? || site.MediaPlayerSetAudioAttributes? || site.SoundPoolBuilderSetAudioAttributes?
  }

  /** The number of arguments of the hooked method. */
  function Arity(site: HookPoint): nat {
    match site
    case MediaPlayerSetAudioAttributes => 1
    case SoundPoolBuilderSetAudioAttributes => 1
    case SetMode => 1
    case _ => 0
  }

  /** The value a site's hook inspects: the built result, or the argument. */
  function Inspected(site: HookPoint, p: HookParam): HookValue
    requires IsAttributeSite(site) && |p.args| == Arity(site)
  {
    if site.BuilderBuild? then p.result else p.args[0]
  }

  /**
   * One attribute hook. The build hook inspects the built result, the two
   * setAudioAttributes hooks inspect their argument; a value is replaced by
   * its corrected form only when the correction changes its usage.
   */
  function InterceptAttributes(site: HookPoint, p: HookParam): (r: HookParam)
    requires IsAttributeSite(site) && |p.args| == Arity(site)
    ensures |r.args| == |p.args|
    ensures !Inspected(site, p).Attributes? ==> r == p
    ensures Inspected(site, p).Attributes?
      ==> Inspected(site, r) == Attributes(FixAudioAttributes(Inspected(site, p).attributes))
    ensures r != p <==> Inspected(site, p).Attributes? && !Approved(Inspected(site, p).attributes.usage)
    ensures site.BuilderBuild? ==> r.args == p.args
    ensures !site.BuilderBuild? ==> r.result == p.result && r.returnEarly == p.returnEarly
  {
    match Inspected(site, p)
    case Attributes(original) =>
      var fixed := FixAudioAttributes(original);
      if original.usage != fixed.usage then
        if site.BuilderBuild? then p.(result := Attributes(fixed), returnEarly := true)
        else p.(args := [Attributes(fixed)])
      else p
    case _ => p
  }

  /**
   * The setMode hook: a call asking for MODE_IN_COMMUNICATION gets a null
   * result and so never reaches AudioManager; every other call is untouched.
   */
  function BeforeSetMode(p: HookParam): (r: HookParam)
    requires |p.args| == Arity(SetMode)
    ensures r.args == p.args
    ensures r.returnEarly <==> p.returnEarly || p.args[0] == IntValue(MODE_IN_COMMUNICATION)
    ensures p.args[0] == IntValue(MODE_IN_COMMUNICATION) ==> r.result == Null
    ensures p.args[0] != IntValue(MODE_IN_COMMUNICATION) ==> r == p
  {
    match p.args[0]
    case IntValue(mode) =>
      if mode == MODE_IN_COMMUNICATION then p.(result := Null, returnEarly := true) else p
    case _ => p
  }
}
