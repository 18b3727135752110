/** The state of one compatibility change: its immutable default-setting flags, the
    per-package overrides that force it on or off, the deferred overrides that take
    effect once a package is installed, and the one listener told about override
    changes. The class is not thread safe; callers serialise access, so every
    operation below is a sequential state update. */
module Compat {
  import opened Wrappers

  /** The two fields of an application's info that the decision reads. A null
      ApplicationInfo is `None` where one is passed. */
  datatype ApplicationInfo = ApplicationInfo(packageName: string, targetSdkVersion: int)

  /** A registered ChangeListener, identified by the object it is. */
  datatype ChangeListener = ChangeListener(id: nat)

  /** One call of `onCompatChange(packageName)` on a listener. */
  datatype Notification = Notification(listener: ChangeListener, packageName: string)

  /** The exceptions the mutators throw. */
  datatype CompatError =
    | LoggingOnlyOverride        // IllegalArgumentException: overrides on a logging-only change
    | ListenerAlreadyRegistered  // IllegalStateException: a second registerListener

  /** The value of `enableSinceTargetSdk` meaning "no target SDK restriction". */
  const NO_TARGET_SDK_RESTRICTION: int := -1

  /** The calls that notifying `listener` about package `p` makes: one call when a
      listener is registered, none otherwise. */
  function NotificationsFor(listener: Option<ChangeListener>, p: string): (calls: seq<Notification>)
    ensures listener.None? <==> calls == []
    ensures listener.Some? ==> calls == [Notification(listener.value, p)]
  {
    match listener
    case None => []
    case Some(l) => [Notification(l, p)]
  }

  class CompatChange {
    const changeId: int
    const enableSinceTargetSdk: int
    const disabled: bool
    const loggingOnly: bool

    var listener: Option<ChangeListener>
    /** The regular overrides; `None` while the map has not been allocated. */
    var packageOverrides: Option<map<string, bool>>
    /** The deferred overrides; `None` while the map has not been allocated. */
    var deferredOverrides: Option<map<string, bool>>
    /** Every `onCompatChange` call made so far, in order. */
    ghost var notifications: seq<Notification>

    /** The regular overrides as a map, an unallocated map read as empty. */
    function Overrides(): map<string, bool>
      reads this
    {
      packageOverrides.GetOr(map[])
    }

    /** The deferred overrides as a map, an unallocated map read as empty. */
    function DeferredOverrides(): map<string, bool>
      reads this
    {
      deferredOverrides.GetOr(map[])
    }

    /** Neither override can be added to a logging-only change, so it never holds one. */
    ghost predicate Valid()
      reads this
    {
      loggingOnly ==> Overrides() == map[] && DeferredOverrides() == map[]
    }

    /** `CompatChange(long changeId)`: no name, no target SDK restriction, enabled,
        not logging-only. */
    constructor OfId(changeId: int)
      ensures this.changeId == changeId
      ensures enableSinceTargetSdk == NO_TARGET_SDK_RESTRICTION && !disabled && !loggingOnly
      ensures listener.None? && packageOverrides.None? && deferredOverrides.None?
      ensures notifications == []
      ensures Valid()
    {
      this.changeId := changeId;
      enableSinceTargetSdk := NO_TARGET_SDK_RESTRICTION;
      disabled := false;
      loggingOnly := false;
      listener := None;
      packageOverrides := None;
      deferredOverrides := None;
      notifications := [];
    }

    /** The full constructor, restricted to the settings the decisions read. */
    constructor (changeId: int, enableSinceTargetSdk: int, disabled: bool, loggingOnly: bool)
      ensures this.changeId == changeId && this.enableSinceTargetSdk == enableSinceTargetSdk
      ensures this.disabled == disabled && this.loggingOnly == loggingOnly
      ensures listener.None? && packageOverrides.None? && deferredOverrides.None?
      ensures notifications == []
      ensures Valid()
    {
      this.changeId := changeId;
      this.enableSinceTargetSdk := enableSinceTargetSdk;
      this.disabled := disabled;
      this.loggingOnly := loggingOnly;
      listener := None;
      packageOverrides := None;
      deferredOverrides := None;
      notifications := [];
    }

    /** Registers the listener; only one registration is accepted, a second fails and
        keeps the first listener. */
    method RegisterListener(l: Option<ChangeListener>) returns (outcome: Outcome<CompatError>)
      modifies this`listener
      ensures old(listener).Some? ==> outcome == Fail(ListenerAlreadyRegistered) && listener == old(listener)
      ensures old(listener).None? ==> outcome == Pass && listener == l
    {
      if listener.Some? {
        return Fail(ListenerAlreadyRegistered);
      }
      listener := l;
      outcome := Pass;
    }

    /** Tells the registered listener, if any, that package `p` changed. */
    method NotifyListener(p: string)
      modifies this`notifications
      ensures notifications == old(notifications) + NotificationsFor(listener, p)
    {
      if listener.Some? {
        notifications := notifications + [Notification(listener.value, p)];
      }
    }

    /** Forces the change on or off for package `p`. Refused on a logging-only change,
        which keeps both maps and the notification log as they were. On success `p`
        has exactly this override, whatever the flags say, the listener is told once,
        and no other package's entry moves. */
    method AddPackageOverride(p: string, enabled: bool) returns (outcome: Outcome<CompatError>)
      requires Valid()
      modifies this`packageOverrides, this`notifications
      ensures Valid()
      ensures loggingOnly ==> outcome == Fail(LoggingOnlyOverride)
      ensures loggingOnly ==> packageOverrides == old(packageOverrides) && notifications == old(notifications)
      ensures !loggingOnly ==> outcome == Pass && packageOverrides.Some?
      ensures !loggingOnly ==> Overrides() == old(Overrides())[p := enabled]
      ensures !loggingOnly ==> notifications == old(notifications) + NotificationsFor(listener, p)
      ensures !loggingOnly ==> HasOverride(p)
      ensures !loggingOnly ==> forall sdk :: IsEnabled(Some(ApplicationInfo(p, sdk))) == enabled
    {
      if loggingOnly {
        return Fail(LoggingOnlyOverride);
      }
      if packageOverrides.None? {
        packageOverrides := Some(map[]);
      }
      packageOverrides := Some(packageOverrides.value[p := enabled]);
      NotifyListener(p);
      outcome := Pass;
    }

    /** Tentatively sets the change for package `p`, to take effect once the package is
        installed. Refused on a logging-only change; never notifies the listener. */
    method AddPackageDeferredOverride(p: string, enabled: bool) returns (outcome: Outcome<CompatError>)
      requires Valid()
      modifies this`deferredOverrides
      ensures Valid()
      ensures loggingOnly ==> outcome == Fail(LoggingOnlyOverride) && deferredOverrides == old(deferredOverrides)
      ensures !loggingOnly ==> outcome == Pass && deferredOverrides.Some?
      ensures !loggingOnly ==> DeferredOverrides() == old(DeferredOverrides())[p := enabled]
      ensures !loggingOnly ==> HasDeferredOverride(p) && WillBeEnabled(p) == enabled
    {
      if loggingOnly {
        return Fail(LoggingOnlyOverride);
      }
      if deferredOverrides.None? {
        deferredOverrides := Some(map[]);
      }
      deferredOverrides := Some(deferredOverrides.value[p := enabled]);
      outcome := Pass;
    }

    /** Re-evaluates the overrides of `p` against the policy. An allowed deferred
        override is promoted to a regular one with the same value; otherwise a regular
        override that is no longer allowed is demoted to a deferred one. Each of these
        notifies once and reports that caches must be invalidated; in every other case
        nothing changes and the answer is false. */
    method RecheckOverride(p: string, allowed: bool) returns (invalidated: bool)
      requires Valid()
      modifies this`packageOverrides, this`deferredOverrides, this`notifications
      ensures Valid()
      ensures invalidated <==> (allowed && p in old(DeferredOverrides())) || (!allowed && p in old(Overrides()))
      ensures allowed && p in old(DeferredOverrides()) ==>
        && DeferredOverrides() == old(DeferredOverrides()) - {p}
        && Overrides() == old(Overrides())[p := old(DeferredOverrides())[p]]
        && notifications == old(notifications) + NotificationsFor(listener, p)
        && forall sdk :: IsEnabled(Some(ApplicationInfo(p, sdk))) == old(WillBeEnabled(p))
      ensures !allowed && p in old(Overrides()) ==>
        && Overrides() == old(Overrides()) - {p}
        && DeferredOverrides() == old(DeferredOverrides())[p := old(Overrides())[p]]
        && notifications == old(notifications) + NotificationsFor(listener, p)
      ensures !invalidated ==>
        && packageOverrides == old(packageOverrides)
        && deferredOverrides == old(deferredOverrides)
        && notifications == old(notifications)
    {
      if HasDeferredOverride(p) && allowed {
        var overrideValue := deferredOverrides.value[p];
        deferredOverrides := Some(deferredOverrides.value - {p});
        var outcome := AddPackageOverride(p, overrideValue);
        return true;
      }
      if HasOverride(p) && !allowed {
        var overrideValue := packageOverrides.value[p];
        packageOverrides := Some(packageOverrides.value - {p});
        var outcome := AddPackageDeferredOverride(p, overrideValue);
        NotifyListener(p);
        return true;
      }
      return false;
    }

    /** Restores the default behaviour for `p`: afterwards `p` is in neither map and the
        other packages keep their entries. The listener is told exactly when a regular
        override for `p` existed. */
    method RemovePackageOverride(p: string)
      requires Valid()
      modifies this`packageOverrides, this`deferredOverrides, this`notifications
      ensures Valid()
      ensures Overrides() == old(Overrides()) - {p}
      ensures DeferredOverrides() == old(DeferredOverrides()) - {p}
      ensures packageOverrides.Some? == old(packageOverrides).Some?
      ensures deferredOverrides.Some? == old(deferredOverrides).Some?
      ensures notifications == old(notifications) + (if p in old(Overrides()) then NotificationsFor(listener, p) else [])
      ensures !HasOverride(p) && !HasDeferredOverride(p) && WillBeEnabled(p) == DefaultValue()
    {
      if packageOverrides.Some? {
        if p in packageOverrides.value {
          packageOverrides := Some(packageOverrides.value - {p});
          NotifyListener(p);
        }
      }
      if deferredOverrides.Some? {
        deferredOverrides := Some(deferredOverrides.value - {p});
      }
    }

    /** Whether the change applies to `app`. A null app gets the default; otherwise a
        regular override for its package decides; otherwise a disabled change is off;
        otherwise a target SDK restriction, when there is one, decides; otherwise on. */
    function IsEnabled(app: Option<ApplicationInfo>): (r: bool)
      reads this
      ensures app.None? ==> r == DefaultValue()
      ensures app.Some? && app.value.packageName in Overrides() ==> r == Overrides()[app.value.packageName]
      ensures app.Some? && app.value.packageName !in Overrides() ==>
        (r <==> !disabled && (enableSinceTargetSdk == NO_TARGET_SDK_RESTRICTION
                              || app.value.targetSdkVersion >= enableSinceTargetSdk))
    {
      if app.None? then DefaultValue()
      else if packageOverrides.Some? && app.value.packageName in packageOverrides.value then
        packageOverrides.value[app.value.packageName]
      else if disabled then false
      else if enableSinceTargetSdk != NO_TARGET_SDK_RESTRICTION then
        app.value.targetSdkVersion >= enableSinceTargetSdk
      else true
    }

    /** Whether the change will apply to package `p` once it is installed: its deferred
        override when it has one, the default otherwise. Regular overrides play no part. */
    function WillBeEnabled(p: string): (r: bool)
      reads this
      ensures p in DeferredOverrides() ==> r == DeferredOverrides()[p]
      ensures p !in DeferredOverrides() ==> r == DefaultValue()
    {
      if HasDeferredOverride(p) then deferredOverrides.value[p] else DefaultValue()
    }

    /** The setting without overrides: off exactly for a default-disabled change. */
    function DefaultValue(): (r: bool)
      ensures r <==> !disabled
    {
      !disabled
    }

    /** Whether `p` has a regular override; an unallocated map has none. */
    function HasOverride(p: string): (r: bool)
      reads this
      ensures r <==> p in Overrides()
      ensures r ==> packageOverrides.Some?
    {
      packageOverrides.Some? && p in packageOverrides.value
    }

    /** Whether `p` has a deferred override; an unallocated map has none. */
    function HasDeferredOverride(p: string): (r: bool)
      reads this
      ensures r <==> p in DeferredOverrides()
      ensures r ==> deferredOverrides.Some?
    {
      deferredOverrides.Some? && p in deferredOverrides.value
    }
  }

  /** A logging-only change holds no override of either kind, so every app gets the
      flag-determined setting and every package the default after installation. */
  lemma LoggingOnlyFollowsDefaults(c: CompatChange, p: string, sdk: int)
    requires c.Valid() && c.loggingOnly
    ensures !c.HasOverride(p) && !c.HasDeferredOverride(p)
    ensures c.WillBeEnabled(p) == c.DefaultValue()
    ensures c.IsEnabled(Some(ApplicationInfo(p, sdk))) <==>
      !c.disabled && (c.enableSinceTargetSdk == NO_TARGET_SDK_RESTRICTION || sdk >= c.enableSinceTargetSdk)
  {
  }

  /** Without an override, raising an app's target SDK never turns the change off. */
  lemma TargetSdkMonotone(c: CompatChange, p: string, lo: int, hi: int)
    requires lo <= hi && !c.HasOverride(p)
    requires c.IsEnabled(Some(ApplicationInfo(p, lo)))
    ensures c.IsEnabled(Some(ApplicationInfo(p, hi)))
  {
  }

  /** A disabled change is on for an app only through a regular override set to true. */
  lemma DisabledNeedsOverride(c: CompatChange, app: ApplicationInfo)
    requires c.disabled
    ensures c.IsEnabled(Some(app)) <==> app.packageName in c.Overrides() && c.Overrides()[app.packageName]
  {
  }
}
