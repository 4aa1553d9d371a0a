/**
 * The named actions the graph refers to: the context assignments (pure
 * functions of context and event) and the side-effecting hooks, which the
 * model records by name in an effect log instead of performing.
 */
module ProfilerActions {
  import opened Wrappers
  import opened ProfilerTypes

  /** The names the graph uses to refer to actions, bound once by the host. */
  datatype ActionName =
    // context assignments
    | HandleTrackingOption
    | AssignOptInDataSharing
    | HandleCountries
    | AssignUserProfile            // inline assign of userProfile
    | AssignBusinessInfo           // inline assign of businessInfo (both steps)
    | FilterExtensionsAvailable    // inline exit assign of preExtensions
    // side-effecting hooks
    | UpdateTrackingOption
    | RecordTracksIntroViewed
    | RecordTracksIntroCompleted
    | RecordTracksIntroSkipped
    | RecordTracksSkipBusinessLocationViewed
    | RecordTracksSkipBusinessLocationCompleted
    | RedirectToWooHome

  predicate IsAssignment(a: ActionName)
  {
    a.HandleTrackingOption? || a.AssignOptInDataSharing? || a.HandleCountries?
    || a.AssignUserProfile? || a.AssignBusinessInfo? || a.FilterExtensionsAvailable?
  }

  /** What the engine does that the outside world sees: a hook fired with
      the event that triggered it, or an invoked service started. */
  datatype Effect =
    | Fired(action: ActionName, trigger: Event)
    | Started(service: Service)

  /** The conversion from the store's country list to code -> name options;
      it lives outside this model and is supplied by the caller. */
  type CountryOptions = seq<Country> -> map<string, string>

  /** The stored value of the allow-tracking option: anything but "no" opts in. */
  function AllowsTracking(stored: Option<string>): (b: bool)
    ensures b <==> stored != Some("no")
  {
    match stored
    case None => true
    case Some(v) => v != "no"
  }

  /** The value updateTrackingOption writes back to the allow-tracking option. */
  function TrackingValue(optIn: bool): (v: string)
    ensures v == "yes" || v == "no"
    ensures v == "no" <==> !optIn
  {
    if optIn then "yes" else "no"
  }

  /** The payload's opt-in flag of an intro event. */
  function IntroOptInOf(ev: Event): Option<bool>
  {
    match ev
    case IntroCompleted(b) => Some(b)
    case IntroSkipped(b) => Some(b)
    case _ => None
  }

  /** `handleTrackingOption`: sets the opt-in flag from the loaded option. */
  function ApplyHandleTrackingOption(c: Context, ev: Event): (r: Context)
    ensures r.(optInDataSharing := c.optInDataSharing) == c
    ensures ev.AllowTrackingResolved? ==> r.optInDataSharing == (ev.stored != Some("no"))
    ensures !ev.AllowTrackingResolved? ==> r == c
  {
    match ev
    case AllowTrackingResolved(data) => c.(optInDataSharing := AllowsTracking(data))
    case _ => c
  }

  /** `assignOptInDataSharing`: copies the intro event's opt-in flag. */
  function ApplyAssignOptInDataSharing(c: Context, ev: Event): (r: Context)
    ensures r.(optInDataSharing := c.optInDataSharing) == c
    ensures ev.IntroCompleted? ==> r.optInDataSharing == ev.optInDataSharing
    ensures ev.IntroSkipped? ==> !r.optInDataSharing
    ensures !ev.IntroCompleted? && !ev.IntroSkipped? ==> r == c
  {
    match IntroOptInOf(ev)
    case Some(b) => c.(optInDataSharing := b)
    case None => c
  }

  /** `handleCountries`: converts the loaded country list to options. */
  function ApplyHandleCountries(c: Context, ev: Event, options: CountryOptions): (r: Context)
    ensures r.(countries := c.countries) == c
    ensures ev.CountriesResolved? ==> r.countries == options(ev.countryList)
    ensures !ev.CountriesResolved? ==> r == c
  {
    match ev
    case CountriesResolved(list) => c.(countries := options(list))
    case _ => c
  }

  /** The inline `assign` of `userProfile` on both user-profile events. */
  function ApplyAssignUserProfile(c: Context, ev: Event): (r: Context)
    ensures r.(userProfile := c.userProfile) == c
    ensures ev.UserProfileCompleted? ==> r.userProfile == ev.profile
    ensures ev.UserProfileSkipped? ==> r.userProfile == ProfileSkipped
    ensures !ev.UserProfileCompleted? && !ev.UserProfileSkipped? ==> r == c
  {
    match ev
    case UserProfileCompleted(p) => c.(userProfile := p)
    case UserProfileSkipped(p) => c.(userProfile := p)
    case _ => c
  }

  /** The inline `assign` of `businessInfo` on both business-info events. */
  function ApplyAssignBusinessInfo(c: Context, ev: Event): (r: Context)
    ensures r.(businessInfo := c.businessInfo) == c
    ensures ev.BusinessInfoCompleted? ==> r.businessInfo == ev.businessInfo
    ensures ev.BusinessLocationCompleted? ==> r.businessInfo == ev.location
    ensures !ev.BusinessInfoCompleted? && !ev.BusinessLocationCompleted? ==> r == c
  {
    match ev
    case BusinessInfoCompleted(b) => c.(businessInfo := b)
    case BusinessLocationCompleted(b) => c.(businessInfo := b)
    case _ => c
  }

  /** Array.prototype.filter. */
  function Filter<T(!new)>(xs: seq<T>, keep: T -> bool): (r: seq<T>)
    ensures |r| <= |xs|
    ensures forall x :: x in r ==> x in xs && keep(x)
    ensures forall x :: x in xs && keep(x) ==> x in r
    ensures forall x :: multiset(r)[x] == if keep(x) then multiset(xs)[x] else 0
    decreases |xs|
  {
    if xs == [] then []
    else
      assert xs == [xs[0]] + xs[1..];
      if keep(xs[0]) then [xs[0]] + Filter(xs[1..], keep)
      else Filter(xs[1..], keep)
  }

  /** The filter keeps the kept elements in their original order: it
      distributes over concatenation. */
  lemma {:induction false} FilterAppend<T(!new)>(xs: seq<T>, ys: seq<T>, keep: T -> bool)
    ensures Filter(xs + ys, keep) == Filter(xs, keep) + Filter(ys, keep)
    decreases |xs|
  {
    if xs == [] {
      assert xs + ys == ys;
    } else {
      assert (xs + ys)[0] == xs[0];
      assert (xs + ys)[1..] == xs[1..] + ys;
      FilterAppend(xs[1..], ys, keep);
    }
  }

  /** The placeholder predicate of the extension filter: it keeps everything. */
  function KeepExtension(e: Extension): bool
  {
    true
  }

  /** A filter whose predicate holds of every element returns its input. */
  lemma {:induction false} FilterKeepingAllIsIdentity<T(!new)>(xs: seq<T>, keep: T -> bool)
    requires forall x :: x in xs ==> keep(x)
    ensures Filter(xs, keep) == xs
  {
    if xs != [] {
      assert forall x :: x in xs[1..] ==> x in xs;
      FilterKeepingAllIsIdentity(xs[1..], keep);
      assert [xs[0]] + xs[1..] == xs;
    }
  }

  /** The exit `assign` of `preExtensions`: filters the available extensions
      with the placeholder predicate, which keeps them all. */
  function ApplyFilterExtensions(c: Context): (r: Context)
    ensures r == c
  {
    FilterKeepingAllIsIdentity(c.extensionsAvailable, KeepExtension);
    c.(extensionsAvailable := Filter(c.extensionsAvailable, KeepExtension))
  }

  /** Runs one action against the context; hooks leave the context as it is
      and are logged with their triggering event. */
  function RunAction(a: ActionName, c: Context, ev: Event, options: CountryOptions): (r: (Context, seq<Effect>))
    ensures IsAssignment(a) ==> r.1 == []
    ensures !IsAssignment(a) ==> r.0 == c && r.1 == [Fired(a, ev)]
  {
    match a
    case HandleTrackingOption => (ApplyHandleTrackingOption(c, ev), [])
    case AssignOptInDataSharing => (ApplyAssignOptInDataSharing(c, ev), [])
    case HandleCountries => (ApplyHandleCountries(c, ev, options), [])
    case AssignUserProfile => (ApplyAssignUserProfile(c, ev), [])
    case AssignBusinessInfo => (ApplyAssignBusinessInfo(c, ev), [])
    case FilterExtensionsAvailable => (ApplyFilterExtensions(c), [])
    case _ => (c, [Fired(a, ev)])
  }

  /** Runs an action list in declared order, threading the context. */
  function RunActions(acts: seq<ActionName>, c: Context, ev: Event, options: CountryOptions): (r: (Context, seq<Effect>))
    ensures |r.1| <= |acts|
    ensures (forall a :: a in acts ==> !IsAssignment(a)) ==> r.0 == c
    decreases |acts|
  {
    if acts == [] then (c, [])
    else
      var (c1, e1) := RunAction(acts[0], c, ev, options);
      var (c2, e2) := RunActions(acts[1..], c1, ev, options);
      (c2, e1 + e2)
  }
}
