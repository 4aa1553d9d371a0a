/**
 * What the core profiler's graph promises, proved about the interpreter
 * running it: the start configuration, each step's target, context update
 * and hooks, the pass-through states, termination of the flow, the handling
 * of undeclared events and stale settlements, and the progress metadata.
 */
module ProfilerProperties {
  import opened Wrappers
  import opened ProfilerTypes
  import opened ProfilerActions
  import opened ProfilerGraph
  import opened ProfilerEngine

  /** A state the host can observe: it has no eventless transition. */
  predicate Resting(s: State)
  {
    Node(s).always == []
  }

  /** The live invocation, if any, is the one the current state started. */
  predicate Consistent(m: Machine)
  {
    m.pending.Some? ==> m.pending == InvokedBy(m.state)
  }

  // ------------------------------------------------------- initializing

  /** The lookup's result opts in unless the stored value is "no"; the
      machine moves on to the intro and records that the intro is viewed. */
  lemma TrackingLookupDone(m: Machine, stored: Option<string>, options: CountryOptions)
    requires m.state == Initializing && m.pending == Some(GetAllowTrackingOption)
    ensures var o := Send(m, AllowTrackingResolved(stored), options);
      && o.machine == Machine(IntroOptIn, m.context.(optInDataSharing := stored != Some("no")), None)
      && o.effects == [Fired(RecordTracksIntroViewed, AllowTrackingResolved(stored))]
    ensures stored == None ==> Send(m, AllowTrackingResolved(stored), options).machine.context.optInDataSharing
  {
    var ev := AllowTrackingResolved(stored);
    var rule := To(IntroOptIn, [HandleTrackingOption]);
    var c := m.context.(optInDataSharing := stored != Some("no"));
    var viewed := [Fired(RecordTracksIntroViewed, ev)];
    assert SelectRule(m, ev) == Some(rule);
    assert ExitActionsOf(m.state, ev) == [];
    RunNoActions(m.context, ev, options);
    RunActionsOne(HandleTrackingOption, m.context, ev, options);
    assert RunAction(HandleTrackingOption, m.context, ev, options) == (c, []);
    RunActionsOne(RecordTracksIntroViewed, c, ev, options);
    EnterRestingState(IntroOptIn, c, ev, options, c, viewed);
    SendAlong(m, ev, options, rule, m.context, [], c, [], Outcome(Machine(IntroOptIn, c, None), viewed));
  }

  /** A failed lookup also leads to the intro and leaves the context alone. */
  lemma TrackingLookupFailed(m: Machine, options: CountryOptions)
    requires m.state == Initializing && m.pending == Some(GetAllowTrackingOption)
    ensures var ev := InvocationRejected(GetAllowTrackingOption);
      Send(m, ev, options) == Outcome(Machine(IntroOptIn, m.context, None), [Fired(RecordTracksIntroViewed, ev)])
  {
    var ev := InvocationRejected(GetAllowTrackingOption);
    var rule := To(IntroOptIn, []);
    var viewed := [Fired(RecordTracksIntroViewed, ev)];
    assert SelectRule(m, ev) == Some(rule);
    assert ExitActionsOf(m.state, ev) == [];
    RunNoActions(m.context, ev, options);
    RunActionsOne(RecordTracksIntroViewed, m.context, ev, options);
    EnterRestingState(IntroOptIn, m.context, ev, options, m.context, viewed);
    SendAlong(m, ev, options, rule, m.context, [], m.context, [], Outcome(Machine(IntroOptIn, m.context, None), viewed));
  }

  /** INITIALIZATION_COMPLETE moves on to the intro without waiting for the
      lookup: the context is unchanged and the lookup is no longer live. */
  lemma InitializationCompleteStep(m: Machine, optIn: bool, options: CountryOptions)
    requires m.state == Initializing
    ensures var ev := InitializationComplete(optIn);
      Send(m, ev, options) == Outcome(Machine(IntroOptIn, m.context, None), [Fired(RecordTracksIntroViewed, ev)])
  {
    var ev := InitializationComplete(optIn);
    var rule := To(IntroOptIn, []);
    var viewed := [Fired(RecordTracksIntroViewed, ev)];
    assert SelectRule(m, ev) == Some(rule);
    assert ExitActionsOf(m.state, ev) == [];
    RunNoActions(m.context, ev, options);
    RunActionsOne(RecordTracksIntroViewed, m.context, ev, options);
    EnterRestingState(IntroOptIn, m.context, ev, options, m.context, viewed);
    SendAlong(m, ev, options, rule, m.context, [], m.context, [], Outcome(Machine(IntroOptIn, m.context, None), viewed));
  }

  /** Race: when INITIALIZATION_COMPLETE overtakes the lookup, the lookup's
      later result (or failure) changes nothing. */
  lemma LookupAfterInitializationCompleteIgnored(m: Machine, optIn: bool, late: Event, options: CountryOptions)
    requires m.state == Initializing && m.pending == Some(GetAllowTrackingOption)
    requires late.AllowTrackingResolved? || late == InvocationRejected(GetAllowTrackingOption)
    ensures var moved := Send(m, InitializationComplete(optIn), options).machine;
      Send(moved, late, options) == Outcome(moved, [])
  {
    InitializationCompleteStep(m, optIn, options);
  }

  /** Scenario: start, the lookup fails, and the intro shows the defaults. */
  lemma StartThenLookupFails(options: CountryOptions)
    ensures var m := Run(Start(options).machine, [InvocationRejected(GetAllowTrackingOption)], options).machine;
      m.state == IntroOptIn && !m.context.optInDataSharing && m.context.countries == map[]
  {
    var m0 := Start(options).machine;
    TrackingLookupFailed(m0, options);
  }

  // ---------------------------------------------------------- introOptIn

  /** `choose` runs the actions of the first branch whose event type matches,
      and nothing when none does. */
  lemma {:induction false} ChooseFirstMatch(bs: seq<Branch>, ev: Event)
    ensures ChooseFirst(bs, ev) == []
         || exists i :: 0 <= i < |bs| && ChooseFirst(bs, ev) == bs[i].actions
              && TypeOf(ev) == Some(bs[i].eventType)
              && forall j :: 0 <= j < i ==> TypeOf(ev) != Some(bs[j].eventType)
    ensures (forall i :: 0 <= i < |bs| ==> TypeOf(ev) != Some(bs[i].eventType)) ==> ChooseFirst(bs, ev) == []
    decreases |bs|
  {
    if bs != [] && TypeOf(ev) != Some(bs[0].eventType) {
      ChooseFirstMatch(bs[1..], ev);
      if ChooseFirst(bs, ev) != [] {
        var i :| 0 <= i < |bs[1..]| && ChooseFirst(bs[1..], ev) == bs[1..][i].actions
              && TypeOf(ev) == Some(bs[1..][i].eventType)
              && forall j :: 0 <= j < i ==> TypeOf(ev) != Some(bs[1..][j].eventType);
        assert forall j :: 0 <= j < i + 1 ==> TypeOf(ev) != Some(bs[j].eventType) by {
          forall j | 0 <= j < i + 1 ensures TypeOf(ev) != Some(bs[j].eventType) {
            if j > 0 { assert bs[j] == bs[1..][j - 1]; }
          }
        }
      }
      assert forall i :: 0 <= i < |bs[1..]| ==> bs[1..][i] == bs[i + 1];
    }
  }

  /** The converse: when branch `i` is the first whose event type matches,
      `choose` runs exactly its actions. */
  lemma {:induction false} ChooseFirstRunsFirstMatch(bs: seq<Branch>, ev: Event, i: int)
    requires 0 <= i < |bs| && TypeOf(ev) == Some(bs[i].eventType)
    requires forall j :: 0 <= j < i ==> TypeOf(ev) != Some(bs[j].eventType)
    ensures ChooseFirst(bs, ev) == bs[i].actions
    decreases i
  {
    if i > 0 {
      assert TypeOf(ev) != Some(bs[0].eventType);
      assert bs[1..][i - 1] == bs[i];
      ChooseFirstRunsFirstMatch(bs[1..], ev, i - 1);
    }
  }

  /** The intro's exit hook records "completed" exactly on INTRO_COMPLETED
      and "skipped" exactly on INTRO_SKIPPED, never both. */
  lemma IntroExitRecordsOne(ev: Event)
    ensures RecordTracksIntroCompleted in ExitActionsOf(IntroOptIn, ev) <==> ev.IntroCompleted?
    ensures RecordTracksIntroSkipped in ExitActionsOf(IntroOptIn, ev) <==> ev.IntroSkipped?
    ensures |ExitActionsOf(IntroOptIn, ev)| <= 1
  {
  }

  /** INTRO_COMPLETED: to the user profile, copying only the opt-in flag;
      the exit hook and the tracking-option hook fire once each, in order. */
  lemma IntroCompletedStep(m: Machine, optIn: bool, options: CountryOptions)
    requires m.state == IntroOptIn
    ensures var ev := IntroCompleted(optIn);
      && Send(m, ev, options).machine == Machine(UserProfileStep, m.context.(optInDataSharing := optIn), None)
      && Send(m, ev, options).effects == [Fired(RecordTracksIntroCompleted, ev), Fired(UpdateTrackingOption, ev)]
  {
    var ev := IntroCompleted(optIn);
    var rule := To(UserProfileStep, [AssignOptInDataSharing, UpdateTrackingOption]);
    var c := m.context.(optInDataSharing := optIn);
    var exited := [Fired(RecordTracksIntroCompleted, ev)];
    var persisted := [Fired(UpdateTrackingOption, ev)];
    assert SelectRule(m, ev) == Some(rule);
    assert ExitActionsOf(m.state, ev) == [RecordTracksIntroCompleted];
    RunActionsOne(RecordTracksIntroCompleted, m.context, ev, options);
    RunActionsTwo(AssignOptInDataSharing, UpdateTrackingOption, m.context, ev, options);
    assert RunAction(AssignOptInDataSharing, m.context, ev, options) == (c, []);
    assert RunActions(rule.actions, m.context, ev, options) == (c, [] + persisted);
    RunNoActions(c, ev, options);
    EnterRestingState(UserProfileStep, c, ev, options, c, []);
    SendAlong(m, ev, options, rule, m.context, exited, c, [] + persisted, Outcome(Machine(UserProfileStep, c, None), []));
    assert exited + ([] + persisted) + [] == exited + persisted;
  }

  /** INTRO_SKIPPED: to the country lookup, and data sharing ends up off
      because the skip payload can only be false. */
  lemma IntroSkippedStep(m: Machine, flag: AlwaysFalse, options: CountryOptions)
    requires m.state == IntroOptIn
    ensures var ev := IntroSkipped(flag);
      && Send(m, ev, options).machine == Machine(PreSkipFlowBusinessLocation, m.context.(optInDataSharing := false), Some(GetCountries))
      && Send(m, ev, options).effects == [Fired(RecordTracksIntroSkipped, ev), Fired(UpdateTrackingOption, ev), Started(GetCountries)]
  {
    var ev := IntroSkipped(flag);
    var rule := To(PreSkipFlowBusinessLocation, [AssignOptInDataSharing, UpdateTrackingOption]);
    var c := m.context.(optInDataSharing := false);
    var exited := [Fired(RecordTracksIntroSkipped, ev)];
    var persisted := [Fired(UpdateTrackingOption, ev)];
    assert SelectRule(m, ev) == Some(rule);
    assert ExitActionsOf(m.state, ev) == [RecordTracksIntroSkipped];
    RunActionsOne(RecordTracksIntroSkipped, m.context, ev, options);
    RunActionsTwo(AssignOptInDataSharing, UpdateTrackingOption, m.context, ev, options);
    assert RunAction(AssignOptInDataSharing, m.context, ev, options) == (c, []);
    assert RunActions(rule.actions, m.context, ev, options) == (c, [] + persisted);
    RunNoActions(c, ev, options);
    EnterRestingState(PreSkipFlowBusinessLocation, c, ev, options, c, []);
    var entered := Outcome(Machine(PreSkipFlowBusinessLocation, c, Some(GetCountries)), [] + [Started(GetCountries)]);
    SendAlong(m, ev, options, rule, m.context, exited, c, [] + persisted, entered);
    assert exited + ([] + persisted) + entered.effects == exited + persisted + [Started(GetCountries)];
  }

  /** The value the tracking-option hook persists for an intro event. */
  function PersistedTrackingValue(ev: Event): Option<string>
  {
    match IntroOptInOf(ev)
    case Some(b) => Some(TrackingValue(b))
    case None => None
  }

  /** What the intro step stores in the context and what it persists agree:
      reading the persisted option back on the next start restores the same
      opt-in flag. */
  lemma {:induction false} PersistedOptInRoundTrip(m: Machine, ev: Event, options: CountryOptions)
    requires m.state == IntroOptIn && (ev.IntroCompleted? || ev.IntroSkipped?)
    ensures var next := Start(options).machine;
      Send(next, AllowTrackingResolved(PersistedTrackingValue(ev)), options).machine.context.optInDataSharing
        == Send(m, ev, options).machine.context.optInDataSharing
  {
    TrackingLookupDone(Start(options).machine, PersistedTrackingValue(ev), options);
    if ev.IntroCompleted? {
      IntroCompletedStep(m, ev.optInDataSharing, options);
    } else {
      IntroSkippedStep(m, ev.skippedOptIn, options);
    }
  }

  // ------------------------------------------------- main path steps

  /** Either user-profile event replaces the profile and nothing else; the
      pass-through state is left at once, so the machine rests in businessInfo. */
  lemma UserProfileStepRestsInBusinessInfo(m: Machine, ev: Event, options: CountryOptions)
    requires m.state == UserProfileStep && (ev.UserProfileCompleted? || ev.UserProfileSkipped?)
    ensures var profile := if ev.UserProfileCompleted? then ev.profile else ev.skippedProfile;
      Send(m, ev, options) == Outcome(Machine(BusinessInfoStep, m.context.(userProfile := profile), None), [])
  {
    var profile := if ev.UserProfileCompleted? then ev.profile else ev.skippedProfile;
    var rule := To(PreBusinessInfo, [AssignUserProfile]);
    var c := m.context.(userProfile := profile);
    assert SelectRule(m, ev) == Some(rule);
    assert ExitActionsOf(m.state, ev) == [];
    RunNoActions(m.context, ev, options);
    RunActionsOne(AssignUserProfile, m.context, ev, options);
    assert RunAction(AssignUserProfile, m.context, ev, options) == (c, []);
    PreBusinessInfoPassesThrough(c, ev, options);
    SendAlong(m, ev, options, rule, m.context, [], c, [], Outcome(Machine(BusinessInfoStep, c, None), []));
  }

  /** preBusinessInfo is left as soon as it is entered: its guard always
      holds, so entering it rests in businessInfo with the context untouched. */
  lemma PreBusinessInfoPassesThrough(c: Context, ev: Event, options: CountryOptions)
    ensures Enter(PreBusinessInfo, c, ev, options) == Outcome(Machine(BusinessInfoStep, c, None), [])
  {
    var from := Machine(PreBusinessInfo, c, None);
    var rest := Outcome(Machine(BusinessInfoStep, c, None), []);
    RunNoActions(c, ev, options);
    EnterRestingState(BusinessInfoStep, c, ev, options, c, []);
    assert ExitActionsOf(PreBusinessInfo, ev) == [];
    LeaveAlong(from, To(BusinessInfoStep, []), ev, options, c, [], c, [], rest);
    assert FirstEnabled(Node(PreBusinessInfo).always, g => EvalGuard(g, c, ev)) == Some(AlwaysRule(BusinessInfoStep, ConstantTrue));
  }

  /** preExtensions is left as soon as it is entered and rests in
      extensions; its exit filter keeps every available extension, so the
      context is untouched. */
  lemma PreExtensionsPassesThrough(c: Context, ev: Event, options: CountryOptions)
    ensures Enter(PreExtensions, c, ev, options) == Outcome(Machine(ExtensionsStep, c, None), [])
  {
    var from := Machine(PreExtensions, c, None);
    var rest := Outcome(Machine(ExtensionsStep, c, None), []);
    RunNoActions(c, ev, options);
    EnterRestingState(ExtensionsStep, c, ev, options, c, []);
    PreExtensionsExitKeepsContext(c, ev, options);
    LeaveAlong(from, To(ExtensionsStep, []), ev, options, c, [], c, [], rest);
    assert FirstEnabled(Node(PreExtensions).always, g => EvalGuard(g, c, ev)) == Some(AlwaysRule(ExtensionsStep, ConstantTrue));
  }

  /** The exit filter of preExtensions runs on every way out and leaves the
      context as it was, logging nothing. */
  lemma PreExtensionsExitKeepsContext(c: Context, ev: Event, options: CountryOptions)
    ensures RunActions(ExitActionsOf(PreExtensions, ev), c, ev, options) == (c, [])
  {
    assert ExitActionsOf(PreExtensions, ev) == [FilterExtensionsAvailable];
    RunActionsOne(FilterExtensionsAvailable, c, ev, options);
    assert RunAction(FilterExtensionsAvailable, c, ev, options) == (c, []);
  }

  /** The state entering `t` comes to rest in: the pass-through states hand
      over to their targets, every other state is itself a resting state. */
  lemma EnterSettles(t: State, c: Context, ev: Event, options: CountryOptions)
    ensures Enter(t, c, ev, options).machine.state == RestingOf(t)
  {
    if t == PreBusinessInfo {
      PreBusinessInfoPassesThrough(c, ev, options);
    } else if t == PreExtensions {
      PreExtensionsPassesThrough(c, ev, options);
    } else {
      EnterSettlesInPlace(t, c, ev, options);
    }
  }

  /** Entering any state other than the two pass-through states rests there. */
  lemma EnterSettlesInPlace(t: State, c: Context, ev: Event, options: CountryOptions)
    requires t != PreBusinessInfo && t != PreExtensions
    ensures Enter(t, c, ev, options).machine.state == RestingOf(t)
  {
    assert RestingOf(t) == t && Node(t).always == [];
    EnterRests(t, c, ev, options);
  }

  /** A state without eventless transitions is where its entry comes to rest. */
  lemma EnterRests(t: State, c: Context, ev: Event, options: CountryOptions)
    requires Node(t).always == []
    ensures Enter(t, c, ev, options).machine.state == t
  {
    var c1 := RunActions(Node(t).entry, c, ev, options).0;
    assert FirstEnabled(Node(t).always, g => EvalGuard(g, c1, ev)) == None;
  }

  /** Where a step comes to rest. */
  lemma SendLandsAt(m: Machine, ev: Event, options: CountryOptions)
    ensures var r := Send(m, ev, options).machine;
      if SelectRule(m, ev).Some? && SelectRule(m, ev).value.target.Some?
      then r.state == RestingOf(SelectRule(m, ev).value.target.value)
      else r.state == m.state
  {
    if SelectRule(m, ev).Some? && SelectRule(m, ev).value.target.Some? {
      var rule := SelectRule(m, ev).value;
      var (c1, e1) := RunActions(ExitActionsOf(m.state, ev), m.context, ev, options);
      var (c2, e2) := RunActions(rule.actions, c1, ev, options);
      var entered := Enter(rule.target.value, c2, ev, options);
      SendAlong(m, ev, options, rule, c1, e1, c2, e2, entered);
      EnterSettles(rule.target.value, c2, ev, options);
    }
  }

  /** BUSINESS_INFO_COMPLETED replaces the business info and nothing else;
      the machine passes through preExtensions and rests in extensions. */
  lemma BusinessInfoRestsInExtensions(m: Machine, info: BusinessInfo, options: CountryOptions)
    requires m.state == BusinessInfoStep
    ensures Send(m, BusinessInfoCompleted(info), options) == Outcome(Machine(ExtensionsStep, m.context.(businessInfo := info), None), [])
  {
    var ev := BusinessInfoCompleted(info);
    var rule := To(PreExtensions, [AssignBusinessInfo]);
    var c := m.context.(businessInfo := info);
    assert SelectRule(m, ev) == Some(rule);
    assert ExitActionsOf(m.state, ev) == [];
    RunNoActions(m.context, ev, options);
    RunActionsOne(AssignBusinessInfo, m.context, ev, options);
    assert RunAction(AssignBusinessInfo, m.context, ev, options) == (c, []);
    PreExtensionsPassesThrough(c, ev, options);
    SendAlong(m, ev, options, rule, m.context, [], c, [], Outcome(Machine(ExtensionsStep, c, None), []));
  }

  /** EXTENSIONS_COMPLETED leads to settingUpStore and changes nothing else:
      the selected extensions in its payload are not stored. */
  lemma ExtensionsCompletedStep(m: Machine, selected: seq<string>, options: CountryOptions)
    requires m.state == ExtensionsStep
    ensures Send(m, ExtensionsCompleted(selected), options) == Outcome(Machine(SettingUpStore, m.context, None), [])
  {
    var ev := ExtensionsCompleted(selected);
    var rule := To(SettingUpStore, []);
    assert SelectRule(m, ev) == Some(rule);
    assert ExitActionsOf(m.state, ev) == [];
    RunNoActions(m.context, ev, options);
    EnterRestingState(SettingUpStore, m.context, ev, options, m.context, []);
    SendAlong(m, ev, options, rule, m.context, [], m.context, [], Outcome(Machine(SettingUpStore, m.context, None), []));
  }

  // -------------------------------------------------------- skip flow

  /** A completed country lookup moves on to the business-location step
      with the countries converted from the loaded list. */
  lemma CountriesLookupDone(m: Machine, list: seq<Country>, options: CountryOptions)
    requires m.state == PreSkipFlowBusinessLocation && m.pending == Some(GetCountries)
    ensures var ev := CountriesResolved(list);
      Send(m, ev, options) == Outcome(Machine(SkipFlowBusinessLocation, m.context.(countries := options(list)), None),
                                     [Fired(RecordTracksSkipBusinessLocationViewed, ev)])
  {
    var ev := CountriesResolved(list);
    var rule := To(SkipFlowBusinessLocation, [HandleCountries]);
    var c := m.context.(countries := options(list));
    var viewed := [Fired(RecordTracksSkipBusinessLocationViewed, ev)];
    assert SelectRule(m, ev) == Some(rule);
    assert ExitActionsOf(m.state, ev) == [];
    RunNoActions(m.context, ev, options);
    RunActionsOne(HandleCountries, m.context, ev, options);
    assert RunAction(HandleCountries, m.context, ev, options) == (c, []);
    RunActionsOne(RecordTracksSkipBusinessLocationViewed, c, ev, options);
    EnterRestingState(SkipFlowBusinessLocation, c, ev, options, c, viewed);
    SendAlong(m, ev, options, rule, m.context, [], c, [], Outcome(Machine(SkipFlowBusinessLocation, c, None), viewed));
  }

  /** A failed country lookup also moves on, and the countries stay as they
      were. */
  lemma CountriesLookupFailed(m: Machine, options: CountryOptions)
    requires m.state == PreSkipFlowBusinessLocation && m.pending == Some(GetCountries)
    ensures var ev := InvocationRejected(GetCountries);
      Send(m, ev, options) == Outcome(Machine(SkipFlowBusinessLocation, m.context, None),
                                     [Fired(RecordTracksSkipBusinessLocationViewed, ev)])
  {
    var ev := InvocationRejected(GetCountries);
    var rule := To(SkipFlowBusinessLocation, []);
    var viewed := [Fired(RecordTracksSkipBusinessLocationViewed, ev)];
    assert SelectRule(m, ev) == Some(rule);
    assert ExitActionsOf(m.state, ev) == [];
    RunNoActions(m.context, ev, options);
    RunActionsOne(RecordTracksSkipBusinessLocationViewed, m.context, ev, options);
    EnterRestingState(SkipFlowBusinessLocation, m.context, ev, options, m.context, viewed);
    SendAlong(m, ev, options, rule, m.context, [], m.context, [], Outcome(Machine(SkipFlowBusinessLocation, m.context, None), viewed));
  }

  /** BUSINESS_LOCATION_COMPLETED replaces the business info, records the
      step, and starts the loader. */
  lemma BusinessLocationStep(m: Machine, info: BusinessInfo, options: CountryOptions)
    requires m.state == SkipFlowBusinessLocation
    ensures var ev := BusinessLocationCompleted(info);
      Send(m, ev, options) == Outcome(Machine(PostSkipFlowBusinessLocation, m.context.(businessInfo := info), Some(LoaderTimer)),
                                     [Fired(RecordTracksSkipBusinessLocationCompleted, ev), Started(LoaderTimer)])
  {
    var ev := BusinessLocationCompleted(info);
    var rule := To(PostSkipFlowBusinessLocation, [AssignBusinessInfo, RecordTracksSkipBusinessLocationCompleted]);
    var c := m.context.(businessInfo := info);
    var recorded := [Fired(RecordTracksSkipBusinessLocationCompleted, ev)];
    assert SelectRule(m, ev) == Some(rule);
    assert ExitActionsOf(m.state, ev) == [];
    RunNoActions(m.context, ev, options);
    RunActionsTwo(AssignBusinessInfo, RecordTracksSkipBusinessLocationCompleted, m.context, ev, options);
    assert RunAction(AssignBusinessInfo, m.context, ev, options) == (c, []);
    assert RunActions(rule.actions, m.context, ev, options) == (c, [] + recorded);
    RunNoActions(c, ev, options);
    EnterRestingState(PostSkipFlowBusinessLocation, c, ev, options, c, []);
    var entered := Outcome(Machine(PostSkipFlowBusinessLocation, c, Some(LoaderTimer)), [] + [Started(LoaderTimer)]);
    SendAlong(m, ev, options, rule, m.context, [], c, [] + recorded, entered);
    assert [] + ([] + recorded) + entered.effects == recorded + [Started(LoaderTimer)];
  }

  /** When the loader settles, the redirect hook fires and the machine stays
      in the loader state with nothing left pending. */
  lemma LoaderSettlesWithRedirect(m: Machine, options: CountryOptions)
    requires m.state == PostSkipFlowBusinessLocation && m.pending == Some(LoaderTimer)
    ensures Send(m, LoaderResolved, options) == Outcome(m.(pending := None), [Fired(RedirectToWooHome, LoaderResolved)])
  {
    assert SelectRule(m, LoaderResolved) == Some(Rule(None, [RedirectToWooHome]));
    RunActionsOne(RedirectToWooHome, m.context, LoaderResolved, options);
  }

  /** After the redirect no event has any effect, so it fires only once. */
  lemma {:induction false} NothingAfterRedirect(m: Machine, evs: seq<Event>, options: CountryOptions)
    requires m.state == PostSkipFlowBusinessLocation && m.pending == None
    ensures Run(m, evs, options) == Outcome(m, [])
    decreases |evs|
  {
    if evs != [] {
      assert Send(m, evs[0], options) == Outcome(m, []);
      NothingAfterRedirect(m, evs[1..], options);
    }
  }

  // ---------------------------------------- undeclared events, terminal

  /** The (state, event) pairs the graph declares, listed state by state;
      a settlement is declared only while its invocation is live. */
  predicate Declared(m: Machine, ev: Event)
  {
    match m.state
    case Initializing =>
      ev.InitializationComplete?
      || (m.pending == Some(GetAllowTrackingOption)
          && (ev.AllowTrackingResolved? || ev == InvocationRejected(GetAllowTrackingOption)))
    case IntroOptIn => ev.IntroCompleted? || ev.IntroSkipped?
    case UserProfileStep => ev.UserProfileCompleted? || ev.UserProfileSkipped?
    case PreBusinessInfo => false
    case BusinessInfoStep => ev.BusinessInfoCompleted?
    case PreSkipFlowBusinessLocation =>
      m.pending == Some(GetCountries) && (ev.CountriesResolved? || ev == InvocationRejected(GetCountries))
    case SkipFlowBusinessLocation => ev.BusinessLocationCompleted?
    case PostSkipFlowBusinessLocation => m.pending == Some(LoaderTimer) && ev.LoaderResolved?
    case PreExtensions => false
    case ExtensionsStep => ev.ExtensionsCompleted?
    case SettingUpStore => false
  }

  /** An event changes nothing (state, context, pending invocation, effects)
      exactly when the current state does not declare it. */
  lemma UndeclaredEventIgnored(m: Machine, ev: Event, options: CountryOptions)
    ensures Send(m, ev, options) == Outcome(m, []) <==> !Declared(m, ev)
  {
    DeclaredIffSelected(m, ev);
    if Declared(m, ev) {
      var rule := SelectRule(m, ev).value;
      if m.state == PostSkipFlowBusinessLocation {
        LoaderSettlesWithRedirect(m, options);
      } else {
        SelectedRuleAdvances(m, ev);
        assert Send(m, ev, options) == Leave(m, rule, ev, options);
      }
    }
  }

  /** `Declared` lists exactly the pairs that select a transition, and every
      declared transition outside the loader has a target. */
  lemma DeclaredIffSelected(m: Machine, ev: Event)
    ensures SelectRule(m, ev).Some? <==> Declared(m, ev)
    ensures Declared(m, ev) ==> SelectRule(m, ev).value.target.Some? || m.state == PostSkipFlowBusinessLocation
    ensures Declared(m, ev) && m.state == PostSkipFlowBusinessLocation ==> ev == LoaderResolved
  {
    match m.state {
      case Initializing => SelectRuleInInitializing(m, ev);
      case IntroOptIn => SelectRuleInIntroOptIn(m, ev);
      case UserProfileStep => SelectRuleInUserProfileStep(m, ev);
      case PreBusinessInfo => SelectRuleInPreBusinessInfo(m, ev);
      case BusinessInfoStep => SelectRuleInBusinessInfoStep(m, ev);
      case PreSkipFlowBusinessLocation => SelectRuleInPreSkipFlowBusinessLocation(m, ev);
      case SkipFlowBusinessLocation => SelectRuleInSkipFlowBusinessLocation(m, ev);
      case PostSkipFlowBusinessLocation => SelectRuleInPostSkipFlowBusinessLocation(m, ev);
      case PreExtensions => SelectRuleInPreExtensions(m, ev);
      case ExtensionsStep => SelectRuleInExtensionsStep(m, ev);
      case SettingUpStore => SelectRuleInSettingUpStore(m, ev);
    }
  }

  /** A settlement of a service that is not live is discarded. */
  lemma StaleSettlementIgnored(m: Machine, ev: Event, options: CountryOptions)
    requires SettlementOf(ev).Some? && m.pending != Some(SettlementOf(ev).value.0)
    ensures Send(m, ev, options) == Outcome(m, [])
  {
  }

  /** settingUpStore ignores every event: the flow is complete. */
  lemma SettingUpStoreIsTerminal(m: Machine, ev: Event, options: CountryOptions)
    requires m.state == SettingUpStore
    ensures Send(m, ev, options) == Outcome(m, [])
  {
  }

  /** Of all declared transitions, only EXTENSIONS_COMPLETED in extensions targets settingUpStore. */
  lemma OnlyExtensionsRuleTargetsSettingUpStore(m: Machine, ev: Event)
    requires SelectRule(m, ev).Some? && SelectRule(m, ev).value.target == Some(SettingUpStore)
    ensures m.state == ExtensionsStep && ev.ExtensionsCompleted?
  {
    match m.state {
      case Initializing => SelectRuleInInitializing(m, ev);
      case IntroOptIn => SelectRuleInIntroOptIn(m, ev);
      case UserProfileStep => SelectRuleInUserProfileStep(m, ev);
      case PreBusinessInfo => SelectRuleInPreBusinessInfo(m, ev);
      case BusinessInfoStep => SelectRuleInBusinessInfoStep(m, ev);
      case PreSkipFlowBusinessLocation => SelectRuleInPreSkipFlowBusinessLocation(m, ev);
      case SkipFlowBusinessLocation => SelectRuleInSkipFlowBusinessLocation(m, ev);
      case PostSkipFlowBusinessLocation => SelectRuleInPostSkipFlowBusinessLocation(m, ev);
      case PreExtensions => SelectRuleInPreExtensions(m, ev);
      case ExtensionsStep => SelectRuleInExtensionsStep(m, ev);
      case SettingUpStore => SelectRuleInSettingUpStore(m, ev);
    }
  }

  /** EXTENSIONS_COMPLETED from extensions is the only step into
      settingUpStore, and it leaves the context unchanged. */
  lemma OnlyExtensionsCompletedReachesSettingUpStore(m: Machine, ev: Event, options: CountryOptions)
    requires m.state != SettingUpStore
    ensures Send(m, ev, options).machine.state == SettingUpStore
        <==> m.state == ExtensionsStep && ev.ExtensionsCompleted?
    ensures Send(m, ev, options).machine.state == SettingUpStore ==> Send(m, ev, options).machine.context == m.context
  {
    SendLandsAt(m, ev, options);
    if m.state == ExtensionsStep && ev.ExtensionsCompleted? {
      ExtensionsCompletedStep(m, ev.extensionsSelected, options);
    } else if SelectRule(m, ev).Some? && SelectRule(m, ev).value.target.Some? {
      var t := SelectRule(m, ev).value.target.value;
      if t == SettingUpStore {
        OnlyExtensionsRuleTargetsSettingUpStore(m, ev);
        assert false;
      }
      assert RestingOf(t) != SettingUpStore;
    }
  }
}
