/**
 * Properties of whole runs of the core profiler: the progress metadata the
 * host reads, the invariants every step keeps (the host only ever sees
 * resting states, and the live invocation belongs to the current state),
 * and the fact that a run never returns to a state it has left.
 */
module ProfilerRuns {
  import opened Wrappers
  import opened ProfilerTypes
  import opened ProfilerActions
  import opened ProfilerGraph
  import opened ProfilerEngine
  import opened ProfilerProperties

  // ------------------------------------------------------------ progress

  /** Every declared progress value is a percentage. */
  lemma DeclaredProgressIsPercentage(s: State)
    ensures Node(s).progress.Some? ==> Node(s).progress.value <= 100
  {
  }

  /** A declared progress value is the level of its state. */
  lemma LevelIsDeclaredProgress(s: State)
    ensures Node(s).progress.Some? ==> Level(s) == Node(s).progress.value
  {
  }

  /** The hand-over out of a pass-through state follows an edge too. */
  lemma RestingOfIsEdge(t: State)
    ensures RestingOf(t) == t || Edge(t, RestingOf(t))
  {
    if RestingOf(t) != t {
      assert Node(t).always[0].target == RestingOf(t);
    }
  }

  /** No step lowers the progress level. */
  lemma SendKeepsLevel(m: Machine, ev: Event, options: CountryOptions)
    ensures Level(Send(m, ev, options).machine.state) >= Level(m.state)
  {
    SendLandsAt(m, ev, options);
    if SelectRule(m, ev).Some? && SelectRule(m, ev).value.target.Some? {
      var t := SelectRule(m, ev).value.target.value;
      SelectedRuleIsEdge(m, ev);
      EdgeAdvances(m.state, t);
      RestingOfIsEdge(t);
      if RestingOf(t) != t {
        EdgeAdvances(t, RestingOf(t));
      }
    }
  }

  /** The progress level never decreases along a run. */
  lemma {:induction false} TraceLevelsNondecreasing(m: Machine, evs: seq<Event>, options: CountryOptions)
    ensures forall i :: 0 <= i < |evs| ==> Level(m.state) <= Level(Trace(m, evs, options)[i])
    ensures forall i, j :: 0 <= i <= j < |evs| ==> Level(Trace(m, evs, options)[i]) <= Level(Trace(m, evs, options)[j])
    decreases |evs|
  {
    if evs != [] {
      var next := Send(m, evs[0], options).machine;
      SendKeepsLevel(m, evs[0], options);
      TraceLevelsNondecreasing(next, evs[1..], options);
      var tr := Trace(m, evs, options);
      var rest := Trace(next, evs[1..], options);
      assert tr == [next.state] + rest;
      assert tr[0] == next.state;
      forall i | 0 <= i < |tr|
        ensures Level(m.state) <= Level(tr[i])
      {
        if i > 0 {
          assert tr[i] == rest[i - 1];
          assert Level(next.state) <= Level(rest[i - 1]);
        }
      }
      forall i, j | 0 <= i <= j < |tr|
        ensures Level(tr[i]) <= Level(tr[j])
      {
        if j > 0 {
          assert tr[j] == rest[j - 1];
          assert Level(next.state) <= Level(rest[j - 1]);
          if i > 0 {
            assert tr[i] == rest[i - 1];
            assert Level(rest[i - 1]) <= Level(rest[j - 1]);
          }
        }
      }
    }
  }

  /** The progress the host reads, wherever a state declares one, never
      goes backwards during a run. */
  lemma HostProgressNondecreasing(m: Machine, evs: seq<Event>, options: CountryOptions, i: nat, j: nat)
    requires i <= j < |evs|
    requires Node(Trace(m, evs, options)[i]).progress.Some? && Node(Trace(m, evs, options)[j]).progress.Some?
    ensures Node(Trace(m, evs, options)[i]).progress.value <= Node(Trace(m, evs, options)[j]).progress.value
  {
    var tr := Trace(m, evs, options);
    TraceLevelsNondecreasing(m, evs, options);
    LevelIsDeclaredProgress(tr[i]);
    LevelIsDeclaredProgress(tr[j]);
  }

  // ----------------------------------------------------------- invariants

  /** What holds of every machine the host can observe. */
  predicate Observable(m: Machine)
  {
    Resting(m.state) && Consistent(m)
  }

  /** Every step keeps the machine observable: it never rests in a
      pass-through state, and the live invocation is the current state's. */
  lemma SendKeepsObservable(m: Machine, ev: Event, options: CountryOptions)
    requires Observable(m)
    ensures Observable(Send(m, ev, options).machine)
  {
  }

  /** The machine is observable right after start and after every event. */
  lemma {:induction false} RunStaysObservable(evs: seq<Event>, options: CountryOptions)
    ensures Observable(Start(options).machine)
    ensures Observable(Run(Start(options).machine, evs, options).machine)
  {
    RunFromObservable(Start(options).machine, evs, options);
  }

  lemma {:induction false} RunFromObservable(m: Machine, evs: seq<Event>, options: CountryOptions)
    requires Observable(m)
    ensures Observable(Run(m, evs, options).machine)
    ensures forall i :: 0 <= i < |evs| ==> Resting(Trace(m, evs, options)[i])
    decreases |evs|
  {
    if evs != [] {
      var next := Send(m, evs[0], options).machine;
      SendKeepsObservable(m, evs[0], options);
      RunFromObservable(next, evs[1..], options);
      var tr := Trace(m, evs, options);
      var rest := Trace(next, evs[1..], options);
      assert tr == [next.state] + rest;
      forall i | 0 <= i < |evs|
        ensures Resting(tr[i])
      {
        if i > 0 { assert tr[i] == rest[i - 1]; }
      }
    }
  }

  // ------------------------------------------------------------ countries

  /** The country list is only ever filled in by the skip flow: outside its
      two states the context holds no countries. */
  predicate CountriesOnlyInSkipFlow(m: Machine)
  {
    m.context.countries != map[] ==> m.state == SkipFlowBusinessLocation || m.state == PostSkipFlowBusinessLocation
  }

  /** Every step keeps the countries confined to the skip flow. */
  lemma SendKeepsCountriesOnlyInSkipFlow(m: Machine, ev: Event, options: CountryOptions)
    requires CountriesOnlyInSkipFlow(m)
    ensures CountriesOnlyInSkipFlow(Send(m, ev, options).machine)
  {
    DeclaredIffSelected(m, ev);
    if Declared(m, ev) {
      match m.state {
        case Initializing =>
          if ev.InitializationComplete? {
            InitializationCompleteStep(m, ev.optInDataSharing, options);
          } else if ev.AllowTrackingResolved? {
            TrackingLookupDone(m, ev.stored, options);
          } else {
            TrackingLookupFailed(m, options);
          }
        case IntroOptIn =>
          if ev.IntroCompleted? {
            IntroCompletedStep(m, ev.optInDataSharing, options);
          } else {
            IntroSkippedStep(m, ev.skippedOptIn, options);
          }
        case UserProfileStep => UserProfileStepRestsInBusinessInfo(m, ev, options);
        case PreBusinessInfo => assert false;
        case BusinessInfoStep => BusinessInfoRestsInExtensions(m, ev.businessInfo, options);
        case PreSkipFlowBusinessLocation =>
          if ev.CountriesResolved? {
            CountriesLookupDone(m, ev.countryList, options);
          } else {
            CountriesLookupFailed(m, options);
          }
        case SkipFlowBusinessLocation => BusinessLocationStep(m, ev.location, options);
        case PostSkipFlowBusinessLocation => LoaderSettlesWithRedirect(m, options);
        case PreExtensions => assert false;
        case ExtensionsStep => ExtensionsCompletedStep(m, ev.extensionsSelected, options);
        case SettingUpStore => assert false;
      }
    }
  }

  lemma {:induction false} RunKeepsCountriesOnlyInSkipFlow(m: Machine, evs: seq<Event>, options: CountryOptions)
    requires CountriesOnlyInSkipFlow(m)
    ensures CountriesOnlyInSkipFlow(Run(m, evs, options).machine)
    decreases |evs|
  {
    if evs != [] {
      SendKeepsCountriesOnlyInSkipFlow(m, evs[0], options);
      RunKeepsCountriesOnlyInSkipFlow(Send(m, evs[0], options).machine, evs[1..], options);
    }
  }

  /** On every run from the start, whatever events came before, a failed
      country lookup leaves the countries empty. */
  lemma FailedCountryLookupLeavesNoCountries(evs: seq<Event>, options: CountryOptions)
    requires Run(Start(options).machine, evs, options).machine.state == PreSkipFlowBusinessLocation
    ensures Send(Run(Start(options).machine, evs, options).machine, InvocationRejected(GetCountries), options).machine.context.countries
         == map[]
  {
    var m := Run(Start(options).machine, evs, options).machine;
    RunKeepsCountriesOnlyInSkipFlow(Start(options).machine, evs, options);
    if m.pending == Some(GetCountries) {
      CountriesLookupFailed(m, options);
    } else {
      StaleSettlementIgnored(m, InvocationRejected(GetCountries), options);
    }
  }

  /** Start, a failed tracking lookup, INTRO_SKIPPED and a failed country
      lookup: the machine rests in the business-location step with the
      default context, countries still empty. */
  lemma SkipFlowWithBothLookupsFailing(options: CountryOptions)
    ensures var m := Run(Start(options).machine,
                         [InvocationRejected(GetAllowTrackingOption), IntroSkipped(false), InvocationRejected(GetCountries)],
                         options).machine;
      m == Machine(SkipFlowBusinessLocation, DefaultContext(), None) && m.context.countries == map[]
  {
    var evs := [InvocationRejected(GetAllowTrackingOption), IntroSkipped(false), InvocationRejected(GetCountries)];
    var m0 := Start(options).machine;
    TrackingLookupFailed(m0, options);
    var m1 := Send(m0, evs[0], options).machine;
    IntroSkippedStep(m1, false, options);
    var m2 := Send(m1, evs[1], options).machine;
    CountriesLookupFailed(m2, options);
    var m3 := Send(m2, evs[2], options).machine;
    assert evs[1..][1..][1..] == [];
    assert Run(m2, evs[1..][1..], options).machine == m3;
    assert Run(m1, evs[1..], options).machine == m3;
  }

  // ------------------------------------------------------------ no cycles

  /** A step either stays in its state or moves to a strictly higher rank. */
  lemma {:induction false} TraceRanksNondecreasing(m: Machine, evs: seq<Event>, options: CountryOptions)
    ensures forall i :: 0 <= i < |evs| ==> Trace(m, evs, options)[i] == m.state || Rank(m.state) < Rank(Trace(m, evs, options)[i])
    ensures forall i, j :: 0 <= i <= j < |evs| ==>
      Trace(m, evs, options)[i] == Trace(m, evs, options)[j] || Rank(Trace(m, evs, options)[i]) < Rank(Trace(m, evs, options)[j])
    decreases |evs|
  {
    if evs != [] {
      var next := Send(m, evs[0], options).machine;
      TraceRanksNondecreasing(next, evs[1..], options);
      var tr := Trace(m, evs, options);
      var rest := Trace(next, evs[1..], options);
      assert tr == [next.state] + rest;
      assert tr[0] == next.state;
      assert next.state == m.state || Rank(m.state) < Rank(next.state);
      forall i | 0 <= i < |tr|
        ensures tr[i] == m.state || Rank(m.state) < Rank(tr[i])
      {
        if i > 0 {
          assert tr[i] == rest[i - 1];
          assert rest[i - 1] == next.state || Rank(next.state) < Rank(rest[i - 1]);
        }
      }
      forall i, j | 0 <= i <= j < |tr|
        ensures tr[i] == tr[j] || Rank(tr[i]) < Rank(tr[j])
      {
        if j > 0 {
          assert tr[j] == rest[j - 1];
          assert rest[j - 1] == next.state || Rank(next.state) < Rank(rest[j - 1]);
          if i > 0 {
            assert tr[i] == rest[i - 1];
            assert rest[i - 1] == rest[j - 1] || Rank(rest[i - 1]) < Rank(rest[j - 1]);
          }
        }
      }
    }
  }

  /** A run never comes back to a state it has left, so a service's
      settlement can only ever be routed to the one visit that started it. */
  lemma NoStateRevisited(m: Machine, evs: seq<Event>, options: CountryOptions, i: nat, k: nat, j: nat)
    requires i <= k <= j < |evs|
    requires Trace(m, evs, options)[i] == Trace(m, evs, options)[j]
    ensures Trace(m, evs, options)[k] == Trace(m, evs, options)[i]
  {
    TraceRanksNondecreasing(m, evs, options);
  }
}
