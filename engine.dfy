/**
 * The interpreter for the state graph: the semantics of the xstate engine
 * that the graph relies on. An event the current state does not declare is
 * ignored; exit actions run before the transition's actions, which run
 * before the target's entry actions; `choose` takes its first matching
 * branch; `always` transitions are taken as soon as a state is entered; and
 * a settlement applies only while the invocation that produced it is live.
 */
module ProfilerEngine {
  import opened Wrappers
  import opened ProfilerTypes
  import opened ProfilerActions
  import opened ProfilerGraph

  /** The engine's state: current state, context, and the service invoked
      by the current state that has not settled yet. */
  datatype Machine = Machine(state: State, context: Context, pending: Option<Service>)

  /** A machine after a step, with the effects of that step in order. */
  datatype Outcome = Outcome(machine: Machine, effects: seq<Effect>)

  /** `choose`: the actions of the first branch whose condition holds. */
  function ChooseFirst(bs: seq<Branch>, ev: Event): seq<ActionName>
    decreases |bs|
  {
    if bs == [] then []
    else if TypeOf(ev) == Some(bs[0].eventType) then bs[0].actions
    else ChooseFirst(bs[1..], ev)
  }

  /** The exit actions of `s` when it is left on `ev`. */
  function ExitActionsOf(s: State, ev: Event): seq<ActionName>
  {
    match Node(s).exit
    case ExitActions(acts) => acts
    case ExitChoose(bs) => ChooseFirst(bs, ev)
  }

  function EvalGuard(g: Guard, c: Context, ev: Event): bool
  {
    match g
    case ConstantTrue => true
  }

  /** The first eventless transition whose guard holds, in declared order. */
  function FirstEnabled(rules: seq<AlwaysRule>, holds: Guard -> bool): (r: Option<AlwaysRule>)
    ensures r.Some? ==> r.value in rules && holds(r.value.cond)
    ensures r.None? ==> forall ar :: ar in rules ==> !holds(ar.cond)
    decreases |rules|
  {
    if rules == [] then None
    else if holds(rules[0].cond) then Some(rules[0])
    else FirstEnabled(rules[1..], holds)
  }

  /** The transition taken is the first enabled one: every rule declared
      before it has a guard that does not hold. */
  lemma {:induction false} FirstEnabledIsFirst(rules: seq<AlwaysRule>, holds: Guard -> bool)
    ensures FirstEnabled(rules, holds).Some? ==>
      exists i :: 0 <= i < |rules| && rules[i] == FirstEnabled(rules, holds).value
        && forall j :: 0 <= j < i ==> !holds(rules[j].cond)
    decreases |rules|
  {
    if rules != [] && !holds(rules[0].cond) {
      var tail := rules[1..];
      FirstEnabledIsFirst(tail, holds);
      if FirstEnabled(tail, holds).Some? {
        var i :| 0 <= i < |tail| && tail[i] == FirstEnabled(tail, holds).value
                 && forall j :: 0 <= j < i ==> !holds(tail[j].cond);
        assert rules[i + 1] == tail[i];
      }
    }
  }

  /** The service a state invokes on entry, if any. */
  function InvokedBy(s: State): Option<Service>
  {
    match Node(s).invoke
    case Some(inv) => Some(inv.src)
    case None => None
  }

  /** The transition `ev` selects in `m`, if any: a handler from the current
      state's `on` table, or the onDone/onError route of its live invocation. */
  function SelectRule(m: Machine, ev: Event): (r: Option<Rule>)
    ensures r.Some? && SettlementOf(ev).Some? ==>
      && m.pending == Some(SettlementOf(ev).value.0)
      && Node(m.state).invoke.Some? && Node(m.state).invoke.value.src == SettlementOf(ev).value.0
    ensures SettlementOf(ev).None? ==> (r.Some? <==> TypeOf(ev).Some? && TypeOf(ev).value in Node(m.state).on)
  {
    match SettlementOf(ev)
    case Some((src, ok)) =>
      if m.pending == Some(src) && Node(m.state).invoke.Some? && Node(m.state).invoke.value.src == src then
        (if ok then Some(Node(m.state).invoke.value.onDone) else Node(m.state).invoke.value.onError)
      else None
    case None =>
      match TypeOf(ev)
      case Some(t) => if t in Node(m.state).on then Some(Node(m.state).on[t]) else None
      case None => None
  }

  lemma RankBounded(s: State)
    ensures Rank(s) <= MaxRank
  {
  }

  /** A selected transition follows an edge of the graph. */
  lemma SelectedRuleIsEdge(m: Machine, ev: Event)
    requires SelectRule(m, ev).Some? && SelectRule(m, ev).value.target.Some?
    ensures Edge(m.state, SelectRule(m, ev).value.target.value)
  {
    if SettlementOf(ev).None? {
      var k := TypeOf(ev).value;
      assert k in Node(m.state).on && Node(m.state).on[k] == SelectRule(m, ev).value;
    } else {
      var inv := Node(m.state).invoke.value;
      if SettlementOf(ev).value.1 {
        assert SelectRule(m, ev) == Some(inv.onDone);
      } else {
        assert SelectRule(m, ev) == inv.onError;
      }
    }
  }

  /** Every selected transition with a target moves to a higher rank. */
  lemma SelectedRuleAdvances(m: Machine, ev: Event)
    requires SelectRule(m, ev).Some? && SelectRule(m, ev).value.target.Some?
    ensures Rank(SelectRule(m, ev).value.target.value) > Rank(m.state)
  {
    SelectedRuleIsEdge(m, ev);
    EdgeAdvances(m.state, SelectRule(m, ev).value.target.value);
  }

  lemma SelectRuleInInitializing(m: Machine, ev: Event)
    requires m.state == Initializing
    ensures SelectRule(m, ev) ==
      if ev.InitializationComplete? then Some(To(IntroOptIn, []))
      else if m.pending == Some(GetAllowTrackingOption) && ev.AllowTrackingResolved? then Some(To(IntroOptIn, [HandleTrackingOption]))
      else if m.pending == Some(GetAllowTrackingOption) && ev == InvocationRejected(GetAllowTrackingOption) then Some(To(IntroOptIn, []))
      else None
  {
  }

  lemma SelectRuleInIntroOptIn(m: Machine, ev: Event)
    requires m.state == IntroOptIn
    ensures SelectRule(m, ev) ==
      if ev.IntroCompleted? then Some(To(UserProfileStep, [AssignOptInDataSharing, UpdateTrackingOption]))
      else if ev.IntroSkipped? then Some(To(PreSkipFlowBusinessLocation, [AssignOptInDataSharing, UpdateTrackingOption]))
      else None
  {
  }

  lemma SelectRuleInUserProfileStep(m: Machine, ev: Event)
    requires m.state == UserProfileStep
    ensures SelectRule(m, ev) ==
      if ev.UserProfileCompleted? || ev.UserProfileSkipped? then Some(To(PreBusinessInfo, [AssignUserProfile])) else None
  {
  }

  lemma SelectRuleInPreBusinessInfo(m: Machine, ev: Event)
    requires m.state == PreBusinessInfo
    ensures SelectRule(m, ev) ==
      None
  {
  }

  lemma SelectRuleInBusinessInfoStep(m: Machine, ev: Event)
    requires m.state == BusinessInfoStep
    ensures SelectRule(m, ev) ==
      if ev.BusinessInfoCompleted? then Some(To(PreExtensions, [AssignBusinessInfo])) else None
  {
  }

  lemma SelectRuleInPreSkipFlowBusinessLocation(m: Machine, ev: Event)
    requires m.state == PreSkipFlowBusinessLocation
    ensures SelectRule(m, ev) ==
      if m.pending == Some(GetCountries) && ev.CountriesResolved? then Some(To(SkipFlowBusinessLocation, [HandleCountries]))
      else if m.pending == Some(GetCountries) && ev == InvocationRejected(GetCountries) then Some(To(SkipFlowBusinessLocation, []))
      else None
  {
  }

  lemma SelectRuleInSkipFlowBusinessLocation(m: Machine, ev: Event)
    requires m.state == SkipFlowBusinessLocation
    ensures SelectRule(m, ev) ==
      if ev.BusinessLocationCompleted?
      then Some(To(PostSkipFlowBusinessLocation, [AssignBusinessInfo, RecordTracksSkipBusinessLocationCompleted]))
      else None
  {
  }

  lemma SelectRuleInPostSkipFlowBusinessLocation(m: Machine, ev: Event)
    requires m.state == PostSkipFlowBusinessLocation
    ensures SelectRule(m, ev) ==
      if m.pending == Some(LoaderTimer) && ev.LoaderResolved? then Some(Rule(None, [RedirectToWooHome])) else None
  {
  }

  lemma SelectRuleInPreExtensions(m: Machine, ev: Event)
    requires m.state == PreExtensions
    ensures SelectRule(m, ev) ==
      None
  {
  }

  lemma SelectRuleInExtensionsStep(m: Machine, ev: Event)
    requires m.state == ExtensionsStep
    ensures SelectRule(m, ev) ==
      if ev.ExtensionsCompleted? then Some(To(SettingUpStore, [])) else None
  {
  }

  lemma SelectRuleInSettingUpStore(m: Machine, ev: Event)
    requires m.state == SettingUpStore
    ensures SelectRule(m, ev) ==
      None
  {
  }


  /** Every eventless transition moves to a higher rank. */
  lemma AlwaysAdvances(s: State, ar: AlwaysRule)
    requires ar in Node(s).always
    ensures Rank(ar.target) > Rank(s)
  {
  }

  /** Enters `t`: entry actions, invocation start, then any enabled eventless
      transition. The machine comes to rest in a state without eventless
      transitions, at or past `t`, with that state's invocation live. */
  function Enter(t: State, c: Context, ev: Event, options: CountryOptions): (r: Outcome)
    ensures Rank(r.machine.state) >= Rank(t)
    ensures Node(r.machine.state).always == []
    ensures r.machine.pending == InvokedBy(r.machine.state)
    decreases MaxRank - Rank(t), 1
  {
    RankBounded(t);
    var (c1, e1) := RunActions(Node(t).entry, c, ev, options);
    var pending := InvokedBy(t);
    var started := if pending.Some? then [Started(pending.value)] else [];
    match FirstEnabled(Node(t).always, g => EvalGuard(g, c1, ev))
    case None => Outcome(Machine(t, c1, pending), e1 + started)
    case Some(ar) =>
      AlwaysAdvances(t, ar);
      var o := Leave(Machine(t, c1, pending), To(ar.target, []), ev, options);
      Outcome(o.machine, e1 + started + o.effects)
  }

  /** Leaves the current state along `rule`: exit actions (which also stop
      the live invocation), the rule's actions, then entry into its target. */
  function Leave(m: Machine, rule: Rule, ev: Event, options: CountryOptions): (r: Outcome)
    requires rule.target.Some? && Rank(rule.target.value) > Rank(m.state)
    ensures Rank(r.machine.state) > Rank(m.state)
    ensures Node(r.machine.state).always == []
    ensures r.machine.pending == InvokedBy(r.machine.state)
    decreases MaxRank - Rank(m.state), 0
  {
    RankBounded(rule.target.value);
    var (c1, e1) := RunActions(ExitActionsOf(m.state, ev), m.context, ev, options);
    var (c2, e2) := RunActions(rule.actions, c1, ev, options);
    var o := Enter(rule.target.value, c2, ev, options);
    Outcome(o.machine, e1 + e2 + o.effects)
  }

  /** `send(event)`: one run-to-completion step. A step that selects no
      transition changes nothing; one that changes state moves forward in
      the graph and comes to rest with the new state's invocation live. */
  function Send(m: Machine, ev: Event, options: CountryOptions): (r: Outcome)
    ensures SelectRule(m, ev).None? ==> r == Outcome(m, [])
    ensures r.machine.state == m.state || Rank(r.machine.state) > Rank(m.state)
    ensures r.machine.state != m.state ==> Node(r.machine.state).always == [] && r.machine.pending == InvokedBy(r.machine.state)
  {
    match SelectRule(m, ev)
    case None => Outcome(m, [])
    case Some(rule) =>
      if rule.target.None? then
        // a targetless transition: actions only, no exit or re-entry
        var (c, e) := RunActions(rule.actions, m.context, ev, options);
        Outcome(Machine(m.state, c, if SettlementOf(ev).Some? then None else m.pending), e)
      else
        SelectedRuleAdvances(m, ev);
        Leave(m, rule, ev, options)
  }

  /** Entering a state without eventless transitions: its entry actions,
      then its invocation starts, and the machine rests there. */
  lemma EnterRestingState(t: State, c: Context, ev: Event, options: CountryOptions, c1: Context, e1: seq<Effect>)
    requires Node(t).always == []
    requires RunActions(Node(t).entry, c, ev, options) == (c1, e1)
    ensures Enter(t, c, ev, options)
         == Outcome(Machine(t, c1, InvokedBy(t)), e1 + if InvokedBy(t).Some? then [Started(InvokedBy(t).value)] else [])
    ensures InvokedBy(t).None? ==> Enter(t, c, ev, options) == Outcome(Machine(t, c1, None), e1)
  {
    assert FirstEnabled(Node(t).always, g => EvalGuard(g, c1, ev)) == None;
    assert e1 + [] == e1;
  }

  /** Leaving along a transition: exit actions, the rule's actions, then
      entry into its target. */
  lemma LeaveAlong(m: Machine, rule: Rule, ev: Event, options: CountryOptions,
                   c1: Context, e1: seq<Effect>, c2: Context, e2: seq<Effect>, entered: Outcome)
    requires rule.target.Some? && Rank(rule.target.value) > Rank(m.state)
    requires RunActions(ExitActionsOf(m.state, ev), m.context, ev, options) == (c1, e1)
    requires RunActions(rule.actions, c1, ev, options) == (c2, e2)
    requires Enter(rule.target.value, c2, ev, options) == entered
    ensures Leave(m, rule, ev, options) == Outcome(entered.machine, e1 + e2 + entered.effects)
  {
  }

  /** A step along a transition with a target. */
  lemma SendAlong(m: Machine, ev: Event, options: CountryOptions, rule: Rule,
                  c1: Context, e1: seq<Effect>, c2: Context, e2: seq<Effect>, entered: Outcome)
    requires SelectRule(m, ev) == Some(rule) && rule.target.Some?
    requires RunActions(ExitActionsOf(m.state, ev), m.context, ev, options) == (c1, e1)
    requires RunActions(rule.actions, c1, ev, options) == (c2, e2)
    requires Enter(rule.target.value, c2, ev, options) == entered
    ensures Send(m, ev, options) == Outcome(entered.machine, e1 + e2 + entered.effects)
    ensures e1 == [] && e2 == [] ==> Send(m, ev, options) == entered
  {
    assert [] + [] + entered.effects == entered.effects;
    SelectedRuleAdvances(m, ev);
    LeaveAlong(m, rule, ev, options, c1, e1, c2, e2, entered);
    assert Send(m, ev, options) == Leave(m, rule, ev, options);
  }

  lemma RunNoActions(c: Context, ev: Event, options: CountryOptions)
    ensures RunActions([], c, ev, options) == (c, [])
  {
  }

  lemma RunActionsOne(a: ActionName, c: Context, ev: Event, options: CountryOptions)
    ensures RunActions([a], c, ev, options) == RunAction(a, c, ev, options)
  {
    var r := RunAction(a, c, ev, options);
    assert [a][1..] == [];
    assert RunActions([], r.0, ev, options) == (r.0, []);
    assert r.1 + [] == r.1;
  }

  lemma RunActionsTwo(a: ActionName, b: ActionName, c: Context, ev: Event, options: CountryOptions)
    ensures var (c1, e1) := RunAction(a, c, ev, options);
      RunActions([a, b], c, ev, options) == (RunAction(b, c1, ev, options).0, e1 + RunAction(b, c1, ev, options).1)
  {
    assert [a, b][1..] == [b];
    RunActionsOne(b, RunAction(a, c, ev, options).0, ev, options);
  }

  /** `start()`: enters the initial state with the default context. */
  function Start(options: CountryOptions): (r: Outcome)
    ensures r.machine == Machine(InitialState, DefaultContext(), Some(GetAllowTrackingOption))
    ensures r.effects == [Started(GetAllowTrackingOption)]
  {
    RunNoActions(DefaultContext(), Init, options);
    EnterRestingState(InitialState, DefaultContext(), Init, options, DefaultContext(), []);
    Enter(InitialState, DefaultContext(), Init, options)
  }

  /** Feeds events one at a time, concatenating their effects. */
  function Run(m: Machine, evs: seq<Event>, options: CountryOptions): Outcome
    decreases |evs|
  {
    if evs == [] then Outcome(m, [])
    else
      var o := Send(m, evs[0], options);
      var rest := Run(o.machine, evs[1..], options);
      Outcome(rest.machine, o.effects + rest.effects)
  }

  /** The states the host observes after each event of `evs`. */
  function Trace(m: Machine, evs: seq<Event>, options: CountryOptions): (t: seq<State>)
    ensures |t| == |evs|
    decreases |evs|
  {
    if evs == [] then []
    else
      var next := Send(m, evs[0], options).machine;
      [next.state] + Trace(next, evs[1..], options)
  }
}
