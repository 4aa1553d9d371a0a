/**
 * The core profiler's state graph as data: for every state, its event
 * handlers, its invocation, its eventless (`always`) transitions, its entry
 * and exit actions and its metadata. The engine interprets this table.
 */
module ProfilerGraph {
  import opened Wrappers
  import opened ProfilerTypes
  import opened ProfilerActions

  /** A transition: an optional target (none for a targetless transition)
      and the actions run on the way. */
  datatype Rule = Rule(target: Option<State>, actions: seq<ActionName>)

  /** An invoked service and where its settlement is routed. */
  datatype Invocation = Invocation(src: Service, onDone: Rule, onError: Option<Rule>)

  /** The guard of an eventless transition; the source only uses `() => true`. */
  datatype Guard = ConstantTrue

  datatype AlwaysRule = AlwaysRule(target: State, cond: Guard)

  /** A `choose` branch whose condition is a test on the event's type tag. */
  datatype Branch = Branch(eventType: EventType, actions: seq<ActionName>)

  /** Exit actions: either a plain list, or a `choose` over branches. */
  datatype ExitSpec =
    | ExitActions(actions: seq<ActionName>)
    | ExitChoose(branches: seq<Branch>)

  /** The view the host renders for a state. */
  datatype View = IntroOptInView | UserProfileView | BusinessInfoView | BusinessLocationView | LoaderView | ExtensionsView

  datatype StateNode = StateNode(
    on: map<EventType, Rule>,
    invoke: Option<Invocation>,
    always: seq<AlwaysRule>,
    entry: seq<ActionName>,
    exit: ExitSpec,
    progress: Option<nat>,
    component: Option<View>
  )

  function To(s: State, acts: seq<ActionName>): Rule
  {
    Rule(Some(s), acts)
  }

  /** `coreProfilerStateMachineDefinition`: the initial state. */
  const InitialState: State := Initializing

  /** `coreProfilerStateMachineDefinition`: the state table, one node per state. */
  function Node(s: State): (r: StateNode)
    ensures r.always == [] <==> s != PreBusinessInfo && s != PreExtensions
    ensures |r.always| <= 1 && (r.invoke.Some? ==> r.always == [])
  {
    match s
    case Initializing => InitializingNode()
    case IntroOptIn => IntroOptInNode()
    case UserProfileStep => UserProfileNode()
    case PreBusinessInfo => PreBusinessInfoNode()
    case BusinessInfoStep => BusinessInfoNode()
    case PreSkipFlowBusinessLocation => PreSkipFlowBusinessLocationNode()
    case SkipFlowBusinessLocation => SkipFlowBusinessLocationNode()
    case PostSkipFlowBusinessLocation => PostSkipFlowBusinessLocationNode()
    case PreExtensions => PreExtensionsNode()
    case ExtensionsStep => ExtensionsNode()
    case SettingUpStore => SettingUpStoreNode()
  }

  function InitializingNode(): StateNode
  {
    StateNode(
      map[INITIALIZATION_COMPLETE := To(IntroOptIn, [])],
      Some(Invocation(GetAllowTrackingOption, To(IntroOptIn, [HandleTrackingOption]), Some(To(IntroOptIn, [])))),
      [], [], ExitActions([]), Some(0), None)
  }

  function IntroOptInNode(): StateNode
  {
    StateNode(
      map[INTRO_COMPLETED := To(UserProfileStep, [AssignOptInDataSharing, UpdateTrackingOption]),
          INTRO_SKIPPED := To(PreSkipFlowBusinessLocation, [AssignOptInDataSharing, UpdateTrackingOption])],
      None, [], [RecordTracksIntroViewed],
      ExitChoose([Branch(INTRO_COMPLETED, [RecordTracksIntroCompleted]),
                  Branch(INTRO_SKIPPED, [RecordTracksIntroSkipped])]),
      Some(20), Some(IntroOptInView))
  }

  function UserProfileNode(): StateNode
  {
    StateNode(
      map[USER_PROFILE_COMPLETED := To(PreBusinessInfo, [AssignUserProfile]),
          USER_PROFILE_SKIPPED := To(PreBusinessInfo, [AssignUserProfile])],
      None, [], [], ExitActions([]), Some(40), Some(UserProfileView))
  }

  function PreBusinessInfoNode(): StateNode
  {
    StateNode(map[], None, [AlwaysRule(BusinessInfoStep, ConstantTrue)], [], ExitActions([]), Some(50), None)
  }

  function BusinessInfoNode(): StateNode
  {
    StateNode(
      map[BUSINESS_INFO_COMPLETED := To(PreExtensions, [AssignBusinessInfo])],
      None, [], [], ExitActions([]), Some(60), Some(BusinessInfoView))
  }

  function PreSkipFlowBusinessLocationNode(): StateNode
  {
    StateNode(
      map[],
      Some(Invocation(GetCountries, To(SkipFlowBusinessLocation, [HandleCountries]), Some(To(SkipFlowBusinessLocation, [])))),
      [], [], ExitActions([]), None, None)
  }

  function SkipFlowBusinessLocationNode(): StateNode
  {
    StateNode(
      map[BUSINESS_LOCATION_COMPLETED := To(PostSkipFlowBusinessLocation, [AssignBusinessInfo, RecordTracksSkipBusinessLocationCompleted])],
      None, [], [RecordTracksSkipBusinessLocationViewed], ExitActions([]), Some(80), Some(BusinessLocationView))
  }

  /** The loader: its timer's settlement is a targetless transition. */
  function PostSkipFlowBusinessLocationNode(): StateNode
  {
    StateNode(
      map[],
      Some(Invocation(LoaderTimer, Rule(None, [RedirectToWooHome]), None)),
      [], [], ExitActions([]), None, Some(LoaderView))
  }

  function PreExtensionsNode(): StateNode
  {
    StateNode(map[], None, [AlwaysRule(ExtensionsStep, ConstantTrue)], [], ExitActions([FilterExtensionsAvailable]), Some(70), None)
  }

  function ExtensionsNode(): StateNode
  {
    StateNode(
      map[EXTENSIONS_COMPLETED := To(SettingUpStore, [])],
      None, [], [], ExitActions([]), Some(80), Some(ExtensionsView))
  }

  /** The terminal state: no handlers, no invocation. */
  function SettingUpStoreNode(): StateNode
  {
    StateNode(map[], None, [], [], ExitActions([]), None, None)
  }

  /** Position of a state along its branch of the wizard; every edge of the
      graph leads to a higher rank, so the graph has no cycles. */
  function Rank(s: State): nat
  {
    match s
    case Initializing => 0
    case IntroOptIn => 1
    case UserProfileStep => 2
    case PreBusinessInfo => 3
    case BusinessInfoStep => 4
    case PreExtensions => 5
    case ExtensionsStep => 6
    case SettingUpStore => 7
    case PreSkipFlowBusinessLocation => 2
    case SkipFlowBusinessLocation => 3
    case PostSkipFlowBusinessLocation => 4
  }

  const MaxRank: nat := 7

  /** The states of the graph a rule, invocation or always transition of `s` may target. */
  ghost predicate Edge(s: State, t: State)
  {
    || (exists k :: k in Node(s).on && Node(s).on[k].target == Some(t))
    || (Node(s).invoke.Some? && Node(s).invoke.value.onDone.target == Some(t))
    || (Node(s).invoke.Some? && Node(s).invoke.value.onError.Some? && Node(s).invoke.value.onError.value.target == Some(t))
    || (exists i :: 0 <= i < |Node(s).always| && Node(s).always[i].target == t)
  }

  /** Every edge of the graph leads to a higher rank (the graph is acyclic)
      and never lowers the progress level. */
  lemma EdgeAdvances(s: State, t: State)
    requires Edge(s, t)
    ensures Rank(t) > Rank(s)
    ensures Level(t) >= Level(s)
  {
    match s {
      case Initializing => EdgeAdvancesFromInitializing(t);
      case IntroOptIn => EdgeAdvancesFromIntroOptIn(t);
      case UserProfileStep => EdgeAdvancesFromUserProfileStep(t);
      case PreBusinessInfo => EdgeAdvancesFromPreBusinessInfo(t);
      case BusinessInfoStep => EdgeAdvancesFromBusinessInfoStep(t);
      case PreSkipFlowBusinessLocation => EdgeAdvancesFromPreSkipFlowBusinessLocation(t);
      case SkipFlowBusinessLocation => EdgeAdvancesFromSkipFlowBusinessLocation(t);
      case PostSkipFlowBusinessLocation => assert false;
      case PreExtensions => EdgeAdvancesFromPreExtensions(t);
      case ExtensionsStep => EdgeAdvancesFromExtensionsStep(t);
      case SettingUpStore => assert false;
    }
  }

  lemma EdgeAdvancesFromInitializing(t: State)
    requires Edge(Initializing, t)
    ensures Rank(t) > Rank(Initializing) && Level(t) >= Level(Initializing)
  {
  }

  lemma EdgeAdvancesFromIntroOptIn(t: State)
    requires Edge(IntroOptIn, t)
    ensures Rank(t) > Rank(IntroOptIn) && Level(t) >= Level(IntroOptIn)
  {
  }

  lemma EdgeAdvancesFromUserProfileStep(t: State)
    requires Edge(UserProfileStep, t)
    ensures Rank(t) > Rank(UserProfileStep) && Level(t) >= Level(UserProfileStep)
  {
  }

  lemma EdgeAdvancesFromPreBusinessInfo(t: State)
    requires Edge(PreBusinessInfo, t)
    ensures Rank(t) > Rank(PreBusinessInfo) && Level(t) >= Level(PreBusinessInfo)
  {
  }

  lemma EdgeAdvancesFromBusinessInfoStep(t: State)
    requires Edge(BusinessInfoStep, t)
    ensures Rank(t) > Rank(BusinessInfoStep) && Level(t) >= Level(BusinessInfoStep)
  {
  }

  lemma EdgeAdvancesFromPreSkipFlowBusinessLocation(t: State)
    requires Edge(PreSkipFlowBusinessLocation, t)
    ensures Rank(t) > Rank(PreSkipFlowBusinessLocation) && Level(t) >= Level(PreSkipFlowBusinessLocation)
  {
  }

  lemma EdgeAdvancesFromSkipFlowBusinessLocation(t: State)
    requires Edge(SkipFlowBusinessLocation, t)
    ensures Rank(t) > Rank(SkipFlowBusinessLocation) && Level(t) >= Level(SkipFlowBusinessLocation)
  {
  }

  lemma EdgeAdvancesFromPreExtensions(t: State)
    requires Edge(PreExtensions, t)
    ensures Rank(t) > Rank(PreExtensions) && Level(t) >= Level(PreExtensions)
  {
  }

  lemma EdgeAdvancesFromExtensionsStep(t: State)
    requires Edge(ExtensionsStep, t)
    ensures Rank(t) > Rank(ExtensionsStep) && Level(t) >= Level(ExtensionsStep)
  {
  }

  /** Where entering `t` comes to rest: each pass-through state hands over
      to the target of its eventless transition. */
  function RestingOf(t: State): State
  {
    match t
    case PreBusinessInfo => BusinessInfoStep
    case PreExtensions => ExtensionsStep
    case _ => t
  }

  /** A measure of progress along the wizard: the declared progress, or for
      a state without one, the last value declared on the way in. The host
      reads no progress in such a state. */
  function Level(s: State): nat
  {
    if Node(s).progress.Some? then Node(s).progress.value
    else if s == PreSkipFlowBusinessLocation then 20
    else 80
  }
}
