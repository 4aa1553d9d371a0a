# Core profiler state machine, modelled in Dafny

This project models the state machine of WooCommerce's onboarding wizard, the
"core profiler" (`plugins/woocommerce-admin/client/core-profiler/index.tsx`).
The wizard is a declarative xstate graph. It has eleven named states, from
`initializing` to the terminal `settingUpStore`, a typed context record with
fixed defaults, tagged events, and two pass-through states (`preBusinessInfo`,
`preExtensions`) that leave at once through a constantly true `always` guard.
Three states invoke asynchronous services: the allow-tracking option lookup,
the country list lookup and the loader's three-second timer.

The model keeps the source's split between the graph and the engine:

- `types.dfy` (`ProfilerTypes`): the context record, its defaults, the events and the states.
- `actions.dfy` (`ProfilerActions`): the named actions. Context assignments are pure functions of context and event. The side-effecting hooks (tracking-option write, analytics, redirect) are recorded in an effect log as `Fired(action, event)` and are not performed.
- `graph.dfy` (`ProfilerGraph`): `Node(s)`, the state table as data. It holds the `on` handlers, invocation, `always` rules, entry/exit actions and `meta.progress`/`component` of each state, plus a rank used to show the graph is acyclic.
- `engine.dfy` (`ProfilerEngine`): the xstate semantics the graph relies on. An undeclared event is ignored. Exit actions run, then the transition's actions, then the entry actions. `choose` takes the first matching branch. `always` transitions are taken on entry. A settlement applies only while the invocation that produced it is live (`Machine.pending`).
- `properties.dfy` (`ProfilerProperties`) and `runs.dfy` (`ProfilerRuns`): what the graph promises, step by step and over whole runs.

The services' outcomes are events (`AllowTrackingResolved`, `CountriesResolved`,
`LoaderResolved`, `InvocationRejected`). `getCountryStateOptions` is not part
of this model: it is passed in as the function `options`. Country and
extension records are abstract types.

## Model

| member | source | states |
|---|---|---|
| `ProfilerTypes.DefaultContext` | plugins/woocommerce-admin/client/core-profiler/index.tsx:221-232 | the context starts with opt-in off, the profile skipped, location "US:CA" for both the geolocation and the business info (with no details), no extensions, no countries and an empty loader |
| `ProfilerActions.ApplyHandleTrackingOption` | plugins/woocommerce-admin/client/core-profiler/index.tsx:132-137 | `handleTrackingOption` changes only the opt-in flag, to true unless the loaded option is "no"; any other event leaves the context unchanged |
| `ProfilerActions.ApplyAssignOptInDataSharing` | plugins/woocommerce-admin/client/core-profiler/index.tsx:212-215 | `assignOptInDataSharing` changes only the opt-in flag: the INTRO_COMPLETED payload, or off on INTRO_SKIPPED |
| `ProfilerActions.ApplyHandleCountries` | plugins/woocommerce-admin/client/core-profiler/index.tsx:142-146 | `handleCountries` changes only the countries, to the converted country list of the lookup's result |
| `ProfilerActions.ApplyAssignUserProfile` | plugins/woocommerce-admin/client/core-profiler/index.tsx:298-301 | both user-profile assignments change only the profile: the completed payload, or the skipped marker |
| `ProfilerActions.ApplyAssignBusinessInfo` | plugins/woocommerce-admin/client/core-profiler/index.tsx:336-341 | both business-info assignments (also index.tsx:371-376) change only the business info, to the event's payload |
| `ProfilerActions.ApplyFilterExtensions` | plugins/woocommerce-admin/client/core-profiler/index.tsx:412-416 | the exit filter of `preExtensions` leaves the context unchanged, because its predicate keeps every extension |
| `ProfilerActions.AllowsTracking` | plugins/woocommerce-admin/client/core-profiler/index.tsx:132-137 | the loaded option opts in exactly when it is not "no", so an undefined option opts in |
| `ProfilerActions.TrackingValue` | plugins/woocommerce-admin/client/core-profiler/index.tsx:203-206 | the tracking hook writes "yes" or "no", and "no" exactly when the user opted out |
| `ProfilerActions.Filter` | plugins/woocommerce-admin/client/core-profiler/index.tsx:412-416 | the filter keeps exactly the elements its predicate accepts, each as often as it occurs, and never grows the list |
| `ProfilerActions.FilterAppend` | plugins/woocommerce-admin/client/core-profiler/index.tsx:412-416 | the filter keeps the original order: filtering a concatenation concatenates the filtered parts |
| `ProfilerActions.FilterKeepingAllIsIdentity` | plugins/woocommerce-admin/client/core-profiler/index.tsx:411-416 | a filter whose predicate accepts everything (the `() => true` placeholder) returns the list unchanged |
| `ProfilerActions.RunAction` | plugins/woocommerce-admin/client/core-profiler/index.tsx:439-451 | a bound hook leaves the context alone and is logged once with its triggering event; an assignment logs nothing |
| `ProfilerActions.RunActions` | plugins/woocommerce-admin/client/core-profiler/index.tsx:262-265 | an action list logs at most one effect per action, and a list of hooks only leaves the context alone |
| `ProfilerEngine.FirstEnabled` | plugins/woocommerce-admin/client/core-profiler/index.tsx:320-326 | the eventless transition taken is one whose guard holds; none is taken only when no guard holds |
| `ProfilerEngine.FirstEnabledIsFirst` | plugins/woocommerce-admin/client/core-profiler/index.tsx:320-326 | the eventless transition taken is the first, in declared order, whose guard holds: every earlier guard fails |
| `ProfilerGraph.Node` | plugins/woocommerce-admin/client/core-profiler/index.tsx:233-433 | only `preBusinessInfo` and `preExtensions` have eventless transitions, at most one each, and no state both invokes a service and passes through |
| `ProfilerEngine.SelectRule` | plugins/woocommerce-admin/client/core-profiler/index.tsx:233-433 | a settlement selects a transition only while its service is live and was invoked by the current state; a tagged event selects one exactly when the current state's `on` table declares its type |
| `ProfilerEngine.Enter` | plugins/woocommerce-admin/client/core-profiler/index.tsx:319-330 | entering a state comes to rest at or past it, in a state with no `always` transition, with that state's invocation live |
| `ProfilerEngine.Leave` | plugins/woocommerce-admin/client/core-profiler/index.tsx:403-420 | taking a transition moves strictly forward in the graph and comes to rest with the new state's invocation live |
| `ProfilerEngine.Send` | plugins/woocommerce-admin/client/core-profiler/index.tsx:233-433 | an event selecting no transition changes nothing; a state change moves forward and rests in a non-pass-through state |
| `ProfilerEngine.SelectedRuleAdvances` | plugins/woocommerce-admin/client/core-profiler/index.tsx:233-433 | every transition the graph can select targets a state of higher rank |
| `ProfilerEngine.AlwaysAdvances` | plugins/woocommerce-admin/client/core-profiler/index.tsx:319-330 | every `always` transition targets a state of higher rank |
| `ProfilerEngine.Start` | plugins/woocommerce-admin/client/core-profiler/index.tsx:219-242 | the machine starts in `initializing` with the default context, the allow-tracking lookup live, and the lookup's start as the only effect |
| `ProfilerProperties.TrackingLookupDone` | plugins/woocommerce-admin/client/core-profiler/index.tsx:240-248 | a completed lookup goes to `introOptIn`, changes only the opt-in flag (true unless "no", also for undefined) and records the intro view |
| `ProfilerProperties.TrackingLookupFailed` | plugins/woocommerce-admin/client/core-profiler/index.tsx:249-251 | a failed lookup still goes to `introOptIn` and leaves the context unchanged |
| `ProfilerProperties.InitializationCompleteStep` | plugins/woocommerce-admin/client/core-profiler/index.tsx:235-239 | INITIALIZATION_COMPLETE goes to `introOptIn` with the context unchanged and the lookup no longer live |
| `ProfilerProperties.LookupAfterInitializationCompleteIgnored` | plugins/woocommerce-admin/client/core-profiler/index.tsx:235-253 | a lookup result arriving after INITIALIZATION_COMPLETE changes nothing |
| `ProfilerProperties.StartThenLookupFails` | plugins/woocommerce-admin/client/core-profiler/index.tsx:221-251 | start followed by a failed lookup rests in `introOptIn` with opt-in off and no countries |
| `ProfilerProperties.ChooseFirstMatch` | plugins/woocommerce-admin/client/core-profiler/index.tsx:277-287 | whatever `choose` runs is the actions of a matching branch with no earlier branch matching, and it runs nothing when no branch matches |
| `ProfilerProperties.ChooseFirstRunsFirstMatch` | plugins/woocommerce-admin/client/core-profiler/index.tsx:277-287 | when a branch is the first whose event type matches, `choose` runs exactly that branch's actions |
| `ProfilerProperties.IntroExitRecordsOne` | plugins/woocommerce-admin/client/core-profiler/index.tsx:277-287 | leaving the intro records "completed" exactly on INTRO_COMPLETED and "skipped" exactly on INTRO_SKIPPED, never both |
| `ProfilerProperties.IntroCompletedStep` | plugins/woocommerce-admin/client/core-profiler/index.tsx:260-266 | INTRO_COMPLETED goes to `userProfile`, sets only the opt-in flag to the payload, and fires the completed record then the tracking-option hook, once each |
| `ProfilerProperties.IntroSkippedStep` | plugins/woocommerce-admin/client/core-profiler/index.tsx:267-274 | INTRO_SKIPPED goes to `preSkipFlowBusinessLocation` with opt-in off and nothing else changed, fires the skipped record and the tracking-option hook, and starts the country lookup |
| `ProfilerProperties.PersistedOptInRoundTrip` | plugins/woocommerce-admin/client/core-profiler/index.tsx:188-207 | the opt-in value the intro step persists, read back by the next start's lookup, gives the same flag the step stored in the context |
| `ProfilerProperties.UserProfileStepRestsInBusinessInfo` | plugins/woocommerce-admin/client/core-profiler/index.tsx:293-312 | either user-profile event replaces only the profile and the machine rests in `businessInfo`, never in `preBusinessInfo` |
| `ProfilerProperties.PreBusinessInfoPassesThrough` | plugins/woocommerce-admin/client/core-profiler/index.tsx:319-330 | entering `preBusinessInfo` rests in `businessInfo` at once with the context untouched |
| `ProfilerProperties.PreExtensionsPassesThrough` | plugins/woocommerce-admin/client/core-profiler/index.tsx:403-420 | entering `preExtensions` rests in `extensions` at once, and its exit filter leaves the available extensions unchanged |
| `ProfilerProperties.PreExtensionsExitKeepsContext` | plugins/woocommerce-admin/client/core-profiler/index.tsx:411-416 | the exit filter of `preExtensions` runs on every way out, leaves the context unchanged and logs nothing |
| `ProfilerProperties.EnterSettles` | plugins/woocommerce-admin/client/core-profiler/index.tsx:319-330 | entering a pass-through state rests at its `always` target; entering any other state rests there |
| `ProfilerProperties.SendLandsAt` | plugins/woocommerce-admin/client/core-profiler/index.tsx:233-433 | a step rests where its selected transition leads, past any pass-through state, or stays put when none is selected |
| `ProfilerProperties.BusinessInfoRestsInExtensions` | plugins/woocommerce-admin/client/core-profiler/index.tsx:331-343 | BUSINESS_INFO_COMPLETED replaces only the business info and the machine rests in `extensions` |
| `ProfilerProperties.ExtensionsCompletedStep` | plugins/woocommerce-admin/client/core-profiler/index.tsx:421-426 | EXTENSIONS_COMPLETED goes to `settingUpStore` with the context unchanged and no hook fired |
| `ProfilerProperties.CountriesLookupDone` | plugins/woocommerce-admin/client/core-profiler/index.tsx:350-359 | a completed country lookup goes to `skipFlowBusinessLocation`, replaces only the countries with the converted list, and records the step view |
| `ProfilerProperties.CountriesLookupFailed` | plugins/woocommerce-admin/client/core-profiler/index.tsx:360-362 | a failed country lookup also goes to `skipFlowBusinessLocation` and leaves the context (countries included) unchanged |
| `ProfilerProperties.BusinessLocationStep` | plugins/woocommerce-admin/client/core-profiler/index.tsx:366-386 | BUSINESS_LOCATION_COMPLETED replaces only the business info, records the step, and starts the loader |
| `ProfilerProperties.LoaderSettlesWithRedirect` | plugins/woocommerce-admin/client/core-profiler/index.tsx:387-398 | the loader's settlement fires the redirect hook once and stays in the loader state with nothing live |
| `ProfilerProperties.NothingAfterRedirect` | plugins/woocommerce-admin/client/core-profiler/index.tsx:387-402 | after the redirect, any sequence of events changes nothing and fires nothing, so the redirect happens once |
| `ProfilerProperties.UndeclaredEventIgnored` | plugins/woocommerce-admin/client/core-profiler/index.tsx:233-433 | an event leaves state, context and live invocation unchanged and fires nothing exactly when the state does not declare it |
| `ProfilerProperties.DeclaredIffSelected` | plugins/woocommerce-admin/client/core-profiler/index.tsx:233-433 | a transition is selected exactly for the (state, event) pairs the graph declares, settlements only while their service is live, and only the loader's settlement is targetless |
| `ProfilerProperties.StaleSettlementIgnored` | plugins/woocommerce-admin/client/core-profiler/index.tsx:240-253 | the settlement of a service that is not live changes nothing |
| `ProfilerProperties.SettingUpStoreIsTerminal` | plugins/woocommerce-admin/client/core-profiler/index.tsx:432 | `settingUpStore` ignores every event |
| `ProfilerProperties.OnlyExtensionsRuleTargetsSettingUpStore` | plugins/woocommerce-admin/client/core-profiler/index.tsx:421-432 | the only transition in the graph that targets `settingUpStore` is EXTENSIONS_COMPLETED in `extensions` |
| `ProfilerProperties.OnlyExtensionsCompletedReachesSettingUpStore` | plugins/woocommerce-admin/client/core-profiler/index.tsx:421-432 | a step reaches `settingUpStore` exactly when it is EXTENSIONS_COMPLETED from `extensions`, and then the context is unchanged |
| `ProfilerRuns.DeclaredProgressIsPercentage` | plugins/woocommerce-admin/client/core-profiler/index.tsx:467 | every declared `meta.progress` lies in 0..100 |
| `ProfilerGraph.EdgeAdvances` | plugins/woocommerce-admin/client/core-profiler/index.tsx:233-433 | every edge of the graph raises the rank (no cycles) and never lowers the progress level |
| `ProfilerRuns.SendKeepsLevel` | plugins/woocommerce-admin/client/core-profiler/index.tsx:464-467 | no step lowers the progress level |
| `ProfilerRuns.TraceLevelsNondecreasing` | plugins/woocommerce-admin/client/core-profiler/index.tsx:464-467 | the progress level never decreases along any run |
| `ProfilerRuns.HostProgressNondecreasing` | plugins/woocommerce-admin/client/core-profiler/index.tsx:464-467 | the progress the host reads never goes backwards during a run, wherever both states declare one |
| `ProfilerRuns.SendKeepsObservable` | plugins/woocommerce-admin/client/core-profiler/index.tsx:319-330 | every step keeps the machine out of pass-through states, with only the current state's invocation live |
| `ProfilerRuns.RunStaysObservable` | plugins/woocommerce-admin/client/core-profiler/index.tsx:219-433 | after start and after every event sequence the machine is in a resting state with only its own invocation live |
| `ProfilerRuns.RunFromObservable` | plugins/woocommerce-admin/client/core-profiler/index.tsx:319-330 | from an observable machine, every state a run shows the host is a resting state |
| `ProfilerRuns.SendKeepsCountriesOnlyInSkipFlow` | plugins/woocommerce-admin/client/core-profiler/index.tsx:350-386 | every step keeps the countries empty outside `skipFlowBusinessLocation` and `postSkipFlowBusinessLocation` |
| `ProfilerRuns.RunKeepsCountriesOnlyInSkipFlow` | plugins/woocommerce-admin/client/core-profiler/index.tsx:219-433 | every run from a machine with the countries confined to the skip flow keeps them there |
| `ProfilerRuns.FailedCountryLookupLeavesNoCountries` | plugins/woocommerce-admin/client/core-profiler/index.tsx:350-365 | on every run from the start, a failed country lookup leaves the countries empty |
| `ProfilerRuns.SkipFlowWithBothLookupsFailing` | plugins/woocommerce-admin/client/core-profiler/index.tsx:221-365 | start, a failed tracking lookup, INTRO_SKIPPED and a failed country lookup rest in `skipFlowBusinessLocation` with the default context and nothing live |
| `ProfilerRuns.TraceRanksNondecreasing` | plugins/woocommerce-admin/client/core-profiler/index.tsx:233-433 | along a run each state either repeats or has a strictly higher rank than every earlier one |
| `ProfilerRuns.NoStateRevisited` | plugins/woocommerce-admin/client/core-profiler/index.tsx:240-253 | a run never returns to a state it has left, so a settlement can only reach the visit that started its service |

## Left out

- The `CoreProfilerController` component, `useMachine`, body-class changes and rendering (index.tsx:436-500) are UI. Only the per-state `meta` values they read are modelled.
- The `Extensions` view (index.tsx:99-125) is UI.
- The bodies of `getAllowTrackingOption` and `getCountries` are store reads. Their outcomes are the settlement events.
- `getCountryStateOptions` is not part of this model. It is passed in as a function parameter.
- `updateTrackingOption` and `redirectToWooHome` change `window` and dispatch to external stores. They appear only as `Fired` entries in the effect log. The value the tracking hook writes is modelled as `TrackingValue`.
- The `recordTracks*` analytics calls are fire-and-forget. They appear only as `Fired` entries in the effect log.
- The loader's three-second timer is not modelled as time. Its settlement is the `LoaderResolved` event.
- Only the xstate semantics this graph uses are modelled. Left out are parallel states, delayed events, history, the event queue (one event is processed to completion at a time) and an error escalation for the loader, which has no `onError` handler (the model ignores such a rejection).
- `RunActions`: effects are stated by count and, for hook-only lists, by context preservation; the exact order of logged hooks is stated per step in the `ProfilerProperties` lemmas.
- Every member is a function, so a run is deterministic. No lemma states it.
- The redirect is fired when the loader's timer settles in `postSkipFlowBusinessLocation` (index.tsx:395-397). `settingUpStore` runs no action.
- The EXTENSIONS_COMPLETED payload (`extensionsSelected`) is not stored in the context, because the code has no `assign` on that transition. The model follows the code.
