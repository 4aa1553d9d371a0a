/**
 * The vocabulary of the core profiler state machine: its context record,
 * its tagged events and the named states of the onboarding wizard.
 */
module Wrappers {

  datatype Option<+T> = None | Some(value: T)
}

module ProfilerTypes {
  import opened Wrappers

  /** One entry of the country list returned by the countries store; its
      shape is only consumed by the country-option conversion. */
  type Country(==)

  /** One plugin entry of the extension list. */
  type Extension(==, !new)

  /** The user-profile answers: either skipped, or a completed payload whose
      schema the source still leaves as a placeholder. */
  datatype UserProfile =
    | ProfileSkipped
    | ProfileCompleted(answers: map<string, string>)

  /** The literal type `{ skipped: true }` carried by the skip event. */
  type SkippedProfile = p: UserProfile | p.ProfileSkipped? witness ProfileSkipped

  /** The literal type `false` carried by the intro-skip event. */
  type AlwaysFalse = b: bool | !b witness false

  datatype BusinessInfo = BusinessInfo(details: Option<map<string, string>>, location: string)

  datatype Loader = Loader(className: Option<string>, useStages: Option<string>, stageIndex: Option<int>)

  datatype Context = Context(
    optInDataSharing: bool,
    userProfile: UserProfile,
    geolocatedLocation: string,
    businessInfo: BusinessInfo,
    extensionsAvailable: seq<Extension>,
    extensionsSelected: seq<string>,      // extension slugs
    countries: map<string, string>,       // country code -> display name
    loader: Loader
  )

  /** The asynchronous services a state may invoke. */
  datatype Service =
    | GetAllowTrackingOption
    | GetCountries
    | LoaderTimer       // the three-second promise of the loader step

  /**
   * Events. The first eight are the user-facing tagged events; the next four
   * are the settlements of invoked services (xstate's done/error events),
   * which carry the service that produced them.
   */
  datatype Event =
    | InitializationComplete(optInDataSharing: bool)
    | IntroCompleted(optInDataSharing: bool)
    | IntroSkipped(skippedOptIn: AlwaysFalse)
    | UserProfileCompleted(profile: UserProfile)
    | UserProfileSkipped(skippedProfile: SkippedProfile)
    | BusinessInfoCompleted(businessInfo: BusinessInfo)
    | BusinessLocationCompleted(location: BusinessInfo)
    | ExtensionsCompleted(extensionsSelected: seq<string>)
    | AllowTrackingResolved(stored: Option<string>)
    | CountriesResolved(countryList: seq<Country>)
    | LoaderResolved
    | InvocationRejected(src: Service)
    | Init    // the engine's own start event; no state declares it

  /** The `type` tag of a user-facing event, as the graph's `on` tables key it. */
  datatype EventType =
    | INITIALIZATION_COMPLETE
    | INTRO_COMPLETED
    | INTRO_SKIPPED
    | USER_PROFILE_COMPLETED
    | USER_PROFILE_SKIPPED
    | BUSINESS_INFO_COMPLETED
    | BUSINESS_LOCATION_COMPLETED
    | EXTENSIONS_COMPLETED

  /** The tag of an event; settlements and the start event have none. */
  function TypeOf(ev: Event): Option<EventType>
  {
    match ev
    case InitializationComplete(_) => Some(INITIALIZATION_COMPLETE)
    case IntroCompleted(_) => Some(INTRO_COMPLETED)
    case IntroSkipped(_) => Some(INTRO_SKIPPED)
    case UserProfileCompleted(_) => Some(USER_PROFILE_COMPLETED)
    case UserProfileSkipped(_) => Some(USER_PROFILE_SKIPPED)
    case BusinessInfoCompleted(_) => Some(BUSINESS_INFO_COMPLETED)
    case BusinessLocationCompleted(_) => Some(BUSINESS_LOCATION_COMPLETED)
    case ExtensionsCompleted(_) => Some(EXTENSIONS_COMPLETED)
    case _ => None
  }

  /** The service whose settlement an event is, and whether it succeeded. */
  function SettlementOf(ev: Event): Option<(Service, bool)>
  {
    match ev
    case AllowTrackingResolved(_) => Some((GetAllowTrackingOption, true))
    case CountriesResolved(_) => Some((GetCountries, true))
    case LoaderResolved => Some((LoaderTimer, true))
    case InvocationRejected(src) => Some((src, false))
    case _ => None
  }

  datatype State =
    | Initializing
    | IntroOptIn
    | UserProfileStep
    | PreBusinessInfo
    | BusinessInfoStep
    | PreSkipFlowBusinessLocation
    | SkipFlowBusinessLocation
    | PostSkipFlowBusinessLocation
    | PreExtensions
    | ExtensionsStep
    | SettingUpStore

  /** The context the machine is created with: safe defaults used when a
      step does not complete. */
  function DefaultContext(): (r: Context)
    ensures !r.optInDataSharing && r.userProfile == ProfileSkipped
    ensures r.geolocatedLocation == "US:CA" && r.businessInfo == BusinessInfo(None, r.geolocatedLocation)
    ensures r.extensionsAvailable == [] && r.extensionsSelected == [] && r.countries == map[]
    ensures r.loader == Loader(None, None, None)
  {
    Context(false, ProfileSkipped, "US:CA", BusinessInfo(None, "US:CA"), [], [], map[], Loader(None, None, None))
  }
}
