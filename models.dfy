/** The request and itinerary records of backend/app/models.py. */
module Models {
  import opened Wrappers

  /**
    A trip request. Every field is optional in the wire format (an explicit
    `null` is accepted); an omitted field takes the default of `DefaultRequest`.
   */
  datatype TravelRequest = TravelRequest(
    agentName: Option<string>,
    destination: Option<string>,
    days: Option<int>,
    budget: Option<string>,
    travelers: Option<int>,
    preferences: Option<seq<string>>,
    extraRequirements: Option<string>)

  /** The numeric bounds the request model enforces: 1 <= days <= 5, travelers >= 1. */
  predicate ValidRequest(r: TravelRequest)
  {
    && (r.days.Some? ==> 1 <= r.days.value <= 5)
    && (r.travelers.Some? ==> r.travelers.value >= 1)
  }

  /** The request every omitted field falls back to. */
  function DefaultRequest(): (r: TravelRequest)
    ensures r.agentName == Some("我的周末旅行") && r.destination == Some("")
    ensures r.days == Some(2) && r.budget == Some("") && r.travelers == Some(2)
    ensures r.preferences == Some([]) && r.extraRequirements == Some("")
  {
    TravelRequest(Some("我的周末旅行"), Some(""), Some(2), Some(""), Some(2), Some([]), Some(""))
  }

  /** A field as it arrives: left out, or given (possibly as `null`). */
  datatype Field<T> = Omitted | Given(v: Option<T>)

  function OrDefault<T>(f: Field<T>, d: Option<T>): Option<T>
  {
    match f
    case Omitted => d
    case Given(v) => v
  }

  /** Builds a request from the fields a client sent, applying the defaults; `None` when a bound is violated. */
  function MakeRequest(agentName: Field<string>, destination: Field<string>, days: Field<int>,
                       budget: Field<string>, travelers: Field<int>,
                       preferences: Field<seq<string>>, extraRequirements: Field<string>): (r: Option<TravelRequest>)
    ensures r.Some? ==> ValidRequest(r.value)
    ensures r.Some? ==> r.value.days == OrDefault(days, Some(2)) && r.value.travelers == OrDefault(travelers, Some(2))
    ensures r.Some? ==> r.value.destination == OrDefault(destination, Some(""))
    ensures r.Some? ==> r.value == TravelRequest(
      OrDefault(agentName, Some("我的周末旅行")), OrDefault(destination, Some("")), OrDefault(days, Some(2)),
      OrDefault(budget, Some("")), OrDefault(travelers, Some(2)),
      OrDefault(preferences, Some([])), OrDefault(extraRequirements, Some("")))
    ensures r.None? <==>
      (days.Given? && days.v.Some? && !(1 <= days.v.value <= 5)) ||
      (travelers.Given? && travelers.v.Some? && travelers.v.value < 1)
  {
    var d := DefaultRequest();
    var req := TravelRequest(
      OrDefault(agentName, d.agentName), OrDefault(destination, d.destination), OrDefault(days, d.days),
      OrDefault(budget, d.budget), OrDefault(travelers, d.travelers),
      OrDefault(preferences, d.preferences), OrDefault(extraRequirements, d.extraRequirements));
    if ValidRequest(req) then Some(req) else None
  }

  lemma DefaultsAreValid()
    ensures ValidRequest(DefaultRequest())
    ensures MakeRequest(Omitted, Omitted, Omitted, Omitted, Omitted, Omitted, Omitted) == Some(DefaultRequest())
  {
  }

  /** No bound is placed on the destination: an empty one is accepted. */
  lemma EmptyDestinationAccepted()
    ensures MakeRequest(Omitted, Given(Some("")), Omitted, Omitted, Omitted, Omitted, Omitted).Some?
  {
  }

  datatype BudgetItem = BudgetItem(category: string, amount: real)

  /** One activity; `images` may be missing or `null` in what the model produced, and defaults to the empty list. */
  datatype Activity = Activity(
    time: string, title: string, description: string, duration: string,
    cost: real, address: string, reason: string, images: Option<seq<string>>)

  datatype DailyPlan = DailyPlan(day: int, title: string, activities: seq<Activity>)

  datatype HiddenGem = HiddenGem(title: string, description: string, category: string)

  datatype PracticalTips = PracticalTips(
    transportation: string, packingList: seq<string>, weather: string, seasonalNotes: string)

  datatype BudgetOverview = BudgetOverview(totalBudget: real, budgetBreakdown: seq<BudgetItem>)

  /** A complete itinerary: all four parts are required. */
  datatype TravelItinerary = TravelItinerary(
    overview: BudgetOverview, dailyPlans: seq<DailyPlan>,
    hiddenGems: seq<HiddenGem>, practicalTips: PracticalTips)

  /** The images of an activity, a missing list read as empty. */
  function ImagesOf(a: Activity): seq<string>
  {
    if a.images.Some? then a.images.value else []
  }
}
