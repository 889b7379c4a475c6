/** The home page: how it builds requests (from the form, the quick
    filters, "surprise me" and "generate again"), which currency it attaches,
    and how its state moves through a request. */
module Home {
  import opened Schema
  import TravelForm

  /** A request as the page sends it: a preference record and, for requests
      the page builds itself, a currency. The validator strips the currency. */
  datatype Request = Request(prefs: Preferences, currency: Option<string>)

  /** The first non-empty string of `xs`, or "" when there is none: the value
      of `xs[0] || xs[1] || ...` over strings. */
  function FirstNonEmpty(xs: seq<string>): (r: string)
    ensures r == "" <==> forall i :: 0 <= i < |xs| ==> xs[i] == ""
    ensures r != "" ==> exists i :: 0 <= i < |xs| && xs[i] == r && forall k :: 0 <= k < i ==> xs[k] == ""
  {
    if xs == [] then ""
    else if xs[0] != "" then xs[0]
    else
      var r := FirstNonEmpty(xs[1..]);
      assert r != "" ==> exists i :: 0 <= i < |xs[1..]| && xs[1..][i] == r && forall k :: 0 <= k < i ==> xs[1..][k] == "";
      r
  }

  /** The currency of the last request, "" when there is none. */
  function LastCurrency(last: Option<Request>): string
  {
    if last.Some? && last.value.currency.Some? then last.value.currency.value else ""
  }

  /** The currency the page attaches to the requests it builds: the last
      request's, else the preferred one, else "USD". */
  function CurrencyChoice(last: Option<Request>, preferred: string): (c: string)
    ensures c != ""
    ensures c == FirstNonEmpty([LastCurrency(last), preferred, "USD"])
  {
    var fromLast := LastCurrency(last);
    assert [fromLast, preferred, "USD"][1..] == [preferred, "USD"] && [preferred, "USD"][1..] == ["USD"];
    if fromLast != "" then fromLast
    else if preferred != "" then preferred
    else
      assert FirstNonEmpty(["USD"]) == "USD";
      assert FirstNonEmpty([preferred, "USD"]) == "USD";
      "USD"
  }

  /** A request's currency, or "USD" when it has none. */
  function CurrencyOrUsd(c: Option<string>): (r: string)
    ensures r != ""
    ensures r == FirstNonEmpty([if c.Some? then c.value else "", "USD"])
  {
    if c.Some? && c.value != "" then c.value else "USD"
  }

  // ---------------------------------------------------------------------
  // Surprise me

  /** The four uniform draws "surprise me" makes, each in [0, 1). */
  datatype Draws = Draws(budget: real, duration: real, month: real, mood: real)

  predicate UnitDraw(x: real)
  {
    0.0 <= x < 1.0
  }

  predicate ValidDraws(d: Draws)
  {
    UnitDraw(d.budget) && UnitDraw(d.duration) && UnitDraw(d.month) && UnitDraw(d.mood)
  }

  const SURPRISE_MONTHS: seq<string> := [
    "January", "February", "March", "April", "May", "June",
    "July", "August", "September", "October", "November", "December"
  ]

  const SURPRISE_MOODS: seq<string> := ["Relaxing", "Adventurous", "Cultural", "Romantic"]

  /** The page's own month and mood lists are the form pickers' options, so a
      surprise request could also have been entered by hand. */
  lemma SurpriseListsMatchPickers()
    ensures SURPRISE_MONTHS == TravelForm.MONTHS
    ensures SURPRISE_MOODS == TravelForm.MOOD_OPTIONS == MOODS
  {
  }

  /** Whether `x` is a whole number. */
  predicate Whole(x: real)
  {
    x == x.Floor as real
  }

  /** The random request "surprise me" builds from its draws. */
  function SurprisePreferences(d: Draws, currency: string): (r: Request)
    requires ValidDraws(d)
    ensures 1500.0 <= r.prefs.budget <= 4499.0 && Whole(r.prefs.budget)
    ensures 5.0 <= r.prefs.duration <= 14.0 && Whole(r.prefs.duration)
    ensures r.prefs.month in SURPRISE_MONTHS
    ensures r.prefs.mood in MOODS
    ensures Accepts(r.prefs)
    ensures r.currency == Some(currency)
  {
    var budget := (d.budget * 3000.0).Floor + 1500;
    var duration := (d.duration * 10.0).Floor + 5;
    var month := SURPRISE_MONTHS[(d.month * 12.0).Floor];
    var mood := SURPRISE_MOODS[(d.mood * 4.0).Floor];
    Request(Preferences(budget as real, duration as real, month, mood), Some(currency))
  }

  /** Every whole budget in [1500, 4499] can come out of "surprise me". */
  lemma SurpriseBudgetReachable(b: int, currency: string)
    requires 1500 <= b <= 4499
    ensures exists d :: ValidDraws(d) && SurprisePreferences(d, currency).prefs.budget == b as real
  {
    var x := (b - 1500) as real / 3000.0;
    var d := Draws(x, 0.0, 0.0, 0.0);
    assert x * 3000.0 == (b - 1500) as real;
    assert SurprisePreferences(d, currency).prefs.budget == b as real;
  }

  /** Every valid mood can come out of "surprise me". */
  lemma SurpriseMoodReachable(mood: string, currency: string)
    requires mood in MOODS
    ensures exists d :: ValidDraws(d) && SurprisePreferences(d, currency).prefs.mood == mood
  {
    var k :| 0 <= k < 4 && MOODS[k] == mood;
    var d := Draws(0.0, 0.0, 0.0, k as real / 4.0);
    assert d.mood * 4.0 == k as real;
    assert SurprisePreferences(d, currency).prefs.mood == mood;
  }

  // ---------------------------------------------------------------------
  // Quick filters

  /** The quick-filter buttons. */
  datatype Filter = Beaches | Mountains | City | BudgetTrips | RomanticTrips | Surprise

  /** The request a quick filter builds for `month`, the month it is now;
      "surprise me" builds none of its own. */
  function FilterPreset(f: Filter, month: string, currency: string): (r: Option<Request>)
    ensures r.None? <==> f == Surprise
    ensures r.Some? ==> Accepts(r.value.prefs)
    ensures r.Some? ==> r.value.prefs.month == month && r.value.currency == Some(currency)
    ensures r.Some? ==> 1000.0 <= r.value.prefs.budget <= 3000.0 && 4.0 <= r.value.prefs.duration <= 7.0
  {
    match f
    case Beaches => Some(Request(Preferences(2500.0, 7.0, month, "Relaxing"), Some(currency)))
    case Mountains => Some(Request(Preferences(2000.0, 5.0, month, "Adventurous"), Some(currency)))
    case City => Some(Request(Preferences(2500.0, 4.0, month, "Cultural"), Some(currency)))
    case BudgetTrips => Some(Request(Preferences(1000.0, 5.0, month, "Relaxing"), Some(currency)))
    case RomanticTrips => Some(Request(Preferences(3000.0, 7.0, month, "Romantic"), Some(currency)))
    case Surprise => None
  }

  // ---------------------------------------------------------------------
  // Page state

  /** What a request's fetch came back with: the destinations of a good
      response, or a failure of any kind. */
  datatype FetchOutcome = Received(destinations: seq<Destination>) | Failed

  /** A snapshot of the page's state fields. */
  datatype PageState = PageState(
    isLoading: bool,
    destinations: Option<seq<Destination>>,
    lastPreferences: Option<Request>,
    preferredCurrency: string)

  /** What the page shows below the form. */
  datatype Screen = Spinner | Results(destinations: seq<Destination>) | Inspiration

  function View(s: PageState): (v: Screen)
    ensures v.Spinner? <==> s.isLoading
    ensures v.Results? <==> !s.isLoading && s.destinations.Some?
    ensures v.Results? ==> v.destinations == s.destinations.value
  {
    if s.isLoading then Spinner
    else if s.destinations.Some? then Results(s.destinations.value)
    else Inspiration
  }

  /** The page's invariant: results are only ever on screen for a request
      that was made, and the preferred currency is the last request's. */
  predicate Consistent(s: PageState)
  {
    s.preferredCurrency != ""
    && (s.destinations.Some? ==> s.lastPreferences.Some?)
    && (s.lastPreferences.Some? ==> s.preferredCurrency == CurrencyOrUsd(s.lastPreferences.value.currency))
  }

  /** The state while a request is in flight. */
  function Loading(s: PageState): (t: PageState)
    ensures View(t) == Spinner
    ensures t.isLoading && t.destinations == None
    ensures t.lastPreferences == s.lastPreferences && t.preferredCurrency == s.preferredCurrency
  {
    s.(isLoading := true, destinations := None)
  }

  /** The state once the request `req`, begun in `s`, has finished with `outcome`. */
  function Settled(s: PageState, req: Request, outcome: FetchOutcome): (t: PageState)
    ensures !t.isLoading
    ensures outcome.Failed? ==> t.destinations == None && View(t) == Inspiration
    ensures outcome.Failed? ==> t.lastPreferences == s.lastPreferences && t.preferredCurrency == s.preferredCurrency
    ensures outcome.Received? ==> View(t) == Results(outcome.destinations)
    ensures outcome.Received? ==> t.lastPreferences == Some(req) && t.preferredCurrency == CurrencyOrUsd(req.currency)
  {
    var loading := Loading(s);
    match outcome
    case Received(ds) =>
      loading.(destinations := Some(ds), lastPreferences := Some(req),
               preferredCurrency := CurrencyOrUsd(req.currency)).(isLoading := false)
    case Failed => loading.(isLoading := false)
  }

  /** Every request keeps the page's invariant. */
  lemma SettledConsistent(s: PageState, req: Request, outcome: FetchOutcome)
    requires Consistent(s)
    ensures Consistent(Settled(s, req, outcome))
  {
  }

  /** With the invariant, the currency chain always lands on the preferred
      currency: its first link never decides anything. */
  lemma CurrencyChoiceIsPreferred(s: PageState)
    requires Consistent(s)
    ensures CurrencyChoice(s.lastPreferences, s.preferredCurrency) == s.preferredCurrency
  {
  }

  /** The page starts with the preferred currency "USD", and every request
      it builds carries no currency or the chosen one; so "USD" is the only
      currency it ever uses. */
  predicate OnlyUsd(s: PageState)
  {
    s.preferredCurrency == "USD"
    && (s.lastPreferences.Some? ==> s.lastPreferences.value.currency in {None, Some("USD")})
  }

  lemma {:induction false} CurrencyStaysUsd(s: PageState, req: Request, outcome: FetchOutcome)
    requires Consistent(s) && OnlyUsd(s)
    requires req.currency == None || req.currency == Some(CurrencyChoice(s.lastPreferences, s.preferredCurrency))
    ensures OnlyUsd(Settled(s, req, outcome))
  {
    CurrencyChoiceIsPreferred(s);
  }

  /** "Generate again" is on screen only with results, and then there is
      always a last request to replay. */
  lemma GenerateAgainHasRequest(s: PageState)
    requires Consistent(s) && View(s).Results?
    ensures s.lastPreferences.Some?
  {
  }

  /** The home page component's state fields. */
  class HomePage {
    var isLoading: bool
    var destinations: Option<seq<Destination>>
    var lastPreferences: Option<Request>
    var preferredCurrency: string

    function State(): PageState
      reads this
    {
      PageState(isLoading, destinations, lastPreferences, preferredCurrency)
    }

    ghost predicate Valid()
      reads this
    {
      Consistent(State())
    }

    constructor ()
      ensures Valid() && OnlyUsd(State())
      ensures State() == PageState(false, None, None, "USD")
    {
      isLoading := false;
      destinations := None;
      lastPreferences := None;
      preferredCurrency := "USD";
    }

    /** Sends `req` and applies what came back. */
    method GenerateRecommendations(req: Request, outcome: FetchOutcome)
      requires Valid()
      modifies this
      ensures Valid()
      ensures State() == Settled(old(State()), req, outcome)
    {
      isLoading := true;
      destinations := None;
      match outcome {
        case Received(ds) =>
          destinations := Some(ds);
          lastPreferences := Some(req);
          preferredCurrency := CurrencyOrUsd(req.currency);
        case Failed =>
      }
      isLoading := false;
      SettledConsistent(old(State()), req, outcome);
    }

    /** The form's record, sent as it is, with no currency. */
    method HandleFormSubmit(prefs: Preferences, outcome: FetchOutcome)
      requires Valid()
      modifies this
      ensures Valid()
      ensures State() == Settled(old(State()), Request(prefs, None), outcome)
    {
      GenerateRecommendations(Request(prefs, None), outcome);
    }

    /** Replays the last request; with none, nothing happens. */
    method HandleGenerateAgain(outcome: FetchOutcome)
      requires Valid()
      modifies this
      ensures Valid()
      ensures old(lastPreferences).None? ==> State() == old(State())
      ensures old(lastPreferences).Some? ==> State() == Settled(old(State()), old(lastPreferences).value, outcome)
    {
      if lastPreferences.Some? {
        GenerateRecommendations(lastPreferences.value, outcome);
      }
    }

    /** Sends a random request built from `draws`. */
    method HandleSurpriseMe(draws: Draws, outcome: FetchOutcome)
      requires Valid() && ValidDraws(draws)
      modifies this
      ensures Valid()
      ensures State() == Settled(old(State()),
        SurprisePreferences(draws, CurrencyChoice(old(lastPreferences), old(preferredCurrency))), outcome)
    {
      var req := SurprisePreferences(draws, CurrencyChoice(lastPreferences, preferredCurrency));
      GenerateRecommendations(req, outcome);
    }

    /** A quick-filter click: "surprise me" delegates; every other filter
        fills in its preset, stamps the current month and sends it. */
    method HandleFilterClick(filter: Filter, currentMonth: string, draws: Draws, outcome: FetchOutcome)
      requires Valid() && ValidDraws(draws)
      modifies this
      ensures Valid()
      ensures filter == Surprise ==> State() == Settled(old(State()),
        SurprisePreferences(draws, CurrencyChoice(old(lastPreferences), old(preferredCurrency))), outcome)
      ensures filter != Surprise ==> State() == Settled(old(State()),
        FilterPreset(filter, currentMonth, CurrencyChoice(old(lastPreferences), old(preferredCurrency))).value, outcome)
    {
      if filter == Surprise {
        HandleSurpriseMe(draws, outcome);
        return;
      }
      var currency := CurrencyChoice(lastPreferences, preferredCurrency);
      var mood, duration, budget;
      match filter {
        case Beaches =>
          mood, duration, budget := "Relaxing", 7.0, 2500.0;
        case Mountains =>
          mood, duration, budget := "Adventurous", 5.0, 2000.0;
        case City =>
          mood, duration, budget := "Cultural", 4.0, 2500.0;
        case BudgetTrips =>
          mood, duration, budget := "Relaxing", 5.0, 1000.0;
        case RomanticTrips =>
          mood, duration, budget := "Romantic", 7.0, 3000.0;
      }
      var req := Request(Preferences(budget, duration, currentMonth, mood), Some(currency));
      GenerateRecommendations(req, outcome);
    }
  }
}
