/** The shared record shapes: the travel-preference validator and the
    destination record, with the JSON values they are checked against. */
module Schema {

  datatype Option<+T> = None | Some(value: T)

  datatype Result<+T, +E> = Ok(value: T) | Err(error: E)

  /** The mood names the preference validator's enum admits, in declaration order. */
  const MOODS: seq<string> := ["Relaxing", "Adventurous", "Cultural", "Romantic"]

  /** A travel-preference record. Budget and duration are JavaScript numbers,
      so they are reals: nothing requires them to be whole. */
  datatype Preferences = Preferences(budget: real, duration: real, month: string, mood: string)

  /** One failed field check, as the validator reports it. */
  datatype Issue = BudgetTooSmall | DurationTooSmall | DurationTooBig | InvalidMood

  /** Every failed field check of `p`, in field order. The validator does not
      stop at the first failure: it reports them all. */
  function Issues(p: Preferences): (issues: seq<Issue>)
    ensures BudgetTooSmall in issues <==> p.budget < 0.0
    ensures DurationTooSmall in issues <==> p.duration < 1.0
    ensures DurationTooBig in issues <==> p.duration > 365.0
    ensures InvalidMood in issues <==> p.mood !in MOODS
  {
    (if p.budget < 0.0 then [BudgetTooSmall] else [])
    + (if p.duration < 1.0 then [DurationTooSmall] else [])
    + (if 365.0 < p.duration then [DurationTooBig] else [])
    + (if p.mood in MOODS then [] else [InvalidMood])
  }

  /** Parsing a record against the preference schema: the record back, or
      the list of issues. */
  function ParsePreferences(p: Preferences): (r: Result<Preferences, seq<Issue>>)
    ensures r.Ok? <==> 0.0 <= p.budget && 1.0 <= p.duration <= 365.0 && p.mood in MOODS
    ensures r.Ok? ==> r.value == p
    ensures r.Err? ==> r.error != []
  {
    var issues := Issues(p);
    if issues == [] then Ok(p) else Err(issues)
  }

  /** The validator accepts `p`. */
  predicate Accepts(p: Preferences)
  {
    ParsePreferences(p).Ok?
  }

  /** The month is never checked: replacing it does not change the verdict. */
  lemma AcceptsAnyMonth(p: Preferences, month: string)
    ensures Accepts(p.(month := month)) == Accepts(p)
  {
  }

  /** The mood check is an exact, case-sensitive comparison with the four names. */
  lemma MoodCheckIsExact(p: Preferences)
    ensures InvalidMood !in Issues(p) <==>
      p.mood == "Relaxing" || p.mood == "Adventurous" || p.mood == "Cultural" || p.mood == "Romantic"
    ensures InvalidMood in Issues(p.(mood := "relaxing"))
  {
  }

  /** Both ends of the duration range are admitted, and nothing asks for a whole number. */
  lemma DurationBoundsInclusive(p: Preferences)
    requires 0.0 <= p.budget && p.mood in MOODS
    ensures Accepts(p.(duration := 1.0)) && Accepts(p.(duration := 365.0)) && Accepts(p.(duration := 1.5))
    ensures !Accepts(p.(duration := 0.5)) && !Accepts(p.(duration := 365.5))
  {
  }

  /** A destination record: all eight fields are required. */
  datatype Destination = Destination(
    name: string,
    country: string,
    subtitle: string,
    summary: string,
    activities: seq<string>,
    estimatedCost: real,
    bestTime: string,
    imageUrl: string)

  /** The JSON values a destination record is checked against. */
  datatype Json =
    | JNull
    | JBool(b: bool)
    | JNumber(n: real)
    | JString(s: string)
    | JArray(items: seq<Json>)
    | JObject(fields: map<string, Json>)

  /** The string at key `k`, if there is one. */
  function StringField(o: map<string, Json>, k: string): Option<string>
  {
    if k in o && o[k].JString? then Some(o[k].s) else None
  }

  /** The number at key `k`, if there is one. */
  function NumberField(o: map<string, Json>, k: string): Option<real>
  {
    if k in o && o[k].JNumber? then Some(o[k].n) else None
  }

  /** An array of strings: every element must be a string, and any length will do. */
  function StringArray(items: seq<Json>): (r: Option<seq<string>>)
    ensures r.Some? <==> forall i :: 0 <= i < |items| ==> items[i].JString?
    ensures r.Some? ==> |r.value| == |items| && forall i :: 0 <= i < |items| ==> r.value[i] == items[i].s
  {
    if items == [] then Some([])
    else if !items[0].JString? then None
    else
      match StringArray(items[1..])
      case None => None
      case Some(rest) => Some([items[0].s] + rest)
  }

  /** The string array at key `k`, if there is one. */
  function StringArrayField(o: map<string, Json>, k: string): Option<seq<string>>
  {
    if k in o && o[k].JArray? then StringArray(o[k].items) else None
  }

  /** The eight keys of a destination record. */
  const DESTINATION_KEYS: set<string> :=
    {"name", "country", "subtitle", "summary", "activities", "estimatedCost", "bestTime", "imageUrl"}

  /** Parsing an object against the destination schema. Keys outside the
      eight are dropped. */
  function ParseDestination(o: map<string, Json>): (r: Option<Destination>)
    ensures r.Some? ==> DESTINATION_KEYS <= o.Keys
    ensures r.Some? ==> forall k :: k in DESTINATION_KEYS ==> o[k] == DestinationJson(r.value)[k]
  {
    match (StringField(o, "name"), StringField(o, "country"), StringField(o, "subtitle"), StringField(o, "summary"))
    case (Some(name), Some(country), Some(subtitle), Some(summary)) =>
      (match (StringArrayField(o, "activities"), NumberField(o, "estimatedCost"), StringField(o, "bestTime"), StringField(o, "imageUrl"))
       case (Some(activities), Some(cost), Some(bestTime), Some(imageUrl)) =>
         Some(Destination(name, country, subtitle, summary, activities, cost, bestTime, imageUrl))
       case _ => None)
    case _ => None
  }

  /** The JSON object a destination record is written as. */
  function DestinationJson(d: Destination): (o: map<string, Json>)
    ensures o.Keys == DESTINATION_KEYS
  {
    map[
      "name" := JString(d.name),
      "country" := JString(d.country),
      "subtitle" := JString(d.subtitle),
      "summary" := JString(d.summary),
      "activities" := JArray(seq(|d.activities|, i requires 0 <= i < |d.activities| => JString(d.activities[i]))),
      "estimatedCost" := JNumber(d.estimatedCost),
      "bestTime" := JString(d.bestTime),
      "imageUrl" := JString(d.imageUrl)]
  }

  /** Every destination record, written as JSON, parses back to itself. */
  lemma DestinationRoundTrip(d: Destination)
    ensures ParseDestination(DestinationJson(d)) == Some(d)
  {
    var o := DestinationJson(d);
    var items := o["activities"].items;
    assert StringArray(items).Some?;
    assert StringArray(items).value == d.activities;
  }

  /** Conversely, an object that agrees with a record's JSON on the eight
      keys parses to that record, whatever else it holds. */
  lemma AgreeingObjectParses(o: map<string, Json>, d: Destination)
    requires forall k :: k in DESTINATION_KEYS ==> k in o && o[k] == DestinationJson(d)[k]
    ensures ParseDestination(o) == Some(d)
  {
    var items := DestinationJson(d)["activities"].items;
    assert StringArray(items).Some?;
    assert StringArray(items).value == d.activities;
    assert o["activities"] == JArray(items);
  }

  /** A record that lacks any of the eight keys is refused. */
  lemma MissingKeyRefused(o: map<string, Json>, k: string)
    requires k in DESTINATION_KEYS && k !in o
    ensures ParseDestination(o) == None
  {
  }

  /** Extra keys are stripped: adding one changes nothing. */
  lemma ExtraKeyIgnored(o: map<string, Json>, k: string, v: Json)
    requires k !in DESTINATION_KEYS
    ensures ParseDestination(o[k := v]) == ParseDestination(o)
  {
  }
}
