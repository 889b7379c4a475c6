/** The server's fallback recommender: a fixed catalogue of five
    destinations, priced from the budget, from which the mood picks three. */
module Fallback {
  import opened Schema

  /** The smaller of two numbers. */
  function Min(a: real, b: real): (m: real)
    ensures m <= a && m <= b
    ensures m == a || m == b
  {
    if a < b then a else b
  }

  /** A catalogue entry: a destination record whose cost is still to be
      computed from the budget, as the budget times `multiplier`, capped at `ceiling`. */
  datatype Entry = Entry(
    name: string,
    country: string,
    subtitle: string,
    summary: string,
    activities: seq<string>,
    multiplier: real,
    ceiling: real,
    bestTime: string,
    imageUrl: string)

  /** The five catalogue entries, in pool order. */
  const CATALOGUE: seq<Entry> := [
    Entry("Kyoto", "Japan", "Perfect for culture lovers",
      "Immerse yourself in traditional Japanese culture with ancient temples, serene gardens, and authentic tea ceremonies in this historic city. Experience the perfect blend of tradition and modernity.",
      ["Visit Fushimi Inari Shrine's thousands of red torii gates",
       "Experience an authentic tea ceremony in Gion",
       "Explore the magical bamboo groves of Arashiyama",
       "Walk through the historic Gion district at night"],
      0.9, 2400.0, "Mar - May",
      "https://images.unsplash.com/photo-1493976040374-85c8e12f0c0e?w=800&q=80"),
    Entry("Santorini", "Greece", "Perfect for beach lovers",
      "Experience breathtaking sunsets over the Aegean Sea in this iconic island paradise. White-washed buildings cascade down volcanic cliffs creating postcard-perfect views.",
      ["Watch the world-famous sunset from Oia Castle",
       "Explore the ancient ruins of Akrotiri",
       "Wine tasting at traditional volcanic vineyards",
       "Sail around the stunning caldera"],
      0.95, 2800.0, "Apr - Oct",
      "https://images.unsplash.com/photo-1613395877344-13d4a8e0d49e?w=800&q=80"),
    Entry("Banff", "Canada", "Perfect for adventure seekers",
      "Discover pristine mountain landscapes, turquoise lakes, and abundant wildlife in the heart of the Canadian Rockies. A paradise for outdoor enthusiasts.",
      ["Hike to the stunning Lake Louise and Moraine Lake",
       "Ride the Banff Gondola for panoramic mountain views",
       "Wildlife spotting in Banff National Park",
       "Relax in the natural Banff Upper Hot Springs"],
      0.85, 2200.0, "Jun - Sep",
      "https://images.unsplash.com/photo-1503614472-8c93d56e92ce?w=800&q=80"),
    Entry("Bali", "Indonesia", "Tropical paradise retreat",
      "Experience the ultimate relaxation in this tropical paradise with pristine beaches, lush rice terraces, and ancient temples. Perfect for unwinding and spiritual renewal.",
      ["Visit the iconic Tanah Lot temple at sunset",
       "Explore the Tegalalang rice terraces in Ubud",
       "Relax on the beaches of Seminyak and Nusa Dua",
       "Experience traditional Balinese spa treatments"],
      0.75, 1800.0, "Apr - Oct",
      "https://images.unsplash.com/photo-1537996194471-e657df975ab4?w=800&q=80"),
    Entry("Paris", "France", "The city of lights and romance",
      "Fall in love with the timeless charm of Paris. From world-class museums to charming cafés, experience art, culture, and romance in every corner of this magnificent city.",
      ["Visit the Eiffel Tower and cruise the Seine River",
       "Explore the Louvre Museum and see the Mona Lisa",
       "Stroll through charming Montmartre neighborhood",
       "Enjoy café culture in the Latin Quarter"],
      1.0, 3200.0, "Apr - Jun, Sep - Oct",
      "https://images.unsplash.com/photo-1502602898657-3e91760cbb34?w=800&q=80")
  ]

  /** The estimated cost of `e` for `budget`: the budget share, unless it
      exceeds the ceiling. */
  function EstimatedCost(e: Entry, budget: real): (c: real)
    ensures c <= e.ceiling && c <= budget * e.multiplier
    ensures c == budget * e.multiplier || c == e.ceiling
  {
    Min(budget * e.multiplier, e.ceiling)
  }

  /** The destination record of `e` for `budget`. */
  function Priced(e: Entry, budget: real): Destination
  {
    Destination(e.name, e.country, e.subtitle, e.summary, e.activities,
                EstimatedCost(e, budget), e.bestTime, e.imageUrl)
  }

  /** The destination pool: every catalogue entry priced for `budget`. */
  function Pool(budget: real): (pool: seq<Destination>)
    ensures |pool| == |CATALOGUE|
    ensures forall i :: 0 <= i < |pool| ==> pool[i] == Priced(CATALOGUE[i], budget)
  {
    seq(|CATALOGUE|, i requires 0 <= i < |CATALOGUE| => Priced(CATALOGUE[i], budget))
  }

  /** The mood's selection from the pool, before the cut to three: a fixed
      triple for each of the four moods, the whole pool for any other mood. */
  function SelectByMood(pool: seq<Destination>, mood: string): (selected: seq<Destination>)
    requires |pool| == |CATALOGUE|
    ensures 3 <= |selected|
    ensures forall d :: d in selected ==> d in pool
  {
    if mood == "Relaxing" then [pool[3], pool[1], pool[0]]
    else if mood == "Adventurous" then [pool[2], pool[0], pool[3]]
    else if mood == "Cultural" then [pool[0], pool[4], pool[1]]
    else if mood == "Romantic" then [pool[4], pool[1], pool[3]]
    else pool
  }

  /** The fallback recommendations for `p`: the mood's selection from the
      pool, cut to the first three. Only the budget and the mood are read. */
  function GenerateFallbackDestinations(p: Preferences): (r: seq<Destination>)
    ensures |r| == 3
    ensures forall d :: d in r ==> d in Pool(p.budget)
    ensures Names(r) == ExpectedNames(p.mood)
  {
    var r := SelectByMood(Pool(p.budget), p.mood)[..3];
    SelectionNames(p.budget, p.mood);
    r
  }

  /** By name, the first three of the mood's selection are the expected ones. */
  lemma SelectionNames(budget: real, mood: string)
    ensures Names(SelectByMood(Pool(budget), mood)[..3]) == ExpectedNames(mood)
  {
  }

  /** The names of a list of destinations, in order. */
  function Names(ds: seq<Destination>): (names: seq<string>)
    ensures |names| == |ds|
    ensures forall i :: 0 <= i < |ds| ==> names[i] == ds[i].name
  {
    if ds == [] then [] else [ds[0].name] + Names(ds[1..])
  }

  /** The recommendation, by name, that each mood is meant to produce. */
  function ExpectedNames(mood: string): seq<string>
  {
    match mood
    case "Relaxing" => ["Bali", "Santorini", "Kyoto"]
    case "Adventurous" => ["Banff", "Kyoto", "Bali"]
    case "Cultural" => ["Kyoto", "Paris", "Santorini"]
    case "Romantic" => ["Paris", "Santorini", "Bali"]
    case _ => ["Kyoto", "Santorini", "Banff"]
  }

  /** No destination appears twice in one result. */
  lemma FallbackDistinct(p: Preferences)
    ensures forall i, j :: 0 <= i < j < 3 ==>
      GenerateFallbackDestinations(p)[i].name != GenerateFallbackDestinations(p)[j].name
  {
  }

  /** The catalogue's five entries, by name and country, each with four
      activities, a share of the budget in (0, 1] and a positive ceiling. */
  lemma CatalogueShape()
    ensures |CATALOGUE| == 5
    ensures [CATALOGUE[0].name, CATALOGUE[1].name, CATALOGUE[2].name, CATALOGUE[3].name, CATALOGUE[4].name]
      == ["Kyoto", "Santorini", "Banff", "Bali", "Paris"]
    ensures [CATALOGUE[0].country, CATALOGUE[1].country, CATALOGUE[2].country, CATALOGUE[3].country, CATALOGUE[4].country]
      == ["Japan", "Greece", "Canada", "Indonesia", "France"]
    ensures forall e :: e in CATALOGUE ==>
      |e.activities| == 4 && 0.0 < e.multiplier <= 1.0 && 0.0 < e.ceiling
  {
  }

  /** Catalogue names are unique. */
  lemma CatalogueNamesDistinct()
    ensures forall i, j :: 0 <= i < j < |CATALOGUE| ==> CATALOGUE[i].name != CATALOGUE[j].name
  {
  }

  /** Every cost is at most its entry's ceiling and, for a non-negative budget,
      lies between 0 and the budget; a zero budget costs nothing. */
  lemma CostBounds(e: Entry, budget: real)
    requires e in CATALOGUE
    ensures EstimatedCost(e, budget) <= e.ceiling
    ensures 0.0 <= budget ==> 0.0 <= EstimatedCost(e, budget) <= budget
    ensures budget == 0.0 ==> EstimatedCost(e, budget) == 0.0
  {
  }

  /** A larger budget never lowers a cost. */
  lemma CostMonotone(e: Entry, b1: real, b2: real)
    requires e in CATALOGUE
    requires b1 <= b2
    ensures EstimatedCost(e, b1) <= EstimatedCost(e, b2)
  {
  }

  /** The per-destination multiplier and ceiling. */
  lemma PricingTable(budget: real)
    ensures EstimatedCost(CATALOGUE[0], budget) == Min(budget * 0.9, 2400.0)
    ensures EstimatedCost(CATALOGUE[1], budget) == Min(budget * 0.95, 2800.0)
    ensures EstimatedCost(CATALOGUE[2], budget) == Min(budget * 0.85, 2200.0)
    ensures EstimatedCost(CATALOGUE[3], budget) == Min(budget * 0.75, 1800.0)
    ensures EstimatedCost(CATALOGUE[4], budget) == Min(budget * 1.0, 3200.0)
  {
  }

  /** Every recommended cost obeys the bounds of its catalogue entry. */
  lemma FallbackCostBounds(p: Preferences)
    ensures forall d :: d in GenerateFallbackDestinations(p) ==>
      exists e :: e in CATALOGUE && d == Priced(e, p.budget) && d.estimatedCost <= e.ceiling
    ensures 0.0 <= p.budget ==> forall d :: d in GenerateFallbackDestinations(p) ==>
      0.0 <= d.estimatedCost <= p.budget
  {
  }

  /** Duration and month are never read. */
  lemma FallbackIgnoresDurationAndMonth(p: Preferences, q: Preferences)
    requires p.budget == q.budget && p.mood == q.mood
    ensures GenerateFallbackDestinations(p) == GenerateFallbackDestinations(q)
  {
  }

  /** Every fallback entry is a well-formed destination record with four activities. */
  lemma FallbackEntriesConform(p: Preferences)
    ensures forall d :: d in GenerateFallbackDestinations(p) ==>
      ParseDestination(DestinationJson(d)) == Some(d) && |d.activities| == 4
  {
    forall d | d in GenerateFallbackDestinations(p)
      ensures ParseDestination(DestinationJson(d)) == Some(d) && |d.activities| == 4
    {
      DestinationRoundTrip(d);
      var pool := Pool(p.budget);
      var i :| 0 <= i < |pool| && pool[i] == d;
      CatalogueShape();
      assert CATALOGUE[i] in CATALOGUE;
    }
  }
}
