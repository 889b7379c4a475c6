# Wanderwise travel recommender — a Dafny model

Wanderwise is a travel-recommendation web application. A visitor states a
budget, a trip length, a month and a mood; the server answers with three
destinations. When the generative-AI call the server normally makes fails,
the server answers from a fixed fallback catalogue instead. This project
models, in Dafny, the parts of the application that carry logic:

- **Fallback recommender** (`fallback.dfy`, module `Fallback`): the fixed
  catalogue of five destinations (Kyoto, Santorini, Banff, Bali, Paris), each
  priced as `min(budget × multiplier, ceiling)`, and the mood's fixed choice
  of three of them. The function is total and pure; the model proves that it
  always gives three distinct destinations, exactly which ones for each mood,
  the cost bounds, monotonicity in the budget, and that duration and month
  are never read.
- **Shared schema** (`schema.dfy`, module `Schema`): the preference validator
  (budget ≥ 0, 1 ≤ duration ≤ 365, mood one of four exact names, any month),
  with the issues it reports, and the eight-field destination record with
  what its schema would accept from a JSON object, both ways, and its round
  trip.
- **Home page** (`home.dfy`, module `Home`): the requests the page builds
  (form, quick-filter presets, "surprise me" from four random draws, "generate
  again"), the currency fallback chain, and the page state (`isLoading`,
  `destinations`, `lastPreferences`, `preferredCurrency`) as a class whose
  methods are proved against a state-transition function `Settled`.
- **Inspiration carousel** (`carousel.dfy`, module `Carousel`): one index
  moved by next, previous and dot clicks with wrap-around over five slides.
- **Travel form** (`travel_form.dfy`, module `TravelForm`): four text fields,
  the submit guard, the record it submits and the submit button's state.

The fallback recommender follows `server/routes.ts` as written: there is no
currency conversion, no country filter, no shuffle and no backfill in that
code.

Two consequences of the code that the proofs make explicit:

- While the page's invariant `Consistent` holds, the currency chain
  "last request's currency, else the preferred currency, else USD" always
  yields the preferred currency (`CurrencyChoiceIsPreferred`). The page
  starts with "USD", the form never reports a currency change, and every
  request the page builds carries the chosen currency or none, so "USD" is
  the only currency the page ever uses (`CurrencyStaysUsd`).
- "Generate again" is only on screen next to results, and results are only
  ever on screen after a request succeeded, so when the button can be
  clicked there is always a request to replay (`GenerateAgainHasRequest`).

Modelling choices: JavaScript numbers are Dafny `real`s (exact, no rounding);
`Math.floor` is `.Floor`; the random draws of "surprise me" and the current
month of a quick filter are parameters; the result of the page's `fetch` is
a parameter (`FetchOutcome`: the destinations of a good response, or a
failure); the numbers the form's text fields convert to are parameters of
`HandleSubmit`.

## Model

| member | source | states |
|---|---|---|
| Schema.Issues | shared/schema.ts:3-8 | each of the four issues is reported exactly when its field check fails: budget below 0, duration below 1, duration above 365, mood outside the four names |
| Schema.ParsePreferences | shared/schema.ts:3-8 | a record is accepted iff budget ≥ 0, 1 ≤ duration ≤ 365 and the mood is one of the four names; an accepted record comes back unchanged; a refusal carries at least one issue |
| Schema.AcceptsAnyMonth | shared/schema.ts:6 | replacing the month never changes the verdict |
| Schema.MoodCheckIsExact | shared/schema.ts:7 | the mood check passes iff the mood is exactly "Relaxing", "Adventurous", "Cultural" or "Romantic"; "relaxing" fails |
| Schema.DurationBoundsInclusive | shared/schema.ts:5 | durations 1 and 365 are accepted, 1.5 too (no whole-number check); 0.5 and 365.5 are refused |
| Schema.StringArray | shared/schema.ts:17 | an array is read iff every element is a string, of any length, and the result holds those strings in order |
| Schema.ParseDestination | shared/schema.ts:12-21 | a parsed record came from an object holding all eight keys, each with exactly the JSON value of the record's field (strings, a number, an array of strings) |
| Schema.AgreeingObjectParses | shared/schema.ts:12-21 | conversely, any object agreeing with a record's JSON on the eight keys parses to that record, whatever other keys it holds |
| Schema.DestinationJson | shared/schema.ts:12-21 | a destination record is written with exactly the eight keys |
| Schema.DestinationRoundTrip | shared/schema.ts:12-21 | every destination record, written as JSON, parses back to itself |
| Schema.MissingKeyRefused | shared/schema.ts:12-21 | an object lacking any one of the eight keys is refused |
| Schema.ExtraKeyIgnored | shared/schema.ts:12-21 | keys outside the eight are stripped and do not change the result |
| Fallback.Min | server/routes.ts:26 | `Math.min`: the result is at most both arguments and is one of them |
| Fallback.Pool | server/routes.ts:14-90 | the pool has one destination per catalogue entry, in catalogue order, priced for the budget |
| Fallback.CatalogueShape | server/routes.ts:14-90 | five entries in the order Kyoto/Japan, Santorini/Greece, Banff/Canada, Bali/Indonesia, Paris/France, each with four activities, a budget share in (0, 1] and a positive ceiling |
| Fallback.EstimatedCost | server/routes.ts:26-86 | the cost is the budget share unless that exceeds the ceiling, in which case it is the ceiling; it never exceeds either |
| Fallback.CatalogueNamesDistinct | server/routes.ts:14-90 | the five catalogue names are pairwise distinct |
| Fallback.SelectByMood | server/routes.ts:93-102 | the mood's selection has at least three destinations, all from the pool |
| Fallback.GenerateFallbackDestinations | server/routes.ts:11-105 | for every input: exactly three destinations, each taken from the priced pool, and by name Relaxing → Bali, Santorini, Kyoto; Adventurous → Banff, Kyoto, Bali; Cultural → Kyoto, Paris, Santorini; Romantic → Paris, Santorini, Bali; any other mood → Kyoto, Santorini, Banff |
| Fallback.SelectionNames | server/routes.ts:93-104 | the first three of each mood's selection carry the names listed above, in that order |
| Fallback.FallbackDistinct | server/routes.ts:93-104 | no destination name appears twice in one result |
| Fallback.PricingTable | server/routes.ts:26-86 | the (multiplier, ceiling) pairs are Kyoto (0.9, 2400), Santorini (0.95, 2800), Banff (0.85, 2200), Bali (0.75, 1800), Paris (1.0, 3200) |
| Fallback.CostBounds | server/routes.ts:26-86 | every cost is at most its ceiling; for a budget ≥ 0 it lies in [0, budget]; a zero budget costs 0 |
| Fallback.CostMonotone | server/routes.ts:26-86 | a larger budget never gives a lower cost |
| Fallback.FallbackCostBounds | server/routes.ts:14-104 | every recommended destination is a catalogue entry priced for the budget and within its ceiling; with a budget ≥ 0 every cost lies in [0, budget] |
| Fallback.FallbackIgnoresDurationAndMonth | server/routes.ts:12-104 | two inputs with the same budget and mood give the same result, whatever their duration and month |
| Fallback.FallbackEntriesConform | server/routes.ts:15-89 | every fallback destination round-trips through the destination schema and has exactly four activities |
| Carousel.NextIndex | client/src/components/InspirationCarousel.tsx:42-44 | next stays in range and moves one slide on, from the last slide to the first |
| Carousel.PrevIndex | client/src/components/InspirationCarousel.tsx:46-48 | previous stays in range and moves one slide back, from the first slide to the last |
| Carousel.PrevNextInverse | client/src/components/InspirationCarousel.tsx:42-48 | previous undoes next and next undoes previous |
| Carousel.WrapAround | client/src/components/InspirationCarousel.tsx:43-47 | next from 4 gives 0; previous from 0 gives 4 |
| Carousel.RunStaysInRange | client/src/components/InspirationCarousel.tsx:40-108 | from any index in range, any sequence of next, previous and dot clicks leaves the index in [0, 5) |
| Carousel.NextsAdvance | client/src/components/InspirationCarousel.tsx:42-44 | n clicks on next move index i to (i + n) mod 5 |
| Carousel.FullLapReturns | client/src/components/InspirationCarousel.tsx:11-44 | five clicks on next return to the starting slide |
| Carousel.Highlights | client/src/components/InspirationCarousel.tsx:105-111 | one flag per dot, set exactly for the dot whose position is the current index |
| Carousel.ExactlyOneDotHighlighted | client/src/components/InspirationCarousel.tsx:105-111 | with the index in range, exactly one dot is highlighted |
| Carousel.InspirationCarousel.constructor | client/src/components/InspirationCarousel.tsx:40 | the carousel starts on slide 0 |
| Carousel.InspirationCarousel.ClickNext | client/src/components/InspirationCarousel.tsx:42-44 | the index becomes the next index and stays in range |
| Carousel.InspirationCarousel.ClickPrev | client/src/components/InspirationCarousel.tsx:46-48 | the index becomes the previous index and stays in range |
| Carousel.InspirationCarousel.ClickDot | client/src/components/InspirationCarousel.tsx:108 | the index becomes the clicked dot's position |
| Carousel.InspirationCarousel.Dots | client/src/components/InspirationCarousel.tsx:104-115 | the rendered dot row highlights the current dot and exactly one dot |
| TravelForm.OptionsMatchValidator | client/src/components/TravelForm.tsx:26-31 | twelve distinct month options; the mood options are exactly the validator's moods, and a mood passes the validator iff it is an option |
| TravelForm.Form.constructor | client/src/components/TravelForm.tsx:34-37 | all four fields start empty |
| TravelForm.Form.ChangeBudget | client/src/components/TravelForm.tsx:71 | the budget field takes the typed text; nothing else changes |
| TravelForm.Form.ChangeDuration | client/src/components/TravelForm.tsx:90 | the duration field takes the typed text; nothing else changes |
| TravelForm.Form.PickMonth | client/src/components/TravelForm.tsx:103-113 | the month field takes the picked option; nothing else changes; the field only ever holds "" or a month option |
| TravelForm.Form.PickMood | client/src/components/TravelForm.tsx:122-132 | the mood field takes the picked option; nothing else changes; the field only ever holds "" or a mood option |
| TravelForm.Form.IsFormValid | client/src/components/TravelForm.tsx:54 | the form counts as complete iff submitting builds a record whatever numbers the fields convert to |
| TravelForm.Form.HandleSubmit | client/src/components/TravelForm.tsx:39-52 | a record is submitted iff all four fields are non-empty; it carries the month and mood texts unchanged and the two converted numbers |
| TravelForm.Form.SubmitDisabled | client/src/components/TravelForm.tsx:137-142 | the button is enabled iff nothing is loading and submitting would not return early |
| TravelForm.EnabledSubmitReachesPage | client/src/components/TravelForm.tsx:39-54 | an enabled button always submits, and the submitted month is a month option and the mood passes the validator |
| Home.FirstNonEmpty | client/src/pages/Home.tsx:89 | `a \|\| b \|\| ...` over strings: "" iff all are empty, otherwise the first non-empty one |
| Home.CurrencyChoice | client/src/pages/Home.tsx:89 | never empty; the first non-empty of the last request's currency, the preferred currency and "USD" |
| Home.CurrencyOrUsd | client/src/pages/Home.tsx:52 | never empty; the request's currency when it has a non-empty one, otherwise "USD" |
| Home.SurprisePreferences | client/src/pages/Home.tsx:79-90 | for draws in [0, 1): a whole budget in [1500, 4499], a whole duration in [5, 14], one of the twelve months, one of the four moods, accepted by the validator, with the chosen currency |
| Home.SurpriseListsMatchPickers | client/src/pages/Home.tsx:82-88 | the page's own month and mood lists equal the form's month and mood options, and the moods equal the validator's |
| Home.SurpriseBudgetReachable | client/src/pages/Home.tsx:80 | every whole budget in [1500, 4499] is produced by some draw |
| Home.SurpriseMoodReachable | client/src/pages/Home.tsx:86-88 | every valid mood is produced by some draw |
| Home.FilterPreset | client/src/pages/Home.tsx:103-138 | "surprise" builds no preset; every other filter builds a record the validator accepts, for the current month and the chosen currency, with budget in [1000, 3000] and duration in [4, 7] |
| Home.View | client/src/pages/Home.tsx:166-218 | the spinner shows iff loading; results show iff not loading and destinations are set, and then they are exactly the page's destinations; otherwise the carousel |
| Home.Loading | client/src/pages/Home.tsx:31-32 | while a request is in flight the page is loading, the old destinations are cleared and the spinner shows; the last request and preferred currency are untouched |
| Home.Settled | client/src/pages/Home.tsx:29-63 | afterwards nothing is loading; a success shows its destinations and records the request and its currency (or "USD"); a failure leaves no destinations, shows the carousel and keeps the last request and preferred currency |
| Home.SettledConsistent | client/src/pages/Home.tsx:29-63 | every finished request keeps the page invariant: results only after a recorded request, preferred currency equal to that request's currency or "USD" |
| Home.CurrencyChoiceIsPreferred | client/src/pages/Home.tsx:52-105 | under the invariant the currency chain always yields the preferred currency |
| Home.CurrencyStaysUsd | client/src/pages/Home.tsx:22-105 | requests carrying no currency or the chosen one keep "USD" as the only currency the page uses |
| Home.GenerateAgainHasRequest | client/src/pages/Home.tsx:70-74 | whenever results (and so "generate again") are on screen, there is a last request |
| Home.HomePage.constructor | client/src/pages/Home.tsx:22-26 | not loading, no destinations, no last request, preferred currency "USD" |
| Home.HomePage.GenerateRecommendations | client/src/pages/Home.tsx:29-63 | the new state is `Settled` of the old state, the request and the fetch outcome; the invariant is kept |
| Home.HomePage.HandleFormSubmit | client/src/pages/Home.tsx:65-68 | sends the form's record, without a currency |
| Home.HomePage.HandleGenerateAgain | client/src/pages/Home.tsx:70-74 | with no last request nothing changes; otherwise exactly the last request is sent again |
| Home.HomePage.HandleSurpriseMe | client/src/pages/Home.tsx:76-93 | sends the surprise record built from the draws with the chosen currency |
| Home.HomePage.HandleFilterClick | client/src/pages/Home.tsx:95-142 | "surprise" does what "surprise me" does; every other filter sends its preset for the current month with the chosen currency |

## Left out

- The generative-AI call and everything around it (`server/routes.ts:6-8`, `112-176`: the prompt, the chat completion, `JSON.parse`, the image-URL building): a foreign network call and library code. The model stops at the fallback, which the server uses whenever that call throws.
- The Express route, the 500 answer and `createServer` (`server/routes.ts:107-194`): transport.
- The page's browser I/O: `fetch` (its outcome is a parameter), `toast`, `window.scrollTo`, `setTimeout`, `console.log`.
- Concurrency on the page: `GenerateRecommendations` is one atomic step, so two requests in flight at once, and the order in which they finish, are not modelled.
- An OK response whose body has no `destinations` list: the model's `Received` always carries a list.
- Floating point: `budget * 0.9` and the other products are exact reals; rounding is not modelled.
- `Number()` on the form's texts (`client/src/components/TravelForm.tsx:47-48`): the converted numbers are parameters, including whatever a malformed text converts to.
- `Math.random()` and `new Date().toLocaleString(...)`: parameters (`Draws`, `currentMonth`); the locale's month names are not modelled.
- `recommendationsResponseSchema` (`shared/schema.ts:25-27`): declared but never used to check anything.
- `destinationSchema` (`shared/schema.ts:12-21`): the application never parses a response with it; it serves only as a type (`shared/schema.ts:23`) and inside the unused `recommendationsResponseSchema`. `ParseDestination` states what the schema would accept if it were applied.
- The page's mood theme (`currentMood`, the MoodSwitcher) and the purely presentational components (DestinationCard, Hero, Navbar, LoadingSpinner, QuickFilters' button list, About, Contact).
- Currency conversion, country filtering, shuffling and backfill of the fallback: absent from `server/routes.ts` as written.
- GenerateFallbackDestinations: takes a typed preference record; the server's `any` parameter with missing or mistyped fields is not modelled.
- Carousel.InspirationCarousel.ClickDot: requires the dot position in range, as the page only renders dots 0 to 4.
