# Job carousel pipeline of the HR Posting Partner site, in Dafny

The site shows job postings from a remote listing API in carousels ("sliders").
This project models the logic behind those carousels:

- **`lib/locationJobs.ts`** (`location_jobs.dfy`, module `LocationJobs`):
  - the field normalisers that turn a list element (a bare string or a
    `{name, text}` object) into one string;
  - the client-side location keyword filter;
  - `fetchJobsForSlider`. The model covers its page size (`perPage`), the
    query it builds by successive `URLSearchParams.set` calls (an imperative
    method over a `SearchParams` object), its filter/map from raw records to
    carousel cards, and its "any failure gives no cards" policy.
  - the `defaultLocationSliderConfigs` table.
- **`app/page.tsx`** (`home_page.dfy`, module `HomePage`):
  - the reshaping in `getExpiringJobs`;
  - the home page's composition of location sections. Each section is cut to
    its limit, and empty sections are dropped.

Supporting modules:

- `Seqs`: the array combinators `filter`, `map`, `some` and `slice(0, end)`,
  plus the lemma that a filter keeps exactly the satisfying positions, in
  order.
- `JsText`: JavaScript truthiness, `||`, ASCII `toLowerCase`, `includes` and
  `String(n)`.
- `UrlSearchParams`: `get` and `set` of `URLSearchParams`, as an ordered list
  of pairs.
- `LocationJobsSlider`: the card record `LocationSliderJob` of
  `components/LocationJobsSlider.tsx`.
- `ApiResponse`: the possible outcomes of a request.

The network is a parameter. `FetchJobsForSlider` takes the API as a function
from query to response, and the pure function `SliderJobs` describes what
happens to a response. A response is one of two things:

- `Failed`: a non-ok status, a network error, or a body that is not JSON.
- `Received(data)`: `data` is `None` when the body's `data` field is not an
  array.

Records inside `data` may be `null`. `fetchJobsForSlider` reads `job.slug`
without a guard. On a null record that throws inside the `try`, so one null
record empties the whole slider. `getExpiringJobs` reads `job?.slug`, so it
just skips null records. The model keeps both behaviours.

`fetchJobsForSlider` returns every filtered record without cutting the list
to `limit` (lib/locationJobs.ts:144); the home page cuts each list itself
(app/page.tsx:100).

## Model

| member | source | states |
|---|---|---|
| `LocationJobs.NormalizeNameOrText` | lib/locationJobs.ts:57-70 | a string comes back unchanged; an object gives a non-empty `name` in preference to `text`; the result is "" exactly when the element carries no non-empty string (null/undefined, empty string, empty or missing `name` and `text`), and otherwise it is one of the element's strings |
| `LocationJobs.NormalizeLocationName` | lib/locationJobs.ts:72-85 | the same contract as the general normaliser |
| `LocationJobs.LocationNameIsNameOrText` | lib/locationJobs.ts:57-85 | the two normalisers agree on every input |
| `LocationJobs.NormalizedStrings` | lib/locationJobs.ts:148-159 | a list field that is not an array gives `[]`; the result never contains "" and is no longer than the input |
| `LocationJobs.NormalizedStringsPositions` | lib/locationJobs.ts:148-159 | the k-th string is the normalisation of the k-th element (in source order) whose normalisation is non-empty, and every such element contributes exactly one string |
| `LocationJobs.RolesExample` | lib/locationJobs.ts:148-150 | `["Sales", {name: null, text: "Support"}, {name: "", text: ""}]` normalises to `["Sales", "Support"]` |
| `LocationJobs.JobMatchesLocationKeyword` | lib/locationJobs.ts:87-94 | an empty keyword matches every job; a job without a locations array matches no non-empty keyword |
| `LocationJobs.KeywordMatchIff` | lib/locationJobs.ts:87-94 | for a non-empty keyword and a locations array, a job matches exactly when some normalised location, lower-cased, includes the lower-cased keyword |
| `LocationJobs.KeywordCaseInsensitive` | lib/locationJobs.ts:90-92 | two keywords that lower-case to the same string select the same jobs |
| `LocationJobs.KarachiExample` | lib/locationJobs.ts:87-94 | keyword "karachi" matches a job located in "Karachi, Sindh" (substring, case ignored) |
| `LocationJobs.NoLocationsExample` | lib/locationJobs.ts:88-89 | a job whose locations are missing or empty matches no non-empty keyword |
| `LocationJobs.MatchedLocationShown` | lib/locationJobs.ts:87-156 | a job that a non-empty keyword admits keeps, among its card's normalised locations, one that includes the keyword |
| `LocationJobs.PerPage` | lib/locationJobs.ts:103 | `perPage = max(limit + 3, 8)`, so it is at least `limit + 3` and at least 8 |
| `LocationJobs.DefaultLimitQuery` | lib/locationJobs.ts:97-107 | without a `limit` the limit is 5, and `per_page` is "8" unless `additionalQuery` overrides it |
| `LocationJobs.QueryParamValues` | lib/locationJobs.ts:104-121 | each parameter reads as its last non-empty `additionalQuery` value if there is one. Otherwise `locations` and `experience` read as the option when it is non-empty, `page` is "1", `per_page` is `String(perPage)`, and no other parameter is present |
| `LocationJobs.QueryShape` | lib/locationJobs.ts:104-121 | the query starts with `page` then `per_page`, and no parameter name appears twice |
| `LocationJobs.QueryOrder` | lib/locationJobs.ts:104-115 | without `additionalQuery` entries the query is exactly `page`, `per_page`, then `locations` and `experience` in that order, each present only when non-empty |
| `LocationJobs.BuildQuery` | lib/locationJobs.ts:103-121 | the imperative builder (a `SearchParams` object, `set` calls, a loop over `additionalQuery`) produces exactly the specified query, with the shape and parameter values above |
| `UrlSearchParams.GetAfterSet` | lib/locationJobs.ts:110-119 | after `set(name, value)`, `get(name)` is `value` and every other name reads as before |
| `UrlSearchParams.SetReplacesOrAppends` | lib/locationJobs.ts:110-119 | on a query without repeated names, `set` overwrites the pair of an existing name where it stands and leaves every other pair as it was; a new name's pair is appended after all existing pairs |
| `UrlSearchParams.SetKeepsPositions` | lib/locationJobs.ts:104-119 | on a query without repeated names, `set` keeps every existing parameter in its position, adds at most one, and repeats no name |
| `UrlSearchParams.SearchParams.Set` | lib/locationJobs.ts:110-119 | `params.set` replaces the object's pairs by the `set` of the old ones: the new value reads back, other names are unchanged |
| `LocationJobs.NormalizeJob` | lib/locationJobs.ts:144-162 | `id` is the record's id, or the slug when it has none; `slug` is the record's slug. `title` is `title`, else `job_title`, else "View job", and is never empty. The four lists are the normalised fields, without empty strings. The dates are passed through, null when absent |
| `LocationJobs.SliderPipeline` | lib/locationJobs.ts:136-162 | no more cards than records; every card has a slug, a title, and four lists without empty strings |
| `LocationJobs.SliderPipelinePositions` | lib/locationJobs.ts:136-162 | the cards are an order-preserving, one-to-one image of the admitted records. The k-th card normalises the k-th record that has a slug and passes the required keyword. Every such record yields a card, so nothing is cut to `limit` |
| `LocationJobs.NoSlugNoCard` | lib/locationJobs.ts:136-137 | a record without a slug yields no card, so there are fewer cards than records |
| `LocationJobs.SliderJobs` | lib/locationJobs.ts:123-166 | a failed request, a `data` field that is not an array, and a null record each give `[]`; otherwise there are at most as many cards as records, each with a slug, a title and clean lists |
| `LocationJobs.FetchJobsForSlider` | lib/locationJobs.ts:96-167 | the cards are those `SliderJobs` gives for the API's answer to the built query, each with a slug and clean lists |
| `LocationJobs.DefaultConfigsLimits` | lib/locationJobs.ts:169-261 | the table has eight sliders with distinct keys, and every one has limit 5 |
| `LocationJobs.DefaultConfigsKeywordFollowsLocation` | lib/locationJobs.ts:169-261 | every `requiredLocationKeyword` of the table is its slider's `locations` lower-cased |
| `LocationJobs.DefaultConfigsLinkFollowsLocation` | lib/locationJobs.ts:169-261 | every "see more" link with a query filters `locations` on the slider's own location |
| `LocationJobs.DefaultConfigsFollowLocation` | lib/locationJobs.ts:169-261 | every `requiredLocationKeyword` is the slider's `locations` lower-cased, and every "see more" link with a query filters on that same location |
| `JsText.IncludesIff` | lib/locationJobs.ts:92 | `includes` holds exactly when the needle occurs at some index of the haystack |
| `JsText.ToLowerCaseIdempotent` | lib/locationJobs.ts:90-92 | lower-casing twice equals lower-casing once |
| `JsText.NumberToStringRoundTrip` | lib/locationJobs.ts:106 | the decimal string of `perPage` reads back as `perPage` |
| `Seqs.FilterPositions` | lib/locationJobs.ts:136-142 | a filter's k-th element is the input at the k-th satisfying position, and every satisfying position is used |
| `Seqs.AnyIff` | lib/locationJobs.ts:91-93 | `some` holds exactly when one element satisfies the predicate |
| `HomePage.ExpiringToSliderJob` | app/page.tsx:66-76 | for a record with a slug and a title: `id` is `id`, else the slug; slug and title are copied. For any present record, `roles`, `experiences`, `locations`, `companies` and the dates pass through untouched |
| `HomePage.ExpiringJobs` | app/page.tsx:53-81 | at most ten cards; a failed request or a non-array `data` gives `[]`; every card has a non-empty slug and title |
| `HomePage.ExpiringJobsPositions` | app/page.tsx:63-76 | the k-th card comes from the k-th record among the first ten that has a slug and a title. Order is preserved, and every such record yields one card |
| `HomePage.ExpiringIgnoresTail` | app/page.tsx:63-65 | records after the tenth never affect the result, because the slice comes before the filter |
| `HomePage.SectionFor` | app/page.tsx:97-101 | a section keeps its configuration; its cards are a prefix of the fetched list, of length `min(limit ?? 5, fetched)` for a non-negative limit |
| `HomePage.LocationSliderSections` | app/page.tsx:95-104 | no more sections than configurations, and no section is empty |
| `HomePage.LocationSliderSectionsPositions` | app/page.tsx:95-104 | surviving sections keep the configuration order; each is exactly `SectionFor` of its configuration and fetched cards, i.e. the first `min(limit ?? 5, fetched)` of them for a non-negative limit, and is not empty; a configuration is dropped only when its cut list is empty |
| `HomePage.HomePageContent` | app/page.tsx:93-104 | at most ten expiring-soon cards, at most one section per slider of the table, and no empty section |
| `HomePage.FiveCardSections` | app/page.tsx:95-104 | when every configuration's limit is 5, each surviving section holds exactly the first `min(5, fetched)` cards fetched for its configuration, at least one, and the sections keep the configuration order |
| `HomePage.HomePageSections` | app/page.tsx:95-104 | on the home page, each section shows exactly the first `min(5, fetched)` cards its slider fetched, at least one, and the sections follow the table's order |

## Left out

- HTTP requests, Next.js caching (`revalidate`, `no-store`) and
  `console.error` logging (lib/locationJobs.ts:124-129, app/page.tsx:55).
  Responses are inputs. `FetchJobsForSlider` takes the API as a function of
  the query.
- `Promise.all` concurrency over the slider table (app/page.tsx:96). Each
  fetch is independent, so the model maps over the table in order.
- The date-based "see more" link of the expiring section
  (app/page.tsx:83-91). It depends on the wall clock.
- Unicode and locale rules of `toLowerCase`. Only ASCII `A`-`Z` are folded.
- Percent-encoding in `URLSearchParams.toString()`. The query is an ordered
  list of name/value pairs.
- JavaScript number semantics. `limit` is an unbounded integer, so fractional
  values, `NaN`, and exponent notation in `String(n)` are not modelled.
- `Object.entries` puts integer-like keys first. Here `additionalQuery` is
  given as an already ordered list.
- Values of the wrong type where the declared type says string (a numeric
  `name`, say). They would make `toLowerCase` throw, and the model does not
  cover them. A list element that is a number or an array behaves like an
  object with neither `name` nor `text` (`Named(None, None)`).
- Rendering: the carousel markup, the navigation bar, ads and static
  sections.
- The other city pages. Each makes one or two `fetchJobsForSlider` calls (two
  in app/jobs-in-islamabad-rawalpindi/page.tsx:34-39) and drops the sections
  whose result is empty (line 63 there). The calls are modelled here; the
  pages' own section lists are not.
