/**
 * The slider fetcher of `lib/locationJobs.ts`: normalising the API's list
 * fields, the client-side location keyword filter, building the listing query,
 * turning a response into carousel records, and the table of home-page sliders.
 */
module LocationJobs {
  import opened Wrappers
  import opened Seqs
  import opened JsText
  import opened UrlSearchParams
  import opened LocationJobsSlider
  import opened ApiResponse

  /** One element of a list field: null/undefined, a bare string, or a `{name, text}` object. */
  datatype NameOrText = Absent | Plain(s: string) | Named(name: Option<string>, text: Option<string>)

  /** `RawSliderJob`; a list field is `None` when it is missing or not an array. */
  datatype RawSliderJob = RawSliderJob(
    id: Option<JobId>,
    slug: Option<string>,
    title: Option<string>,
    jobTitle: Option<string>,
    postedAt: Option<string>,
    expiryDate: Option<string>,
    locations: Option<seq<NameOrText>>,
    roles: Option<seq<NameOrText>>,
    experiences: Option<seq<NameOrText>>,
    companies: Option<seq<NameOrText>>)

  /** `SliderFetchOptions`; `additionalQuery` keeps the order of `Object.entries`. */
  datatype SliderFetchOptions = SliderFetchOptions(
    limit: Option<int>,
    locations: Option<string>,
    experience: Option<string>,
    requiredLocationKeyword: Option<string>,
    additionalQuery: seq<(string, Option<string>)>)

  /** A "see more" link: a path, or a path with query parameters. */
  datatype Href = Path(path: string) | PathWithQuery(pathname: string, query: seq<(string, string)>)

  /** `SliderSectionConfig`. */
  datatype SliderSectionConfig = SliderSectionConfig(
    key: string,
    title: string,
    description: Option<string>,
    fetchOptions: SliderFetchOptions,
    seeMoreHref: Option<Href>,
    seeMoreLabel: Option<string>)

  // ---------------------------------------------------------------- normalisers

  /** The strings an element carries, in the order the normaliser prefers them. */
  function Candidates(v: NameOrText): seq<string>
  {
    match v
    case Absent => []
    case Plain(s) => [s]
    case Named(name, text) =>
      (if name.Some? then [name.value] else []) + (if text.Some? then [text.value] else [])
  }

  /**
   * `normalizeNameOrText`: a string comes back unchanged; an object gives its
   * `name`, else its `text`, whichever is first non-empty; anything else gives "".
   */
  function NormalizeNameOrText(v: NameOrText): (r: string)
    ensures v.Plain? ==> r == v.s
    ensures v.Named? && Truthy(v.name) ==> r == v.name.value
    ensures r != "" ==> r in Candidates(v)
    ensures r == "" <==> forall c :: c in Candidates(v) ==> c == ""
  {
    match v
    case Absent => ""
    case Plain(s) => s
    case Named(name, text) => Or(name, Or(text, ""))
  }

  /** `normalizeLocationName`: the same rules, written out a second time in the source. */
  function NormalizeLocationName(v: NameOrText): (r: string)
    ensures v.Plain? ==> r == v.s
    ensures v.Named? && Truthy(v.name) ==> r == v.name.value
    ensures r != "" ==> r in Candidates(v)
    ensures r == "" <==> forall c :: c in Candidates(v) ==> c == ""
  {
    match v
    case Absent => ""
    case Plain(s) => s
    case Named(name, text) => Or(name, Or(text, ""))
  }

  /** The two normalisers agree on every input. */
  lemma LocationNameIsNameOrText(v: NameOrText)
    ensures NormalizeLocationName(v) == NormalizeNameOrText(v)
  {
  }

  predicate IsNonEmpty(s: string)
  {
    s != ""
  }

  /**
   * `Array.isArray(field) ? field.map(normalize).filter(Boolean) : []`:
   * the normalised elements, in order, without the empty ones.
   */
  function NormalizedStrings(normalize: NameOrText -> string, field: Option<seq<NameOrText>>): (r: seq<string>)
    ensures field.None? ==> r == []
    ensures forall k :: 0 <= k < |r| ==> r[k] != ""
    ensures field.Some? ==> |r| <= |field.value|
  {
    match field
    case None => []
    case Some(items) => Filter(IsNonEmpty, Map(normalize, items))
  }

  /**
   * The k-th normalised string comes from the k-th element (in source order)
   * whose normalisation is non-empty, and every such element contributes one.
   */
  lemma NormalizedStringsPositions(normalize: NameOrText -> string, items: seq<NameOrText>) returns (idx: seq<nat>)
    ensures Increasing(idx)
    ensures |idx| == |NormalizedStrings(normalize, Some(items))|
    ensures forall k :: 0 <= k < |idx| ==>
      idx[k] < |items| && NormalizedStrings(normalize, Some(items))[k] == normalize(items[idx[k]])
    ensures forall i :: 0 <= i < |items| && normalize(items[i]) != "" ==> i in idx
  {
    var mapped := Map(normalize, items);
    idx := FilterPositions(IsNonEmpty, mapped);
    forall i | 0 <= i < |items| && normalize(items[i]) != ""
      ensures i in idx
    {
      assert IsNonEmpty(mapped[i]);
    }
  }

  // ---------------------------------------------------------------- keyword filter

  /** Location `loc`, normalised and lower-cased, contains `needle`. */
  function LocationIncludes(needle: string): NameOrText -> bool
  {
    loc => Includes(ToLowerCase(NormalizeLocationName(loc)), needle)
  }

  /**
   * `jobMatchesLocationKeyword`: an empty keyword matches every job, a job
   * without a locations array matches no other keyword, and otherwise some
   * location must contain the keyword, both lower-cased.
   */
  function JobMatchesLocationKeyword(job: RawSliderJob, keyword: string): (b: bool)
    ensures keyword == "" ==> b
    ensures keyword != "" && job.locations.None? ==> !b
  {
    if keyword == "" then true
    else if job.locations.None? then false
    else Any(LocationIncludes(ToLowerCase(keyword)), job.locations.value)
  }

  /** For a non-empty keyword, a job matches exactly when one of its locations contains the keyword, ignoring case. */
  lemma KeywordMatchIff(job: RawSliderJob, keyword: string)
    requires keyword != "" && job.locations.Some?
    ensures JobMatchesLocationKeyword(job, keyword) <==>
      exists i :: 0 <= i < |job.locations.value| &&
        Includes(ToLowerCase(NormalizeLocationName(job.locations.value[i])), ToLowerCase(keyword))
  {
    AnyIff(LocationIncludes(ToLowerCase(keyword)), job.locations.value);
  }

  /** Keywords that lower-case alike select the same jobs. */
  lemma KeywordCaseInsensitive(job: RawSliderJob, k1: string, k2: string)
    requires ToLowerCase(k1) == ToLowerCase(k2)
    ensures JobMatchesLocationKeyword(job, k1) == JobMatchesLocationKeyword(job, k2)
  {
    assert |k1| == |ToLowerCase(k1)| == |ToLowerCase(k2)| == |k2|;
  }

  /** A job the keyword admits still shows, on its card, a location containing the keyword. */
  lemma MatchedLocationShown(job: RawSliderJob, keyword: string)
    requires keyword != "" && JobMatchesLocationKeyword(job, keyword)
    ensures var shown := NormalizedStrings(NormalizeLocationName, job.locations);
      exists k :: 0 <= k < |shown| && Includes(ToLowerCase(shown[k]), ToLowerCase(keyword))
  {
    var locs := job.locations.value;
    var needle := ToLowerCase(keyword);
    KeywordMatchIff(job, keyword);
    var i :| 0 <= i < |locs| && Includes(ToLowerCase(NormalizeLocationName(locs[i])), needle);
    IncludesLength(ToLowerCase(NormalizeLocationName(locs[i])), needle);
    var idx := NormalizedStringsPositions(NormalizeLocationName, locs);
    var k :| 0 <= k < |idx| && idx[k] == i;
    var shown := NormalizedStrings(NormalizeLocationName, job.locations);
    assert shown[k] == NormalizeLocationName(locs[i]);
  }

  // ---------------------------------------------------------------- query

  const DefaultLimit := 5

  /** The `limit` option, 5 when it is not given. */
  function LimitOf(opts: SliderFetchOptions): int
  {
    opts.limit.GetOr(DefaultLimit)
  }

  /** `Math.max(limit + 3, 8)`: over-fetch by three, and never ask for fewer than eight. */
  function PerPage(limit: int): (p: nat)
    ensures p >= limit + 3 && p >= 8
    ensures p == limit + 3 || p == 8
  {
    if limit + 3 > 8 then limit + 3 else 8
  }

  /** `new URLSearchParams({ page: '1', per_page: String(perPage) })`. */
  function InitialQuery(perPage: nat): Query
  {
    [("page", "1"), ("per_page", NumberToString(perPage))]
  }

  lemma InitialQueryGet(perPage: nat, name: string)
    ensures Get(InitialQuery(perPage), name) ==
      if name == "page" then Some("1")
      else if name == "per_page" then Some(NumberToString(perPage))
      else None
  {
    var q := InitialQuery(perPage);
    assert Get(q[1..][1..], name) == None;
    if name != "page" {
      assert Get(q, name) == Get(q[1..], name);
      if name != "per_page" {
        assert Get(q[1..], name) == Get(q[1..][1..], name);
      }
    }
  }

  /** `if (value) params.set(name, value)`. */
  function SetIfTruthy(q: Query, name: string, value: Option<string>): Query
  {
    if Truthy(value) then SetParam(q, name, value.value) else q
  }

  /** The `additionalQuery` entries applied in order, skipping empty values. */
  function ApplyAdditional(q: Query, extra: seq<(string, Option<string>)>): Query
    decreases |extra|
  {
    if extra == [] then q
    else
      var last := extra[|extra| - 1];
      SetIfTruthy(ApplyAdditional(q, extra[..|extra| - 1]), last.0, last.1)
  }

  /** The query string `fetchJobsForSlider` sends, as ordered name/value pairs. */
  function QueryFor(opts: SliderFetchOptions): Query
  {
    var base := InitialQuery(PerPage(LimitOf(opts)));
    var filtered := SetIfTruthy(SetIfTruthy(base, "locations", opts.locations), "experience", opts.experience);
    ApplyAdditional(filtered, opts.additionalQuery)
  }

  /** The last non-empty value `extra` gives for `name`. */
  function LastTruthy(extra: seq<(string, Option<string>)>, name: string): Option<string>
    decreases |extra|
  {
    if extra == [] then None
    else
      var last := extra[|extra| - 1];
      if last.0 == name && Truthy(last.1) then last.1 else LastTruthy(extra[..|extra| - 1], name)
  }

  /**
   * What each parameter should read: the last non-empty `additionalQuery` value
   * for it; else `experience` or `locations` when given and non-empty; else the
   * initial `page` and `per_page`; nothing for any other name.
   */
  function ExpectedParam(opts: SliderFetchOptions, name: string): Option<string>
  {
    var fromExtra := LastTruthy(opts.additionalQuery, name);
    if fromExtra.Some? then fromExtra
    else if name == "experience" && Truthy(opts.experience) then opts.experience
    else if name == "locations" && Truthy(opts.locations) then opts.locations
    else if name == "page" then Some("1")
    else if name == "per_page" then Some(NumberToString(PerPage(LimitOf(opts))))
    else None
  }

  lemma {:induction false} ApplyAdditionalGet(q: Query, extra: seq<(string, Option<string>)>, name: string)
    ensures Get(ApplyAdditional(q, extra), name) ==
      if LastTruthy(extra, name).Some? then LastTruthy(extra, name) else Get(q, name)
    decreases |extra|
  {
    if extra != [] {
      var init := extra[..|extra| - 1];
      var last := extra[|extra| - 1];
      ApplyAdditionalGet(q, init, name);
      if Truthy(last.1) {
        GetAfterSet(ApplyAdditional(q, init), last.0, last.1.value, name);
      }
    }
  }

  lemma {:induction false} ApplyAdditionalKeepsPositions(q: Query, extra: seq<(string, Option<string>)>)
    requires DistinctNames(q)
    ensures var r := ApplyAdditional(q, extra);
      |q| <= |r| && (forall i :: 0 <= i < |q| ==> r[i].0 == q[i].0) && DistinctNames(r)
    decreases |extra|
  {
    if extra != [] {
      var init := extra[..|extra| - 1];
      var last := extra[|extra| - 1];
      ApplyAdditionalKeepsPositions(q, init);
      if Truthy(last.1) {
        SetKeepsPositions(ApplyAdditional(q, init), last.0, last.1.value);
      }
    }
  }

  /** Every query parameter reads as `ExpectedParam` says: later settings overwrite earlier ones, empty values are skipped. */
  lemma QueryParamValues(opts: SliderFetchOptions, name: string)
    ensures Get(QueryFor(opts), name) == ExpectedParam(opts, name)
  {
    var base := InitialQuery(PerPage(LimitOf(opts)));
    var withLocations := SetIfTruthy(base, "locations", opts.locations);
    var filtered := SetIfTruthy(withLocations, "experience", opts.experience);
    ApplyAdditionalGet(filtered, opts.additionalQuery, name);
    InitialQueryGet(PerPage(LimitOf(opts)), name);
    if Truthy(opts.locations) {
      GetAfterSet(base, "locations", opts.locations.value, name);
    }
    if Truthy(opts.experience) {
      GetAfterSet(withLocations, "experience", opts.experience.value, name);
    }
  }

  /** The query starts with `page` then `per_page`, and no parameter appears twice. */
  lemma QueryShape(opts: SliderFetchOptions)
    ensures var q := QueryFor(opts);
      |q| >= 2 && q[0].0 == "page" && q[1].0 == "per_page" && DistinctNames(q)
  {
    var base := InitialQuery(PerPage(LimitOf(opts)));
    var withLocations := SetIfTruthy(base, "locations", opts.locations);
    var filtered := SetIfTruthy(withLocations, "experience", opts.experience);
    if Truthy(opts.locations) {
      SetKeepsPositions(base, "locations", opts.locations.value);
    }
    if Truthy(opts.experience) {
      SetKeepsPositions(withLocations, "experience", opts.experience.value);
    }
    ApplyAdditionalKeepsPositions(filtered, opts.additionalQuery);
  }

  /**
   * Without `additionalQuery` entries, the query is `page`, `per_page`, then
   * `locations` and `experience` in that order, each only when non-empty.
   */
  lemma QueryOrder(opts: SliderFetchOptions)
    requires opts.additionalQuery == []
    ensures QueryFor(opts) ==
      InitialQuery(PerPage(LimitOf(opts)))
      + (if Truthy(opts.locations) then [("locations", opts.locations.value)] else [])
      + (if Truthy(opts.experience) then [("experience", opts.experience.value)] else [])
  {
    var base := InitialQuery(PerPage(LimitOf(opts)));
    var withLocations := SetIfTruthy(base, "locations", opts.locations);
    assert DistinctNames(base);
    if Truthy(opts.locations) {
      SetReplacesOrAppends(base, "locations", opts.locations.value);
      SetKeepsPositions(base, "locations", opts.locations.value);
    }
    if Truthy(opts.experience) {
      assert forall i :: 0 <= i < |withLocations| ==> withLocations[i].0 != "experience";
      SetReplacesOrAppends(withLocations, "experience", opts.experience.value);
    }
  }

  /** Without a `limit`, five cards are meant and eight records are requested. */
  lemma DefaultLimitQuery(opts: SliderFetchOptions)
    requires opts.limit.None? && LastTruthy(opts.additionalQuery, "per_page").None?
    ensures LimitOf(opts) == 5
    ensures Get(QueryFor(opts), "per_page") == Some("8")
  {
    QueryParamValues(opts, "per_page");
  }

  /**
   * The query building of `fetchJobsForSlider`: a `URLSearchParams` object
   * updated by successive `set` calls.
   */
  method BuildQuery(opts: SliderFetchOptions) returns (query: Query)
    ensures query == QueryFor(opts)
    ensures |query| >= 2 && query[0].0 == "page" && query[1].0 == "per_page"
    ensures DistinctNames(query)
    ensures forall name :: Get(query, name) == ExpectedParam(opts, name)
  {
    var perPage := PerPage(LimitOf(opts));
    var params := new SearchParams(InitialQuery(perPage));
    if Truthy(opts.locations) {
      params.Set("locations", opts.locations.value);
    }
    if Truthy(opts.experience) {
      params.Set("experience", opts.experience.value);
    }
    ghost var filtered := params.entries;
    var extra := opts.additionalQuery;
    var i := 0;
    while i < |extra|
      invariant 0 <= i <= |extra|
      invariant params.entries == ApplyAdditional(filtered, extra[..i])
    {
      var (name, value) := extra[i];
      assert extra[..i + 1][..i] == extra[..i];
      if Truthy(value) {
        params.Set(name, value.value);
      }
      i := i + 1;
    }
    assert extra[..i] == extra;
    query := params.entries;
    QueryShape(opts);
    forall name
      ensures Get(query, name) == ExpectedParam(opts, name)
    {
      QueryParamValues(opts, name);
    }
  }

  // ---------------------------------------------------------------- records

  predicate HasSlug(job: RawSliderJob)
  {
    Truthy(job.slug)
  }

  /** The filter of `fetchJobsForSlider`: a slug, and the location keyword when one is required. */
  predicate KeepForSlider(job: RawSliderJob, keyword: Option<string>)
  {
    HasSlug(job) && (Truthy(keyword) ==> JobMatchesLocationKeyword(job, keyword.value))
  }

  function Keeper(keyword: Option<string>): RawSliderJob -> bool
  {
    job => KeepForSlider(job, keyword)
  }

  /** All four list fields are arrays without empty strings. */
  predicate CleanLists(j: SliderJob)
  {
    && j.roles.Some? && (forall k :: 0 <= k < |j.roles.value| ==> j.roles.value[k] != "")
    && j.experiences.Some? && (forall k :: 0 <= k < |j.experiences.value| ==> j.experiences.value[k] != "")
    && j.locations.Some? && (forall k :: 0 <= k < |j.locations.value| ==> j.locations.value[k] != "")
    && j.companies.Some? && (forall k :: 0 <= k < |j.companies.value| ==> j.companies.value[k] != "")
  }

  /**
   * The `map` of `fetchJobsForSlider`: id falls back to the slug, title to
   * `job_title` and then "View job", dates to null, list fields normalised
   * without empty strings.
   */
  function NormalizeJob(job: RawSliderJob): (r: SliderJob)
    requires HasSlug(job)
    ensures r.slug == job.slug.value && r.slug != ""
    ensures r.id == if job.id.Some? then job.id.value else TextId(job.slug.value)
    ensures r.title != ""
    ensures Truthy(job.title) ==> r.title == job.title.value
    ensures !Truthy(job.title) && Truthy(job.jobTitle) ==> r.title == job.jobTitle.value
    ensures !Truthy(job.title) && !Truthy(job.jobTitle) ==> r.title == "View job"
    ensures r.roles == Some(NormalizedStrings(NormalizeNameOrText, job.roles))
    ensures r.experiences == Some(NormalizedStrings(NormalizeNameOrText, job.experiences))
    ensures r.locations == Some(NormalizedStrings(NormalizeLocationName, job.locations))
    ensures r.companies == Some(NormalizedStrings(NormalizeNameOrText, job.companies))
    ensures r.postedAt == job.postedAt && r.expiryDate == job.expiryDate
    ensures CleanLists(r)
  {
    SliderJob(
      id := job.id.GetOr(TextId(job.slug.value)),
      slug := job.slug.value,
      title := Or(job.title, Or(job.jobTitle, "View job")),
      roles := Some(NormalizedStrings(NormalizeNameOrText, job.roles)),
      experiences := Some(NormalizedStrings(NormalizeNameOrText, job.experiences)),
      locations := Some(NormalizedStrings(NormalizeLocationName, job.locations)),
      companies := Some(NormalizedStrings(NormalizeNameOrText, job.companies)),
      postedAt := job.postedAt,
      expiryDate := job.expiryDate)
  }

  function NormalizeJobs(jobs: seq<RawSliderJob>): (r: seq<SliderJob>)
    requires forall k :: 0 <= k < |jobs| ==> HasSlug(jobs[k])
    ensures |r| == |jobs|
    ensures forall k :: 0 <= k < |jobs| ==> r[k] == NormalizeJob(jobs[k])
  {
    if jobs == [] then [] else [NormalizeJob(jobs[0])] + NormalizeJobs(jobs[1..])
  }

  /** `filtered.map(...)` after `jobs.filter(...)`, on records that are all present. */
  function SliderPipeline(jobs: seq<RawSliderJob>, keyword: Option<string>): (r: seq<SliderJob>)
    ensures |r| <= |jobs|
    ensures forall k :: 0 <= k < |r| ==> r[k].slug != "" && r[k].title != "" && CleanLists(r[k])
  {
    var kept := Filter(Keeper(keyword), jobs);
    assert forall k :: 0 <= k < |kept| ==> KeepForSlider(kept[k], keyword);
    NormalizeJobs(kept)
  }

  /**
   * The output is an order-preserving, one-to-one image of the admitted input:
   * the k-th card is the normalisation of the k-th record that has a slug and
   * passes the keyword, and every such record gets a card (none are cut off).
   */
  lemma SliderPipelinePositions(jobs: seq<RawSliderJob>, keyword: Option<string>) returns (idx: seq<nat>)
    ensures Increasing(idx)
    ensures |idx| == |SliderPipeline(jobs, keyword)|
    ensures forall k :: 0 <= k < |idx| ==>
      && idx[k] < |jobs|
      && KeepForSlider(jobs[idx[k]], keyword)
      && SliderPipeline(jobs, keyword)[k] == NormalizeJob(jobs[idx[k]])
    ensures forall i :: 0 <= i < |jobs| && KeepForSlider(jobs[i], keyword) ==> i in idx
  {
    idx := FilterPositions(Keeper(keyword), jobs);
    forall i | 0 <= i < |jobs| && KeepForSlider(jobs[i], keyword)
      ensures i in idx
    {
      assert Keeper(keyword)(jobs[i]);
    }
  }

  /** A record without a slug never yields a card, whatever else it matches, so there are fewer cards than records. */
  lemma NoSlugNoCard(jobs: seq<RawSliderJob>, keyword: Option<string>, i: nat)
    requires i < |jobs| && !HasSlug(jobs[i])
    ensures |SliderPipeline(jobs, keyword)| < |jobs|
  {
    var idx := SliderPipelinePositions(jobs, keyword);
    assert i !in idx;
    var below := Filter(LessThan(i), idx);
    var above := Filter(GreaterThan(i), idx);
    PartitionLength(idx, i);
    forall k | 0 <= k < |below|
      ensures below[k] < i
    {
      assert LessThan(i)(below[k]);
    }
    IncreasingWithin(below, 0, i);
    var pos := FilterPositions(GreaterThan(i), idx);
    forall k | 0 <= k < |above|
      ensures i + 1 <= above[k] < |jobs|
    {
      assert GreaterThan(i)(above[k]);
      assert above[k] == idx[pos[k]];
    }
    IncreasingWithin(above, i + 1, |jobs|);
  }

  function LessThan(i: nat): nat -> bool { x => x < i }

  function GreaterThan(i: nat): nat -> bool { x => x > i }

  /** A list of positions avoiding `i` splits into those below and those above it. */
  lemma {:induction false} PartitionLength(idx: seq<nat>, i: nat)
    requires i !in idx
    ensures |idx| == |Filter(LessThan(i), idx)| + |Filter(GreaterThan(i), idx)|
    ensures Increasing(idx) ==> Increasing(Filter(LessThan(i), idx)) && Increasing(Filter(GreaterThan(i), idx))
  {
    if idx != [] {
      PartitionLength(idx[1..], i);
      if Increasing(idx) {
        assert Increasing(idx[1..]);
        FilterBounded(LessThan(i), idx[1..], idx[0]);
        FilterBounded(GreaterThan(i), idx[1..], idx[0]);
      }
    }
  }

  /** Filtering keeps a strict lower bound. */
  lemma {:induction false} FilterBounded(p: nat -> bool, s: seq<nat>, lo: nat)
    requires forall k :: 0 <= k < |s| ==> lo < s[k]
    ensures forall k :: 0 <= k < |Filter(p, s)| ==> lo < Filter(p, s)[k]
  {
    var idx := FilterPositions(p, s);
  }

  /** Strictly increasing positions drawn from `[lo, hi)` number at most `hi - lo`. */
  lemma {:induction false} IncreasingWithin(idx: seq<nat>, lo: nat, hi: nat)
    requires Increasing(idx)
    requires forall k :: 0 <= k < |idx| ==> lo <= idx[k] < hi
    ensures |idx| <= if lo <= hi then hi - lo else 0
  {
    if idx != [] {
      assert Increasing(idx[1..]);
      IncreasingWithin(idx[1..], idx[0] + 1, hi);
    }
  }

  /**
   * Everything after the request: a failed request, a `data` field that is not
   * an array, or a null record (reading `slug` of it throws inside the `try`)
   * all give no cards; otherwise the filter/map pipeline.
   */
  function SliderJobs(resp: Response<RawSliderJob>, keyword: Option<string>): (r: seq<SliderJob>)
    ensures resp.Failed? ==> r == []
    ensures resp.Received? && resp.data.None? ==> r == []
    ensures resp.Received? && resp.data.Some? && AllPresent(resp.data.value).None? ==> r == []
    ensures resp.Received? && resp.data.Some? ==> |r| <= |resp.data.value|
    ensures forall k :: 0 <= k < |r| ==> r[k].slug != "" && r[k].title != "" && CleanLists(r[k])
  {
    match resp
    case Failed => []
    case Received(data) =>
      match AllPresent(data.GetOr([]))
      case None => []
      case Some(jobs) => SliderPipeline(jobs, keyword)
  }

  /** `fetchJobsForSlider(opts)` against an API that answers `api(query)`. */
  function SliderResult(opts: SliderFetchOptions, api: Query -> Response<RawSliderJob>): seq<SliderJob>
  {
    SliderJobs(api(QueryFor(opts)), opts.requiredLocationKeyword)
  }

  /**
   * `fetchJobsForSlider`: build the query, make the one request, and return the
   * cards for its answer; failures become an empty list, and the list is not cut
   * to `limit`.
   */
  method FetchJobsForSlider(opts: SliderFetchOptions, api: Query -> Response<RawSliderJob>) returns (jobs: seq<SliderJob>)
    ensures jobs == SliderJobs(api(QueryFor(opts)), opts.requiredLocationKeyword)
    ensures forall k :: 0 <= k < |jobs| ==> jobs[k].slug != "" && CleanLists(jobs[k])
  {
    var query := BuildQuery(opts);
    var response := api(query);
    jobs := SliderJobs(response, opts.requiredLocationKeyword);
  }

  // ---------------------------------------------------------------- examples

  /** Strings are kept, an object with only `text` gives its text, and an element that normalises to "" is dropped. */
  lemma RolesExample()
    ensures NormalizedStrings(NormalizeNameOrText,
      Some([Plain("Sales"), Named(None, Some("Support")), Named(Some(""), Some(""))])) == ["Sales", "Support"]
  {
    var items := [Plain("Sales"), Named(None, Some("Support")), Named(Some(""), Some(""))];
    var mapped := Map(NormalizeNameOrText, items);
    assert mapped == ["Sales", "Support", ""];
    assert Filter(IsNonEmpty, mapped[2..]) == [];
    assert Filter(IsNonEmpty, mapped[1..]) == ["Support"];
  }

  /** The keyword is matched as a substring, whatever the case: "karachi" matches "Karachi, Sindh". */
  lemma KarachiExample(job: RawSliderJob)
    requires job.locations == Some([Plain("Karachi, Sindh")])
    ensures JobMatchesLocationKeyword(job, "karachi")
  {
    var place := "Karachi, Sindh";
    ToLowerCaseCapitalized("karachi");
    ToLowerCaseCapitalized("Karachi");
    ToLowerCasePrefix(place, 7);
    assert place[..7] == "Karachi";
    assert ToLowerCase(place)[..7] == "karachi";
    assert LocationIncludes("karachi")(Plain(place));
  }

  /** A job whose locations are missing or empty matches no non-empty keyword. */
  lemma NoLocationsExample(job: RawSliderJob, keyword: string)
    requires keyword != "" && (job.locations == None || job.locations == Some([]))
    ensures !JobMatchesLocationKeyword(job, keyword)
  {
  }

  // ---------------------------------------------------------------- slider table

  /** `defaultLocationSliderConfigs`: the sliders of the home page, in display order. */
  const DefaultLocationSliderConfigs: seq<SliderSectionConfig> := [
    SliderSectionConfig(
      "latest-pakistan", "Latest jobs in Pakistan",
      Some("Fresh openings curated from every province."),
      SliderFetchOptions(Some(5), None, None, None, []),
      Some(Path("/classified-jobs")), Some("See all roles")),
    SliderSectionConfig(
      "latest-karachi", "Latest jobs in Karachi",
      Some("Hot roles hiring right now in Karachi."),
      SliderFetchOptions(Some(5), Some("Karachi"), None, Some("karachi"), []),
      Some(PathWithQuery("/classified-jobs", [("locations", "Karachi")])), Some("See all Karachi roles")),
    SliderSectionConfig(
      "latest-lahore", "Latest jobs in Lahore",
      Some("Opportunities across Lahore's top companies."),
      SliderFetchOptions(Some(5), Some("Lahore"), None, Some("lahore"), []),
      Some(PathWithQuery("/classified-jobs", [("locations", "Lahore")])), Some("See all Lahore roles")),
    SliderSectionConfig(
      "latest-islamabad", "Latest jobs in Islamabad",
      Some("Government and private roles in the capital."),
      SliderFetchOptions(Some(5), Some("Islamabad"), None, Some("islamabad"), []),
      Some(PathWithQuery("/classified-jobs", [("locations", "Islamabad")])), Some("See all Islamabad roles")),
    SliderSectionConfig(
      "latest-rawalpindi", "Latest jobs in Rawalpindi",
      Some("Fresh listings from the Pindi region."),
      SliderFetchOptions(Some(5), Some("Rawalpindi"), None, Some("rawalpindi"), []),
      Some(PathWithQuery("/classified-jobs", [("locations", "Rawalpindi")])), Some("See all Rawalpindi roles")),
    SliderSectionConfig(
      "latest-faisalabad", "Latest jobs in Faisalabad",
      Some("Manufacturing and tech roles in Faisalabad."),
      SliderFetchOptions(Some(5), Some("Faisalabad"), None, Some("faisalabad"), []),
      Some(PathWithQuery("/classified-jobs", [("locations", "Faisalabad")])), Some("See all Faisalabad roles")),
    SliderSectionConfig(
      "latest-remote", "Latest Remote Jobs for Pakistan",
      Some("Work-from-home roles curated for Pakistani talent."),
      SliderFetchOptions(Some(5), Some("Remote"), None, Some("remote"), []),
      Some(Path("/remote-jobs-for-pakistan")), Some("See all remote roles")),
    SliderSectionConfig(
      "latest-freshers", "Latest Fresher's Jobs/Internships",
      Some("Entry-level openings and internships across Pakistan."),
      SliderFetchOptions(Some(5), None, Some("Fresh Required"), None, []),
      Some(Path("/jobs-internships-for-non-experienced")), Some("See all Fresher roles"))
  ]

  /** Whether `c`'s client-side keyword, if any, is its server-side location filter lower-cased. */
  predicate KeywordFollowsLocation(c: SliderSectionConfig)
  {
    var o := c.fetchOptions;
    o.requiredLocationKeyword.Some? ==> o.locations.Some? && o.requiredLocationKeyword.value == ToLowerCase(o.locations.value)
  }

  /** Whether a "see more" link with a query filters on the same location the slider fetched. */
  predicate LinkFollowsLocation(c: SliderSectionConfig)
  {
    c.seeMoreHref.Some? && c.seeMoreHref.value.PathWithQuery? ==>
      c.fetchOptions.locations.Some? && c.seeMoreHref.value.query == [("locations", c.fetchOptions.locations.value)]
  }

  /** The table has eight sliders with distinct keys, each asking for five cards. */
  lemma DefaultConfigsLimits()
    ensures |DefaultLocationSliderConfigs| == 8
    ensures forall k :: 0 <= k < 8 ==> DefaultLocationSliderConfigs[k].fetchOptions.limit == Some(5)
    ensures forall k, l :: 0 <= k < l < 8 ==> DefaultLocationSliderConfigs[k].key != DefaultLocationSliderConfigs[l].key
  {
  }

  /** Every client-side keyword of the table is its slider's location lower-cased. */
  lemma DefaultConfigsKeywordFollowsLocation()
    ensures forall k :: 0 <= k < |DefaultLocationSliderConfigs| ==> KeywordFollowsLocation(DefaultLocationSliderConfigs[k])
  {
    var cs := DefaultLocationSliderConfigs;
    forall k | 0 <= k < |cs|
      ensures KeywordFollowsLocation(cs[k])
    {
      if cs[k].fetchOptions.locations.Some? {
        ToLowerCaseCapitalized(cs[k].fetchOptions.locations.value);
      }
    }
  }

  /** Every "see more" link of the table that carries a query filters on its slider's location. */
  lemma DefaultConfigsLinkFollowsLocation()
    ensures forall k :: 0 <= k < |DefaultLocationSliderConfigs| ==> LinkFollowsLocation(DefaultLocationSliderConfigs[k])
  {
  }

  /** Every keyword of the table is its location lower-cased, and every filtered "see more" link points at that location. */
  lemma DefaultConfigsFollowLocation()
    ensures forall k :: 0 <= k < |DefaultLocationSliderConfigs| ==>
      KeywordFollowsLocation(DefaultLocationSliderConfigs[k]) && LinkFollowsLocation(DefaultLocationSliderConfigs[k])
  {
    DefaultConfigsKeywordFollowsLocation();
    DefaultConfigsLinkFollowsLocation();
  }
}
