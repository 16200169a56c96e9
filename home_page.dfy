/**
 * The data side of the home page, `app/page.tsx`: the "jobs expiring soon"
 * carousel and the per-location carousels built from the slider table.
 */
module HomePage {
  import opened Wrappers
  import opened Seqs
  import opened JsText
  import opened UrlSearchParams
  import opened LocationJobsSlider
  import opened ApiResponse
  import opened LocationJobs

  /** An element of the expiring-soon endpoint's `data` array. */
  datatype ExpiringRawJob = ExpiringRawJob(
    id: Option<JobId>,
    title: Option<string>,
    slug: Option<string>,
    roles: Option<seq<string>>,
    experiences: Option<seq<string>>,
    locations: Option<seq<string>>,
    companies: Option<seq<string>>,
    postedAt: Option<string>,
    expiryDate: Option<string>)

  /** The page asks for ten records and shows at most that many. */
  const ExpiringLimit := 10

  /** `job?.slug && job?.title`: a present record with a slug and a title. */
  predicate HasSlugAndTitle(job: Option<ExpiringRawJob>)
  {
    job.Some? && Truthy(job.value.slug) && Truthy(job.value.title)
  }

  /**
   * The `map` of `getExpiringJobs`: `id ?? slug ?? ''`, slug and title as
   * given, list fields passed through untouched, dates defaulting to null.
   */
  function ExpiringToSliderJob(job: Option<ExpiringRawJob>): (r: SliderJob)
    ensures HasSlugAndTitle(job) ==>
      && r.slug == job.value.slug.value && r.slug != ""
      && r.title == job.value.title.value && r.title != ""
      && r.id == (if job.value.id.Some? then job.value.id.value else TextId(job.value.slug.value))
    ensures job.Some? ==>
      && r.roles == job.value.roles && r.experiences == job.value.experiences
      && r.locations == job.value.locations && r.companies == job.value.companies
      && r.postedAt == job.value.postedAt && r.expiryDate == job.value.expiryDate
  {
    match job
    case None => SliderJob(TextId(""), "", "", None, None, None, None, None, None)
    case Some(j) =>
      SliderJob(
        id := if j.id.Some? then j.id.value else TextId(j.slug.GetOr("")),
        slug := j.slug.GetOr(""),
        title := j.title.GetOr(""),
        roles := j.roles,
        experiences := j.experiences,
        locations := j.locations,
        companies := j.companies,
        postedAt := j.postedAt,
        expiryDate := j.expiryDate)
  }

  /**
   * `getExpiringJobs` after the request: a failed request or a `data` field
   * that is not an array gives no cards; otherwise the first ten records, those
   * with a slug and a title, reshaped.
   */
  function ExpiringJobs(resp: Response<ExpiringRawJob>): (r: seq<SliderJob>)
    ensures |r| <= ExpiringLimit
    ensures resp.Failed? ==> r == []
    ensures resp.Received? && resp.data.None? ==> r == []
    ensures forall k :: 0 <= k < |r| ==> r[k].slug != "" && r[k].title != ""
  {
    match resp
    case Failed => []
    case Received(data) =>
      var kept := Filter(HasSlugAndTitle, Slice(data.GetOr([]), ExpiringLimit));
      assert forall k :: 0 <= k < |kept| ==> HasSlugAndTitle(kept[k]);
      Map(ExpiringToSliderJob, kept)
  }

  /**
   * The k-th card comes from the k-th record, among the first ten, that has a
   * slug and a title; every such record gets a card, in the original order.
   */
  lemma ExpiringJobsPositions(records: seq<Option<ExpiringRawJob>>) returns (idx: seq<nat>)
    ensures Increasing(idx)
    ensures |idx| == |ExpiringJobs(Received(Some(records)))|
    ensures forall k :: 0 <= k < |idx| ==>
      && idx[k] < ExpiringLimit && idx[k] < |records|
      && HasSlugAndTitle(records[idx[k]])
      && ExpiringJobs(Received(Some(records)))[k] == ExpiringToSliderJob(records[idx[k]])
    ensures forall i :: 0 <= i < |records| && i < ExpiringLimit && HasSlugAndTitle(records[i]) ==> i in idx
  {
    var head := Slice(records, ExpiringLimit);
    idx := FilterPositions(HasSlugAndTitle, head);
    forall i | 0 <= i < |records| && i < ExpiringLimit && HasSlugAndTitle(records[i])
      ensures i in idx
    {
      assert head[i] == records[i];
    }
  }

  /** The slice comes before the filter: records after the tenth never matter. */
  lemma ExpiringIgnoresTail(records: seq<Option<ExpiringRawJob>>, more: seq<Option<ExpiringRawJob>>)
    requires |records| >= ExpiringLimit
    ensures ExpiringJobs(Received(Some(records + more))) == ExpiringJobs(Received(Some(records)))
  {
    assert Slice(records + more, ExpiringLimit) == Slice(records, ExpiringLimit);
  }

  /** A carousel section of the home page: `{ ...config, jobs }`. */
  datatype Section = Section(config: SliderSectionConfig, jobs: seq<SliderJob>)

  /** `config.fetchOptions.limit ?? 5`. */
  function MaxItems(config: SliderSectionConfig): int
  {
    config.fetchOptions.limit.GetOr(DefaultLimit)
  }

  /** One section: the fetched cards cut to the configured limit. */
  function SectionFor(config: SliderSectionConfig, fetched: seq<SliderJob>): (s: Section)
    ensures s.config == config
    ensures |s.jobs| <= |fetched| && s.jobs == fetched[..|s.jobs|]
    ensures 0 <= MaxItems(config) ==> |s.jobs| == if MaxItems(config) < |fetched| then MaxItems(config) else |fetched|
  {
    Section(config, Slice(fetched, MaxItems(config)))
  }

  predicate HasJobs(s: Section)
  {
    |s.jobs| > 0
  }

  /**
   * The location sections of `HomePage`: one section per configuration, with
   * `fetched[i]` the cards fetched for `configs[i]`, and the empty ones dropped.
   */
  function LocationSliderSections(configs: seq<SliderSectionConfig>, fetched: seq<seq<SliderJob>>): (r: seq<Section>)
    requires |configs| == |fetched|
    ensures |r| <= |configs|
    ensures forall k :: 0 <= k < |r| ==> r[k].jobs != []
  {
    var all := seq(|configs|, i requires 0 <= i < |configs| => SectionFor(configs[i], fetched[i]));
    var shown := Filter(HasJobs, all);
    assert forall k :: 0 <= k < |shown| ==> HasJobs(shown[k]);
    shown
  }

  /**
   * The surviving sections keep the order of the configurations; each is the
   * section of its configuration, the first `min(limit ?? 5, fetched)` of its
   * fetched cards and not empty; and a configuration is dropped only when its
   * cut list is empty.
   */
  lemma LocationSliderSectionsPositions(configs: seq<SliderSectionConfig>, fetched: seq<seq<SliderJob>>)
    returns (idx: seq<nat>)
    requires |configs| == |fetched|
    ensures Increasing(idx)
    ensures |idx| == |LocationSliderSections(configs, fetched)|
    ensures forall k :: 0 <= k < |idx| ==>
      var s := LocationSliderSections(configs, fetched)[k];
      && idx[k] < |configs|
      && s.config == configs[idx[k]]
      && s == SectionFor(configs[idx[k]], fetched[idx[k]])
      && s.jobs != [] && |s.jobs| <= |fetched[idx[k]]| && s.jobs == fetched[idx[k]][..|s.jobs|]
      && (0 <= MaxItems(s.config) ==>
            |s.jobs| == if MaxItems(s.config) < |fetched[idx[k]]| then MaxItems(s.config) else |fetched[idx[k]]|)
    ensures forall i :: 0 <= i < |configs| && Slice(fetched[i], MaxItems(configs[i])) != [] ==> i in idx
  {
    var all := seq(|configs|, i requires 0 <= i < |configs| => SectionFor(configs[i], fetched[i]));
    idx := FilterPositions(HasJobs, all);
    forall i | 0 <= i < |configs| && Slice(fetched[i], MaxItems(configs[i])) != []
      ensures i in idx
    {
      assert HasJobs(all[i]);
    }
  }

  /** What the home page renders from its data: the expiring-soon cards and the location sections. */
  datatype HomeContent = HomeContent(expiringJobs: seq<SliderJob>, sections: seq<Section>)

  /**
   * `HomePage`: the expiring-soon cards from their own response, and one
   * `fetchJobsForSlider` per entry of the slider table, against `api`, cut and
   * filtered into sections.
   */
  function HomePageContent(expiring: Response<ExpiringRawJob>, api: Query -> Response<RawSliderJob>): (h: HomeContent)
    ensures |h.expiringJobs| <= ExpiringLimit
    ensures |h.sections| <= |DefaultLocationSliderConfigs|
    ensures forall k :: 0 <= k < |h.sections| ==> h.sections[k].jobs != []
  {
    var fetched := Map((c: SliderSectionConfig) => SliderResult(c.fetchOptions, api), DefaultLocationSliderConfigs);
    HomeContent(ExpiringJobs(expiring), LocationSliderSections(DefaultLocationSliderConfigs, fetched))
  }

  /**
   * With every limit at five, each surviving section shows the first
   * `min(5, fetched)` cards fetched for its configuration, at least one, in the
   * table's order.
   */
  lemma FiveCardSections(configs: seq<SliderSectionConfig>, fetched: seq<seq<SliderJob>>)
    returns (idx: seq<nat>)
    requires |configs| == |fetched|
    requires forall i :: 0 <= i < |configs| ==> configs[i].fetchOptions.limit == Some(5)
    ensures var sections := LocationSliderSections(configs, fetched);
      && Increasing(idx) && |idx| == |sections|
      && forall k :: 0 <= k < |sections| ==>
        && idx[k] < |configs|
        && sections[k].config == configs[idx[k]]
        && 1 <= |sections[k].jobs| <= 5
        && |sections[k].jobs| == (if 5 < |fetched[idx[k]]| then 5 else |fetched[idx[k]]|)
        && sections[k].jobs == fetched[idx[k]][..|sections[k].jobs|]
  {
    var sections := LocationSliderSections(configs, fetched);
    idx := LocationSliderSectionsPositions(configs, fetched);
    forall k | 0 <= k < |sections|
      ensures 1 <= |sections[k].jobs| <= 5
    {
      assert MaxItems(configs[idx[k]]) == 5;
    }
  }

  /**
   * On the home page every location section shows the first `min(5, fetched)`
   * cards its slider fetched, at least one, and the sections follow the table's order.
   */
  lemma HomePageSections(expiring: Response<ExpiringRawJob>, api: Query -> Response<RawSliderJob>)
    returns (idx: seq<nat>)
    ensures var sections := HomePageContent(expiring, api).sections;
      && Increasing(idx) && |idx| == |sections|
      && forall k :: 0 <= k < |sections| ==>
        && idx[k] < |DefaultLocationSliderConfigs|
        && sections[k].config == DefaultLocationSliderConfigs[idx[k]]
        && 1 <= |sections[k].jobs| <= 5
        && var all := SliderResult(sections[k].config.fetchOptions, api);
          && |sections[k].jobs| == (if 5 < |all| then 5 else |all|)
          && sections[k].jobs == all[..|sections[k].jobs|]
  {
    var configs := DefaultLocationSliderConfigs;
    var fetched := Map((c: SliderSectionConfig) => SliderResult(c.fetchOptions, api), configs);
    var sections := LocationSliderSections(configs, fetched);
    assert sections == HomePageContent(expiring, api).sections;
    DefaultConfigsLimits();
    idx := FiveCardSections(configs, fetched);
    forall k | 0 <= k < |sections|
      ensures fetched[idx[k]] == SliderResult(sections[k].config.fetchOptions, api)
    {
    }
  }
}
