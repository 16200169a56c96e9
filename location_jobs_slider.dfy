/** The record the job carousel renders, one per card. */
module LocationJobsSlider {
  import opened Wrappers

  /** A job id as the API sends it: a number or a string. */
  datatype JobId = NumericId(n: int) | TextId(s: string)

  /**
   * `LocationSliderJob`. The list fields are optional: the slider fetcher always
   * fills them, the expiring-jobs section passes the API's fields through.
   */
  datatype SliderJob = SliderJob(
    id: JobId,
    slug: string,
    title: string,
    roles: Option<seq<string>>,
    experiences: Option<seq<string>>,
    locations: Option<seq<string>>,
    companies: Option<seq<string>>,
    postedAt: Option<string>,
    expiryDate: Option<string>)
}
