/** One entry of `/data/works.json`, reduced to the fields the script branches on. */
module Works {
  import opened Wrappers

  /**
   A portfolio work. `videoId` and `instagramUrl` are optional strings,
   `images` an optional list of image URLs, `credits` an optional list of
   credit lines (None also stands for a value that is not an array); title,
   year, client and thumbnail are only interpolated into markup and are not
   kept.
   */
  datatype Work = Work(
    id: string,
    workType: string,
    videoId: Option<string>,
    instagramUrl: Option<string>,
    images: Option<seq<string>>,
    credits: Option<seq<string>>)

  /** JavaScript truthiness of an optional string: a missing field, `null` and `""` are all falsy. */
  predicate Truthy(field: Option<string>)
  {
    field.Some? && field.value != ""
  }
}
