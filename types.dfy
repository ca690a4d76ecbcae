/** Values shared by every stage of the video-inventory pipeline: the JSON
    fragments the YouTube Data API returns, the enriched output record, the
    errors that abort a run, and Python's truthiness of optional strings. */
module Types {

  datatype Option<+T> = None | Some(value: T)

  datatype Result<+R, +E> = Success(value: R) | Failure(error: E)

  /** Python's `if s:` for a value that is either None or a string:
      false for None and for the empty string. */
  predicate Truthy(s: Option<string>) {
    s.Some? && s.value != ""
  }

  /** A JSON field that may be missing, present as `null`, or a string.
      Needed where the source uses `dict.get(key, default)`, which falls
      back to the default only when the key is missing. */
  datatype Field = Absent | Null | Str(s: string)

  /** One element of the `items` array of a `videos.list` response, or a
      placeholder the reconciler synthesises. Nested objects that are
      missing read as missing fields. */
  datatype Item = Item(
    id: Option<string>,             // item["id"]
    title: Option<string>,          // snippet.title
    publishedAt: Option<string>,    // snippet.publishedAt
    duration: Option<string>,       // contentDetails.duration (ISO 8601 text)
    privacyStatus: Field,           // status.privacyStatus
    missingReason: Option<string>)  // set only on placeholders

  /** The reason written into every placeholder and every unresolved record. */
  const UnresolvedReason: string := "private_or_deleted_or_restricted"

  datatype VideoType = Short | Normal | Unknown

  /** One element of the output JSON array. `vtype` is None (JSON null) on
      unresolved records; `note` is None when the key is not written. */
  datatype Record = Record(
    id: Option<string>,
    title: Option<string>,
    publishedAt: Option<string>,
    duration: Option<string>,
    durationSeconds: Option<int>,
    vtype: Option<VideoType>,
    privacy: Option<string>,
    note: Option<string>)

  /** Every way a run aborts. Page numbers count from 1, as the source's
      `page` counter does. */
  datatype FetchError =
    | InvalidChannelId                 // ValueError from the prefix check
    | PlaylistPageFailed(page: nat)    // transport or API error on that page
    | PlaylistNotEnded(pages: nat)     // every reply carried a continuation token
    | MetadataFailed                   // transport or API error in videos.list
}
