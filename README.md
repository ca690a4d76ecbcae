# youtube-to-xlsx: the video inventory fetcher, modelled in Dafny

`fetch_all_videos.py` builds a complete list of a YouTube channel's uploads. It
does this in five steps:

1. It derives the channel's uploads playlist id ("UC…" becomes "UU…").
2. It pages through `playlistItems.list` and collects the non-empty
   `contentDetails.videoId` values until a page comes back without a
   `nextPageToken`.
3. It looks the ids up with `videos.list`, at most 50 per request. Tier 1 uses
   the API key.
4. When the channel owner's OAuth credential is available, it asks again with a
   bearer token (tier 2), but only for the ids tier 1 did not return. Every id
   neither tier returned gets a placeholder `{id, missing_reason}`.
5. It normalises each item into an output record: duration in seconds,
   type short/normal/unknown, privacy.

This project models those five steps. It proves:

- how pagination ends and what it collects;
- how ids are cut into chunks and how the answers are reassembled;
- the layout of the reconciled list: tier-1 items, then tier-2 items, then one
  placeholder per unresolved id, once per occurrence and in playlist order;
- that every listed id reaches the output;
- the classification and normalisation rules.

The network and the duration parser are modelled as three function-valued
parameters:

- `feed` maps a playlist query (playlist id and access mode) to the sequence of
  replies the server gives to successive page requests.
- `lookup` maps a `videos.list` request to its `items`, or to None when the
  request fails.
- `parse` stands for `isodate.parse_duration(...).total_seconds()`. It returns
  None where the parser raises.

Modules, one file each: `Types` (types.dfy), `Uploads` (uploads.dfy), `Playlist`
(playlist.dfy), `Batching` (batching.dfy), `Reconcile` (reconcile.dfy), `Duration`
(duration.dfy), `Enrichment` (enrichment.dfy), `Pipeline` (pipeline.dfy).

A natural reading of the system is that it returns one record per listed video,
in playlist order. The code does not quite do that, and the model follows the
code:

- **Output order.** The output is tier-1 items in the order the API returned
  them, then tier-2 items, then placeholders (line 201). It is not re-sorted
  into playlist order.
- **Duplicate ids.** An id listed twice and found gets only as many records as
  the API returned items. Only unresolved ids are repeated once per occurrence.
- **Unresolved records.** An unresolved record has privacy
  "private_or_deleted_or_restricted", its note set to the same reason, and type
  null (lines 278-287). The type is not "unknown".
- **Privacy default.** `privacyStatus` falls back to "unknown" only when the
  key is missing. An explicit null stays null (line 297), so the model gives
  that field three states.
- **No loop guard.** The page loop has no guard against a repeating
  continuation token. In the model the server's replies are finite, and running
  out of them while the last page still carries a token is the error
  `PlaylistNotEnded`.

## Model

| member | source | states |
|---|---|---|
| `Uploads.UploadsPlaylistId` | fetch_all_videos.py:40-43 | rejects exactly the channel ids not starting with "UC" (InvalidChannelId); otherwise the playlist id has the same length, starts with "UU" and keeps the rest of the channel id |
| `Uploads.ChannelIdRecovered` | fetch_all_videos.py:40-43 | round trip: "UC" + the playlist id after its prefix gives back the channel id |
| `Uploads.UploadsPlaylistIdInjective` | fetch_all_videos.py:40-43 | two valid channel ids have the same uploads playlist id exactly when they are equal |
| `Playlist.Kept` | fetch_all_videos.py:88-94 | a page contributes exactly its non-empty, present videoIds (membership both ways), never more ids than items |
| `Playlist.EnumerateFrom` | fetch_all_videos.py:74-142 | the enumeration from the i-th request on either fails, naming a page after the i-th that was requested or saying that the replies ran out, or succeeds when there was a reply to ask for |
| `Playlist.Enumerate` | fetch_all_videos.py:46-146 | fetch_playlist_video_ids fails only on a page that was requested (numbered from 1) or because every reply carried a token; a success needs at least one reply |
| `Playlist.FirstStop` | fetch_all_videos.py:99-103 | the index of the first reply after which no page is requested: every earlier reply is a page with a truthy token, that one is not |
| `Playlist.EnumerateFromClosedForm` | fetch_all_videos.py:74-142 | from any request before the stop, the result is the stop reply's error, or the kept ids of the pages up to the stop |
| `Playlist.EnumerateClosedForm` | fetch_all_videos.py:74-142 | the enumeration ends at the first failed reply (error naming that 1-based page) or the first page without a truthy nextPageToken, and then returns the kept ids of every page up to it concatenated in page order; pages without ids do not stop it; if every reply carries a token it does not end |
| `Playlist.AppendKept` | fetch_all_videos.py:134-137 | the per-item loop appends exactly the page's kept ids to the accumulated list |
| `Playlist.FetchPlaylistVideoIds` | fetch_all_videos.py:46-146 | the page loop returns the enumeration's result; it sends FirstStop+1 requests (fewer only if replies run out), the first without a pageToken and each later one with the previous page's truthy token |
| `Batching.Chunks` | fetch_all_videos.py:152-153 | every chunk is non-empty and at most 50 ids long |
| `Batching.ChunksCount` | fetch_all_videos.py:152 | there are ceil(n/50) chunks for n ids, so that many requests; none for empty ids |
| `Batching.ChunksFlatten` | fetch_all_videos.py:152-153 | the chunks concatenate back to the ids |
| `Batching.ChunkAt` | fetch_all_videos.py:152-153 | the k-th chunk is the slice ids[50k : 50k+50] of the offset loop |
| `Batching.RequestFor` | fetch_all_videos.py:154-159 | a request carries part "snippet,contentDetails,status", the chunk and the given Authorization header; `key` is set exactly when the API key is truthy |
| `Batching.LookupChunks` | fetch_all_videos.py:152-170 | a successful chunked lookup had every chunk's request answered: one failed request aborts it |
| `Batching.BatchLookup` | fetch_all_videos.py:149-170 | call_videos_list_with_session asks nothing and returns no items for no ids |
| `Batching.SingleRequest` | fetch_all_videos.py:152-170 | ids that fit in one batch of 50 take a single request, whose answer is the result |
| `Batching.LookupChunksAnswers` | fetch_all_videos.py:152-170 | the chunked lookup succeeds exactly when every chunk's request is answered, and then returns the answers concatenated in chunk order |
| `Batching.CallVideosList` | fetch_all_videos.py:149-170 | the chunk loop returns the chunked lookup of its ids (aborting on the first failed request); empty ids give an empty result |
| `Reconcile.FoundIds` | fetch_all_videos.py:182 | the found set holds exactly the truthy ids of the returned items |
| `Reconcile.Missing` | fetch_all_videos.py:183 | the missing list is never longer than the requested ids and holds no found id |
| `Reconcile.MissingMembers` | fetch_all_videos.py:183 | an id is in the missing list exactly when it was requested and not found |
| `Reconcile.MissingCount` | fetch_all_videos.py:183 | the missing list keeps every occurrence of an unfound id and none of a found one |
| `Reconcile.MissingTwice` | fetch_all_videos.py:183-199 | filtering the tier-1 gap by the tier-2 finds is filtering the requested ids by the union of both tiers' finds |
| `Reconcile.Placeholder` | fetch_all_videos.py:203-207 | a placeholder carries the id and a truthy missing_reason and no snippet, duration or status |
| `Reconcile.Placeholders` | fetch_all_videos.py:203-207 | one placeholder per missing id, in the missing list's order |
| `Reconcile.ReconciledCoverage` | fetch_all_videos.py:201-207 | every requested id is the id of a returned item or of a placeholder |
| `Reconcile.ReconciledComplete` | fetch_all_videos.py:199-207 | when both tiers together return every requested id, the output is the tier items alone, with no placeholder |
| `Reconcile.Tier2` | fetch_all_videos.py:188-194 | tier 2 asks nothing and adds no items without a credential or with an empty gap; otherwise its requests carry no key and the bearer header, and it succeeds exactly when every chunk's request is answered |
| `Reconcile.Metadata` | fetch_all_videos.py:173-209 | fetch_videos_metadata asks nothing and returns nothing for no ids; a failed tier 1 aborts it; a result starts with the tier-1 answer |
| `Reconcile.MetadataLayout` | fetch_all_videos.py:173-209 | the output is the tier-1 answer, then the tier-2 answer (asked only for the tier-1 gap, and only with a credential and a non-empty gap), then placeholders for ids found by neither; without a credential the placeholders are exactly the tier-1 gap |
| `Reconcile.MetadataCoverage` | fetch_all_videos.py:173-209 | every id passed to fetch_videos_metadata appears as some output item's id |
| `Reconcile.AppendPlaceholders` | fetch_all_videos.py:203-207 | the placeholder loop appends exactly one placeholder per still-missing id, in order, after the tier items |
| `Reconcile.FetchVideosMetadata` | fetch_all_videos.py:173-209 | the two-tier method with its placeholder loop returns the metadata specification's result, failure included |
| `Duration.TruncateTowardZero` | fetch_all_videos.py:216 | int() of a float: within 1 of the value, toward zero, never past it |
| `Duration.Iso8601ToSeconds` | fetch_all_videos.py:212-218 | total: None for a missing or empty duration and when the parser fails; otherwise the parsed seconds truncated toward zero |
| `Duration.ClassifyType` | fetch_all_videos.py:221-224 | "unknown" exactly for no duration, "short" exactly below 60, "normal" exactly from 60 on |
| `Duration.ClassifyParsedDuration` | fetch_all_videos.py:212-224 | a parsed duration is "short" exactly when its exact value is under 60 seconds: truncation never moves it across the threshold |
| `Enrichment.PrivacyOf` | fetch_all_videos.py:297 | a missing privacyStatus reads as "unknown", an explicit null stays null, a string is kept |
| `Enrichment.EnrichItem` | fetch_all_videos.py:276-307 | a placeholder becomes a record with no content fields and no type, privacy "private_or_deleted_or_restricted" and the reason as note; any other item keeps its fields, gets the parsed seconds and the type ClassifyType gives them (short below 60, normal from 60, "unknown" exactly when the seconds are absent) and the privacy PrivacyOf reads; the id is always kept |
| `Enrichment.EnrichAll` | fetch_all_videos.py:274-307 | one record per item, each with its item's id; a record has no type exactly when its item is a placeholder |
| `Enrichment.EnrichAllConcat` | fetch_all_videos.py:274-275 | enrichment distributes over concatenation, so records keep the order of their items |
| `Enrichment.Enrich` | fetch_all_videos.py:274-307 | the enrichment loop yields one record per raw item, in order, each the item's enriched record |
| `Pipeline.AccessFor` | fetch_all_videos.py:59-72 | the playlist is read through OAuth exactly when a credential is present, otherwise with the API key |
| `Pipeline.Run` | fetch_all_videos.py:241-307 | a run fails with InvalidChannelId exactly when the channel id does not start with "UC"; no later stage raises that error |
| `Pipeline.FetchAllVideos` | fetch_all_videos.py:241-307 | the run returns the pipeline's result; a channel id without "UC" fails with InvalidChannelId before any playlist request; a successful run made at least one page request |
| `Pipeline.RunCoverage` | fetch_all_videos.py:266-307 | in a successful run every video id the playlist listed has an output record with that id |
| `Pipeline.RunLayout` | fetch_all_videos.py:266-307 | a successful run's records are those of the tier-1 and tier-2 items in API order, followed by one unresolved record per id neither tier found, in playlist order |

## Left out

- HTTP and the Google client library are not modelled: `requests.Session.get`,
  `raise_for_status`, `build(...).execute()` and `time.sleep`. The model
  replaces them with the `feed` and `lookup` parameters, and any transport
  error is an abort.
- The API response JSON is reduced to the fields the code reads. An object
  such as `snippet` that is present but `null` would make the source crash;
  the model treats it as missing.
- The comma-joined `id` parameter is modelled as the chunk itself.
- OAuth is not modelled: `run_oauth_flow` and the credential refresh (lines
  64-69) are outside the model. A credential is reduced to its token, which the
  Authorization header carries.
- The ISO 8601 parser and float arithmetic are not modelled. `parse` returns a
  real, so float rounding is not captured. int() truncation is modelled.
- Command-line parsing, the prints and verbose logging are not modelled.
- The client-secrets file-existence check and the JSON file write are not
  modelled.
- convert_json_to_excel.py is not part of this model. It is a fixed projection
  of records into spreadsheet columns.
- `Playlist.FetchPlaylistVideoIds`: the server's replies are a finite
  sequence, so the source's endless loop on a server that always returns a
  continuation token shows up as the error `PlaylistNotEnded`, not as
  non-termination.
