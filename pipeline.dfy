/** The fetch path of `main`: uploads playlist id, page loop, two-tier
    metadata, normalisation. The playlist server is a function from the
    query (playlist id and access mode) to the replies it gives; the
    `videos.list` endpoint and the duration parser are as in the stages. */
module Pipeline {
  import opened Types
  import opened Uploads
  import opened Playlist
  import opened Batching
  import opened Reconcile
  import opened Duration
  import opened Enrichment

  /** How the playlist is read: with the API key (public and unlisted videos
      only) or through the OAuth client (private ones too). */
  datatype Access = ApiKey(key: string) | OAuth(token: string)

  datatype PlaylistQuery = PlaylistQuery(playlistId: string, access: Access)

  /** With a credential the playlist is always read through OAuth. */
  function AccessFor(apiKey: string, cred: Option<Credential>): (a: Access)
    ensures a.OAuth? <==> cred.Some?
    ensures a.OAuth? ==> a.token == cred.value.token
    ensures a.ApiKey? ==> a.key == apiKey
  {
    if cred.Some? then OAuth(cred.value.token) else ApiKey(apiKey)
  }

  /** What a run produces: the enriched records, or the error that aborts it. */
  function Run(channelId: string, apiKey: string, cred: Option<Credential>,
               feed: PlaylistQuery -> seq<PageReply>, lookup: VideosRequest -> Option<seq<Item>>,
               parse: string -> Option<real>): (r: Result<seq<Record>, FetchError>)
    ensures (r.Failure? && r.error == InvalidChannelId) <==> !StartsWithUC(channelId)
  {
    match UploadsPlaylistId(channelId)
    case Failure(e) => Failure(e)
    case Success(playlistId) =>
      match Enumerate(feed(PlaylistQuery(playlistId, AccessFor(apiKey, cred))))
      case Failure(e) => Failure(e)
      case Success(videoIds) =>
        match Metadata(lookup, apiKey, videoIds, cred)
        case None => Failure(MetadataFailed)
        case Some(rawItems) => Success(EnrichAll(parse, rawItems))
  }

  /** The fetch path of `main`. `pagesRequested` counts the playlist
      requests made: none when the channel id is rejected, since the prefix
      check comes before any request. */
  method FetchAllVideos(channelId: string, apiKey: string, cred: Option<Credential>,
                        feed: PlaylistQuery -> seq<PageReply>, lookup: VideosRequest -> Option<seq<Item>>,
                        parse: string -> Option<real>)
    returns (r: Result<seq<Record>, FetchError>, pagesRequested: nat)
    ensures r == Run(channelId, apiKey, cred, feed, lookup, parse)
    ensures !StartsWithUC(channelId) ==> r == Failure(InvalidChannelId) && pagesRequested == 0
    ensures r.Success? ==> pagesRequested >= 1
  {
    pagesRequested := 0;
    var playlistId := UploadsPlaylistId(channelId);
    if playlistId.Failure? {
      r := Failure(playlistId.error);
      return;
    }
    var videoIds, tokensSent := FetchPlaylistVideoIds(feed(PlaylistQuery(playlistId.value, AccessFor(apiKey, cred))));
    pagesRequested := |tokensSent|;
    if videoIds.Failure? {
      r := Failure(videoIds.error);
      return;
    }
    var rawItems := FetchVideosMetadata(lookup, apiKey, videoIds.value, cred);
    if rawItems.None? {
      r := Failure(MetadataFailed);
      return;
    }
    var enriched := Enrich(parse, rawItems.value);
    r := Success(enriched);
  }

  /** Every video id the playlist listed has a record in the output. */
  lemma RunCoverage(channelId: string, apiKey: string, cred: Option<Credential>,
                    feed: PlaylistQuery -> seq<PageReply>, lookup: VideosRequest -> Option<seq<Item>>,
                    parse: string -> Option<real>)
    requires Run(channelId, apiKey, cred, feed, lookup, parse).Success?
    ensures UploadsPlaylistId(channelId).Success?
    ensures var videoIds := Enumerate(feed(PlaylistQuery(UploadsPlaylistId(channelId).value, AccessFor(apiKey, cred))));
      var records := Run(channelId, apiKey, cred, feed, lookup, parse).value;
      videoIds.Success? &&
      forall i :: 0 <= i < |videoIds.value| ==>
        exists j :: 0 <= j < |records| && records[j].id == Some(videoIds.value[i])
  {
    var videoIds := Enumerate(feed(PlaylistQuery(UploadsPlaylistId(channelId).value, AccessFor(apiKey, cred)))).value;
    var items := Metadata(lookup, apiKey, videoIds, cred).value;
    var records := Run(channelId, apiKey, cred, feed, lookup, parse).value;
    MetadataCoverage(lookup, apiKey, videoIds, cred);
    forall i | 0 <= i < |videoIds| ensures exists j :: 0 <= j < |records| && records[j].id == Some(videoIds[i]) {
      var j :| 0 <= j < |items| && items[j].id == Some(videoIds[i]);
      assert records[j] == EnrichItem(parse, items[j]);
    }
  }

  /** The record of an unresolved video. */
  function UnresolvedRecord(vid: string): Record {
    Record(Some(vid), None, None, None, None, None, Some(UnresolvedReason), Some(UnresolvedReason))
  }

  /** A successful run ends with one unresolved record per video id neither
      tier returned, in playlist order; the records before them are those of
      the tier-1 and tier-2 items, in the order the API returned them. */
  lemma RunLayout(channelId: string, apiKey: string, cred: Option<Credential>,
                  feed: PlaylistQuery -> seq<PageReply>, lookup: VideosRequest -> Option<seq<Item>>,
                  parse: string -> Option<real>)
    requires Run(channelId, apiKey, cred, feed, lookup, parse).Success?
    ensures UploadsPlaylistId(channelId).Success?
    ensures var videoIds := Enumerate(feed(PlaylistQuery(UploadsPlaylistId(channelId).value, AccessFor(apiKey, cred))));
      videoIds.Success? && BatchLookup(lookup, Some(apiKey), None, videoIds.value).Some? &&
      var t1 := BatchLookup(lookup, Some(apiKey), None, videoIds.value).value;
      var gap := Missing(videoIds.value, FoundIds(t1));
      Tier2(lookup, cred, gap).Some? &&
      var t2 := Tier2(lookup, cred, gap).value;
      var unresolved := Missing(videoIds.value, FoundIds(t1) + FoundIds(t2));
      var records := Run(channelId, apiKey, cred, feed, lookup, parse).value;
      records == EnrichAll(parse, t1 + t2) + seq(|unresolved|, k requires 0 <= k < |unresolved| => UnresolvedRecord(unresolved[k]))
  {
    var videoIds := Enumerate(feed(PlaylistQuery(UploadsPlaylistId(channelId).value, AccessFor(apiKey, cred)))).value;
    MetadataLayout(lookup, apiKey, videoIds, cred);
    var t1 := BatchLookup(lookup, Some(apiKey), None, videoIds).value;
    var t2 := Tier2(lookup, cred, Missing(videoIds, FoundIds(t1))).value;
    var unresolved := Missing(videoIds, FoundIds(t1) + FoundIds(t2));
    EnrichAllConcat(parse, t1 + t2, Placeholders(unresolved));
    var tail := EnrichAll(parse, Placeholders(unresolved));
    assert forall k :: 0 <= k < |unresolved| ==> tail[k] == UnresolvedRecord(unresolved[k]);
  }
}
