/** Paging through an uploads playlist (`fetch_playlist_video_ids`).
    The server is the finite sequence of replies it gives to the
    successive page requests; the OAuth and API-key transports differ only
    in how a request is authorised, so one loop serves both. */
module Playlist {
  import opened Types

  /** The part of a `playlistItems.list` response the enumerator reads:
      `items[].contentDetails.videoId` (each possibly missing) and
      `nextPageToken`. */
  datatype Page = Page(videoIds: seq<Option<string>>, nextPageToken: Option<string>)

  /** The server's answer to one page request: a page, or a transport/API
      error (which the source re-raises). */
  datatype PageReply = Served(page: Page) | Failed

  /** The truthy video ids of one page, in page order. */
  function Kept(videoIds: seq<Option<string>>): (ids: seq<string>)
    ensures |ids| <= |videoIds|
    ensures forall x :: x in ids <==> x != "" && Some(x) in videoIds
  {
    if videoIds == [] then []
    else
      var last := videoIds[|videoIds| - 1];
      assert videoIds == videoIds[..|videoIds| - 1] + [last];
      Kept(videoIds[..|videoIds| - 1]) + (if Truthy(last) then [last.value] else [])
  }

  /** True of a reply after which the source requests another page: a page
      whose nextPageToken is present and non-empty. */
  predicate Continues(reply: PageReply) {
    reply.Served? && Truthy(reply.page.nextPageToken)
  }

  /** `acc` followed by the ids of a successful result; errors pass through. */
  function Prepend(acc: seq<string>, r: Result<seq<string>, FetchError>): Result<seq<string>, FetchError> {
    match r
    case Success(ids) => Success(acc + ids)
    case Failure(e) => Failure(e)
  }

  lemma PrependTwice(a: seq<string>, b: seq<string>, r: Result<seq<string>, FetchError>)
    ensures Prepend(a, Prepend(b, r)) == Prepend(a + b, r)
  {
    if r.Success? {
      assert a + (b + r.value) == (a + b) + r.value;
    }
  }

  /** The enumeration from the `i`-th request on, page by page. */
  function EnumerateFrom(replies: seq<PageReply>, i: nat): (r: Result<seq<string>, FetchError>)
    requires i <= |replies|
    ensures r.Failure? ==>
      (r.error.PlaylistPageFailed? && i < r.error.page <= |replies|) || r.error == PlaylistNotEnded(|replies|)
    ensures r.Success? ==> i < |replies|
    decreases |replies| - i
  {
    if i == |replies| then Failure(PlaylistNotEnded(i))
    else match replies[i]
      case Failed => Failure(PlaylistPageFailed(i + 1))
      case Served(p) =>
        if Truthy(p.nextPageToken) then Prepend(Kept(p.videoIds), EnumerateFrom(replies, i + 1))
        else Success(Kept(p.videoIds))
  }

  /** What `fetch_playlist_video_ids` returns (or raises) against `replies`:
      a failure names a page that was requested, or says the replies ran
      out; a success lists only non-empty ids. */
  function Enumerate(replies: seq<PageReply>): (r: Result<seq<string>, FetchError>)
    ensures r.Failure? ==>
      (r.error.PlaylistPageFailed? && 1 <= r.error.page <= |replies|) || r.error == PlaylistNotEnded(|replies|)
    ensures r.Success? ==> |replies| > 0
  {
    EnumerateFrom(replies, 0)
  }

  /** Index of the first reply after which no further page is requested:
      a failed reply or a page without a truthy nextPageToken. */
  function FirstStop(replies: seq<PageReply>): (n: nat)
    ensures n <= |replies|
    ensures forall j :: 0 <= j < n ==> Continues(replies[j])
    ensures n < |replies| ==> !Continues(replies[n])
  {
    if replies == [] || !Continues(replies[0]) then 0
    else 1 + FirstStop(replies[1..])
  }

  /** The ids of the pages in `replies`, concatenated in page order. */
  function Harvest(replies: seq<PageReply>): seq<string> {
    if replies == [] then []
    else
      (if replies[0].Served? then Kept(replies[0].page.videoIds) else [])
      + Harvest(replies[1..])
  }

  lemma {:induction false} EnumerateFromClosedForm(replies: seq<PageReply>, i: nat)
    requires i <= FirstStop(replies)
    ensures var n := FirstStop(replies);
      EnumerateFrom(replies, i) ==
        if n == |replies| then Failure(PlaylistNotEnded(n))
        else if replies[n].Failed? then Failure(PlaylistPageFailed(n + 1))
        else Success(Harvest(replies[i..n + 1]))
    decreases |replies| - i
  {
    var n := FirstStop(replies);
    if i < n {
      EnumerateFromClosedForm(replies, i + 1);
      if n < |replies| {
        assert replies[i..n + 1][1..] == replies[i + 1..n + 1];
      }
    } else if i < |replies| && replies[i].Served? {
      assert replies[i..n + 1] == [replies[i]];
      assert [replies[i]][1..] == [];
      assert Harvest([replies[i]]) == Kept(replies[i].page.videoIds) + Harvest([]);
      assert Harvest(replies[i..n + 1]) == Kept(replies[i].page.videoIds);
    }
  }

  /** The enumeration stops at the first failed reply or the first page
      without a truthy token, and succeeds with the truthy ids of all pages
      up to and including that page, in page order. A page without ids
      stops nothing: only tokens decide where the enumeration ends. */
  lemma EnumerateClosedForm(replies: seq<PageReply>)
    ensures var n := FirstStop(replies);
      Enumerate(replies) ==
        if n == |replies| then Failure(PlaylistNotEnded(n))
        else if replies[n].Failed? then Failure(PlaylistPageFailed(n + 1))
        else Success(Harvest(replies[..n + 1]))
  {
    EnumerateFromClosedForm(replies, 0);
    if FirstStop(replies) < |replies| {
      assert replies[0..FirstStop(replies) + 1] == replies[..FirstStop(replies) + 1];
    }
  }

  /** The `for it in items` loop of one page: appends the page's truthy
      video ids to `videoIds`. */
  method AppendKept(videoIds: seq<string>, items: seq<Option<string>>) returns (out: seq<string>)
    ensures out == videoIds + Kept(items)
  {
    out := videoIds;
    var j := 0;
    while j < |items|
      invariant j <= |items|
      invariant out == videoIds + Kept(items[..j])
    {
      if Truthy(items[j]) {
        out := out + [items[j].value];
      }
      j := j + 1;
      assert items[..j][..j - 1] == items[..j - 1];
    }
    assert items[..j] == items;
  }

  /** The page loop. `tokensSent[k]` is the pageToken of the k-th request
      (None when the parameter is omitted). */
  method FetchPlaylistVideoIds(replies: seq<PageReply>)
    returns (r: Result<seq<string>, FetchError>, tokensSent: seq<Option<string>>)
    ensures r == Enumerate(replies)
    ensures |tokensSent| == if FirstStop(replies) < |replies| then FirstStop(replies) + 1 else |replies|
    ensures |tokensSent| > 0 ==> tokensSent[0] == None
    ensures forall k :: 0 < k < |tokensSent| ==>
      Truthy(tokensSent[k]) && tokensSent[k] == replies[k - 1].page.nextPageToken
  {
    var videoIds: seq<string> := [];
    var nextToken: Option<string> := None;
    var page: nat := 0;
    tokensSent := [];
    match EnumerateFrom(replies, 0) {
      case Success(ids) => assert [] + ids == ids;
      case Failure(_) =>
    }
    while page < |replies|
      invariant page <= FirstStop(replies)
      invariant |tokensSent| == page
      invariant page == 0 ==> nextToken == None
      invariant page > 0 ==> tokensSent[0] == None && nextToken == replies[page - 1].page.nextPageToken
      invariant forall k :: 0 < k < page ==>
        Truthy(tokensSent[k]) && tokensSent[k] == replies[k - 1].page.nextPageToken
      invariant Enumerate(replies) == Prepend(videoIds, EnumerateFrom(replies, page))
    {
      ghost var i := page;
      assert i > 0 ==> Continues(replies[i - 1]);
      tokensSent := tokensSent + [if Truthy(nextToken) then nextToken else None];
      var reply := replies[page];
      page := page + 1;
      if reply.Failed? {
        assert i == FirstStop(replies);
        r := Failure(PlaylistPageFailed(page));
        return;
      }
      var items := reply.page.videoIds;
      PrependTwice(videoIds, Kept(items), EnumerateFrom(replies, page));
      videoIds := AppendKept(videoIds, items);
      nextToken := reply.page.nextPageToken;
      if !Truthy(nextToken) {
        assert i == FirstStop(replies);
        assert EnumerateFrom(replies, i) == Success(Kept(items));
        r := Success(videoIds);
        return;
      }
      assert i < FirstStop(replies);
      assert EnumerateFrom(replies, i) == Prepend(Kept(items), EnumerateFrom(replies, page));
    }
    r := Failure(PlaylistNotEnded(page));
  }
}
