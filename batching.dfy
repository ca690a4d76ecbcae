/** Chunked `videos.list` lookups (`call_videos_list_with_session`). The
    endpoint is a function from a request to its `items`, or None when the
    request fails (the source's `raise_for_status`). */
module Batching {
  import opened Types

  /** The endpoint's ceiling on ids per request. */
  const BatchSize: nat := 50

  const VideosPart: string := "snippet,contentDetails,status"

  /** One `videos.list` request: the `part` selector, the ids joined into the
      `id` parameter, the `key` parameter if sent, and the Authorization
      header if sent. */
  datatype VideosRequest = VideosRequest(
    part: string,
    ids: seq<string>,
    key: Option<string>,
    authorization: Option<string>)

  function Min(a: int, b: int): int {
    if a < b then a else b
  }

  function Flatten<T>(ss: seq<seq<T>>): seq<T> {
    if ss == [] then [] else ss[0] + Flatten(ss[1..])
  }

  /** `ids` cut into consecutive slices of `BatchSize`, the last one shorter:
      ceil(|ids| / 50) slices, none empty. */
  function Chunks(ids: seq<string>): (cs: seq<seq<string>>)
    ensures forall k :: 0 <= k < |cs| ==> 0 < |cs[k]| <= BatchSize
    decreases |ids|
  {
    if ids == [] then []
    else
      var n := Min(BatchSize, |ids|);
      [ids[..n]] + Chunks(ids[n..])
  }

  /** There are ceil(|ids| / 50) chunks, so as many requests. */
  lemma {:induction false} ChunksCount(ids: seq<string>)
    ensures |Chunks(ids)| == (|ids| + BatchSize - 1) / BatchSize
    decreases |ids|
  {
    if ids != [] {
      ChunksCount(ids[Min(BatchSize, |ids|)..]);
    }
  }

  /** Gluing the chunks back together gives `ids`. */
  lemma {:induction false} ChunksFlatten(ids: seq<string>)
    ensures Flatten(Chunks(ids)) == ids
    decreases |ids|
  {
    if ids != [] {
      var n := Min(BatchSize, |ids|);
      ChunksFlatten(ids[n..]);
      assert Chunks(ids)[1..] == Chunks(ids[n..]);
      assert ids == ids[..n] + ids[n..];
    }
  }

  /** The k-th chunk is `ids[50k : 50k + 50]`, the slice the source takes at
      offset `i = 50k` of `range(0, len(ids), 50)`. */
  lemma {:induction false} ChunkAt(ids: seq<string>, k: nat)
    requires k < |Chunks(ids)|
    ensures k * BatchSize < |ids|
    ensures Chunks(ids)[k] == ids[k * BatchSize..Min(k * BatchSize + BatchSize, |ids|)]
    decreases |ids|
  {
    var n := Min(BatchSize, |ids|);
    if k > 0 {
      ChunkAt(ids[n..], k - 1);
      assert Chunks(ids)[k] == Chunks(ids[n..])[k - 1];
      assert n == BatchSize;
      assert ids[n..][(k - 1) * BatchSize..Min((k - 1) * BatchSize + BatchSize, |ids| - n)]
          == ids[k * BatchSize..Min(k * BatchSize + BatchSize, |ids|)];
    }
  }

  /** The request for one chunk: `key` is sent only when the API key is
      truthy; the Authorization header is passed through. */
  function RequestFor(chunk: seq<string>, apiKey: Option<string>, authorization: Option<string>): (q: VideosRequest)
    ensures q.part == VideosPart && q.ids == chunk && q.authorization == authorization
    ensures q.key.Some? <==> Truthy(apiKey)
    ensures q.key.Some? ==> q.key == apiKey
  {
    VideosRequest(VideosPart, chunk, if Truthy(apiKey) then apiKey else None, authorization)
  }

  /** `acc` followed by the items of a successful answer; failure passes through. */
  function PrependItems(acc: seq<Item>, o: Option<seq<Item>>): Option<seq<Item>> {
    match o
    case Some(items) => Some(acc + items)
    case None => None
  }

  lemma PrependItemsTwice(a: seq<Item>, b: seq<Item>, o: Option<seq<Item>>)
    ensures PrependItems(a, PrependItems(b, o)) == PrependItems(a + b, o)
    ensures PrependItems([], o) == o
  {
    if o.Some? {
      assert a + (b + o.value) == (a + b) + o.value;
      assert [] + o.value == o.value;
    }
  }

  /** One request per chunk, in chunk order, answers concatenated; the first
      failed request aborts the whole lookup. */
  function LookupChunks(lookup: VideosRequest -> Option<seq<Item>>, apiKey: Option<string>,
                        authorization: Option<string>, cs: seq<seq<string>>): (r: Option<seq<Item>>)
    ensures r.Some? ==> forall k :: 0 <= k < |cs| ==> lookup(RequestFor(cs[k], apiKey, authorization)).Some?
  {
    if cs == [] then Some([])
    else match lookup(RequestFor(cs[0], apiKey, authorization))
      case None => None
      case Some(items) => PrependItems(items, LookupChunks(lookup, apiKey, authorization, cs[1..]))
  }

  /** What `call_videos_list_with_session` returns (or raises) for `ids`:
      no request for no ids, and a single request when they fit in one. */
  function BatchLookup(lookup: VideosRequest -> Option<seq<Item>>, apiKey: Option<string>,
                       authorization: Option<string>, ids: seq<string>): (r: Option<seq<Item>>)
    ensures ids == [] ==> r == Some([])
  {
    LookupChunks(lookup, apiKey, authorization, Chunks(ids))
  }

  /** Ids that fit in one batch are looked up with a single request. */
  lemma SingleRequest(lookup: VideosRequest -> Option<seq<Item>>, apiKey: Option<string>,
                      authorization: Option<string>, ids: seq<string>)
    requires 0 < |ids| <= BatchSize
    ensures BatchLookup(lookup, apiKey, authorization, ids) == lookup(RequestFor(ids, apiKey, authorization))
  {
    assert ids[..|ids|] == ids;
    assert Chunks(ids) == [ids] + Chunks(ids[|ids|..]);
    assert ids[|ids|..] == [];
    assert Chunks(ids) == [ids];
    assert Chunks(ids)[1..] == [];
    var one := lookup(RequestFor(ids, apiKey, authorization));
    assert LookupChunks(lookup, apiKey, authorization, []) == Some([]);
    if one.Some? {
      assert one.value + [] == one.value;
      assert LookupChunks(lookup, apiKey, authorization, [ids]) == PrependItems(one.value, Some([]));
    }
  }

  function ItemsOf(o: Option<seq<Item>>): seq<Item> {
    match o
    case Some(items) => items
    case None => []
  }

  /** A chunked lookup succeeds exactly when every chunk's request is
      answered, and then yields the answers concatenated in chunk order. */
  lemma {:induction false} LookupChunksAnswers(lookup: VideosRequest -> Option<seq<Item>>, apiKey: Option<string>,
                                               authorization: Option<string>, cs: seq<seq<string>>)
    ensures LookupChunks(lookup, apiKey, authorization, cs).Some? <==>
      forall k :: 0 <= k < |cs| ==> lookup(RequestFor(cs[k], apiKey, authorization)).Some?
    ensures LookupChunks(lookup, apiKey, authorization, cs).Some? ==>
      LookupChunks(lookup, apiKey, authorization, cs).value ==
        Flatten(seq(|cs|, k requires 0 <= k < |cs| => ItemsOf(lookup(RequestFor(cs[k], apiKey, authorization)))))
  {
    if cs != [] {
      LookupChunksAnswers(lookup, apiKey, authorization, cs[1..]);
      var all := seq(|cs|, k requires 0 <= k < |cs| => ItemsOf(lookup(RequestFor(cs[k], apiKey, authorization))));
      var rest := seq(|cs| - 1, k requires 0 <= k < |cs| - 1 => ItemsOf(lookup(RequestFor(cs[1..][k], apiKey, authorization))));
      assert all[1..] == rest;
      if lookup(RequestFor(cs[0], apiKey, authorization)).Some? {
        assert forall k :: 1 <= k < |cs| ==> cs[k] == cs[1..][k - 1];
      }
    }
  }

  /** The chunk loop of `call_videos_list_with_session`. */
  method CallVideosList(lookup: VideosRequest -> Option<seq<Item>>, apiKey: Option<string>,
                        authorization: Option<string>, ids: seq<string>) returns (r: Option<seq<Item>>)
    ensures r == BatchLookup(lookup, apiKey, authorization, ids)
    ensures ids == [] ==> r == Some([])
  {
    var results: seq<Item> := [];
    var i := 0;
    PrependItemsTwice([], [], BatchLookup(lookup, apiKey, authorization, ids));
    assert ids[Min(i, |ids|)..] == ids;
    while i < |ids|
      invariant BatchLookup(lookup, apiKey, authorization, ids) ==
        PrependItems(results, BatchLookup(lookup, apiKey, authorization, ids[Min(i, |ids|)..]))
    {
      var chunk := ids[i..Min(i + BatchSize, |ids|)];
      var reply := lookup(RequestFor(chunk, apiKey, authorization));
      ghost var rest := ids[Min(i + BatchSize, |ids|)..];
      assert ids[i..][..|chunk|] == chunk;
      assert ids[i..][|chunk|..] == rest;
      assert Chunks(ids[i..]) == [chunk] + Chunks(rest);
      assert BatchLookup(lookup, apiKey, authorization, ids[i..]) ==
        match reply
        case None => None
        case Some(items) => PrependItems(items, BatchLookup(lookup, apiKey, authorization, rest));
      if reply.None? {
        assert BatchLookup(lookup, apiKey, authorization, ids[i..]) == None;
        return None;
      }
      PrependItemsTwice(results, reply.value, BatchLookup(lookup, apiKey, authorization, rest));
      results := results + reply.value;
      i := i + BatchSize;
    }
    assert ids[Min(i, |ids|)..] == [];
    assert results + [] == results;
    r := Some(results);
  }
}
