/** Two-tier metadata lookup and gap reconciliation (`fetch_videos_metadata`).
    Tier 1 asks for every id with the API key; tier 2 asks again, with the
    channel owner's bearer token, for the ids tier 1 did not return; every id
    neither tier returned gets a placeholder item. */
module Reconcile {
  import opened Types
  import opened Batching

  /** The channel owner's OAuth credential, reduced to the token the
      Authorization header carries. */
  datatype Credential = Credential(token: string)

  function Bearer(c: Credential): string {
    "Bearer " + c.token
  }

  /** `{it.get("id") for it in items if it.get("id")}`. */
  function FoundIds(items: seq<Item>): (found: set<string>)
    ensures forall k :: 0 <= k < |items| && Truthy(items[k].id) ==> items[k].id.value in found
    ensures forall x :: x in found ==> x != "" && exists k :: 0 <= k < |items| && items[k].id == Some(x)
  {
    set k | 0 <= k < |items| && Truthy(items[k].id) :: items[k].id.value
  }

  /** `[vid for vid in ids if vid not in found]`. */
  function Missing(ids: seq<string>, found: set<string>): (m: seq<string>)
    ensures |m| <= |ids|
    ensures forall k :: 0 <= k < |m| ==> m[k] !in found
  {
    if ids == [] then []
    else (if ids[0] in found then [] else [ids[0]]) + Missing(ids[1..], found)
  }

  /** An id is left over exactly when it was asked for and not found. */
  lemma {:induction false} MissingMembers(ids: seq<string>, found: set<string>, x: string)
    ensures x in Missing(ids, found) <==> x in ids && x !in found
  {
    if ids != [] {
      MissingMembers(ids[1..], found, x);
      assert ids == [ids[0]] + ids[1..];
    }
  }

  /** The filter keeps every occurrence of an id it keeps: duplicates in
      `ids` stay duplicated. */
  lemma {:induction false} MissingCount(ids: seq<string>, found: set<string>, x: string)
    ensures multiset(Missing(ids, found))[x] == if x in found then 0 else multiset(ids)[x]
  {
    if ids != [] {
      MissingCount(ids[1..], found, x);
      assert ids == [ids[0]] + ids[1..];
    }
  }

  /** Filtering by `a` and then by `b` is filtering by their union. */
  lemma {:induction false} MissingTwice(ids: seq<string>, a: set<string>, b: set<string>)
    ensures Missing(Missing(ids, a), b) == Missing(ids, a + b)
  {
    if ids != [] {
      MissingTwice(ids[1..], a, b);
      if ids[0] in a {
        assert Missing(ids, a) == Missing(ids[1..], a);
      } else {
        assert Missing(ids, a) == [ids[0]] + Missing(ids[1..], a);
        assert Missing(ids, a)[1..] == Missing(ids[1..], a);
      }
    }
  }

  /** The item standing for an id no tier returned: it carries the id and a
      truthy missing_reason, and nothing else. */
  function Placeholder(vid: string): (p: Item)
    ensures p.id == Some(vid) && Truthy(p.missingReason)
    ensures p.title.None? && p.publishedAt.None? && p.duration.None? && p.privacyStatus.Absent?
  {
    Item(Some(vid), None, None, None, Absent, Some(UnresolvedReason))
  }

  /** One placeholder per id, in the order of `ids`. */
  function Placeholders(ids: seq<string>): (ps: seq<Item>)
    ensures |ps| == |ids|
    ensures forall k :: 0 <= k < |ids| ==> ps[k] == Placeholder(ids[k])
  {
    seq(|ids|, k requires 0 <= k < |ids| => Placeholder(ids[k]))
  }

  /** Tier 2: the gap of tier 1, no key, bearer token; no request at all
      (and no items) when the gap is empty or there is no credential. */
  function Tier2(lookup: VideosRequest -> Option<seq<Item>>, cred: Option<Credential>, gap: seq<string>): (r: Option<seq<Item>>)
    ensures gap == [] || cred.None? ==> r == Some([])
    ensures gap != [] && cred.Some? ==>
      (r.Some? <==> forall k :: 0 <= k < |Chunks(gap)| ==>
         lookup(RequestFor(Chunks(gap)[k], None, Some(Bearer(cred.value)))).Some?)
  {
    if gap != [] && cred.Some? then
      LookupChunksAnswers(lookup, None, Some(Bearer(cred.value)), Chunks(gap));
      assert BatchLookup(lookup, None, Some(Bearer(cred.value)), gap)
        == LookupChunks(lookup, None, Some(Bearer(cred.value)), Chunks(gap));
      BatchLookup(lookup, None, Some(Bearer(cred.value)), gap)
    else Some([])
  }

  /** What `fetch_videos_metadata` returns (or raises): nothing is asked
      for no ids, a failed tier 1 aborts, and a result starts with the
      tier-1 answer. */
  function Metadata(lookup: VideosRequest -> Option<seq<Item>>, apiKey: string, ids: seq<string>,
                    cred: Option<Credential>): (r: Option<seq<Item>>)
    ensures ids == [] ==> r == Some([])
    ensures r.Some? ==>
      BatchLookup(lookup, Some(apiKey), None, ids).Some? && BatchLookup(lookup, Some(apiKey), None, ids).value <= r.value
  {
    match BatchLookup(lookup, Some(apiKey), None, ids)
    case None => None
    case Some(rawItems) =>
      var missing := Missing(ids, FoundIds(rawItems));
      if missing != [] && cred.Some? then
        match BatchLookup(lookup, None, Some(Bearer(cred.value)), missing)
        case None => None
        case Some(oauthItems) =>
          Some(rawItems + oauthItems + Placeholders(Missing(missing, FoundIds(oauthItems))))
      else Some(rawItems + Placeholders(missing))
  }

  /** The tier-1 items, then the tier-2 items, then one placeholder per id
      of `ids` that neither tier returned. */
  function Reconciled(ids: seq<string>, t1: seq<Item>, t2: seq<Item>): seq<Item> {
    t1 + t2 + Placeholders(Missing(ids, FoundIds(t1) + FoundIds(t2)))
  }

  /** Every requested id appears in the reconciled list: as the id of an
      item some tier returned, or as a placeholder. */
  lemma ReconciledCoverage(ids: seq<string>, t1: seq<Item>, t2: seq<Item>)
    ensures var out := Reconciled(ids, t1, t2);
      forall i :: 0 <= i < |ids| ==> exists j :: 0 <= j < |out| && out[j].id == Some(ids[i])
  {
    var out := Reconciled(ids, t1, t2);
    var unresolved := Missing(ids, FoundIds(t1) + FoundIds(t2));
    forall i | 0 <= i < |ids| ensures exists j :: 0 <= j < |out| && out[j].id == Some(ids[i]) {
      var x := ids[i];
      if x in FoundIds(t1) {
        var k :| 0 <= k < |t1| && t1[k].id == Some(x);
        assert out[k] == t1[k];
      } else if x in FoundIds(t2) {
        var k :| 0 <= k < |t2| && t2[k].id == Some(x);
        assert out[|t1| + k] == t2[k];
      } else {
        MissingMembers(ids, FoundIds(t1) + FoundIds(t2), x);
        var k :| 0 <= k < |unresolved| && unresolved[k] == x;
        assert out[|t1| + |t2| + k] == Placeholder(x);
      }
    }
  }

  /** When the two tiers between them return every id, nothing is marked
      unresolved. */
  lemma ReconciledComplete(ids: seq<string>, t1: seq<Item>, t2: seq<Item>)
    requires forall i :: 0 <= i < |ids| ==> ids[i] in FoundIds(t1) + FoundIds(t2)
    ensures Reconciled(ids, t1, t2) == t1 + t2
  {
    var unresolved := Missing(ids, FoundIds(t1) + FoundIds(t2));
    if unresolved != [] {
      MissingMembers(ids, FoundIds(t1) + FoundIds(t2), unresolved[0]);
    }
    assert t1 + t2 + Placeholders([]) == t1 + t2;
  }

  /** `fetch_videos_metadata` returns the reconciled list of the tier-1
      answer and the tier-2 answer (empty when tier 2 is skipped). Tier 2 is
      asked for the tier-1 gap only, and without a credential the
      placeholders are exactly that gap. */
  lemma MetadataLayout(lookup: VideosRequest -> Option<seq<Item>>, apiKey: string, ids: seq<string>,
                       cred: Option<Credential>)
    requires Metadata(lookup, apiKey, ids, cred).Some?
    ensures BatchLookup(lookup, Some(apiKey), None, ids).Some?
    ensures var t1 := BatchLookup(lookup, Some(apiKey), None, ids).value;
      var gap := Missing(ids, FoundIds(t1));
      Tier2(lookup, cred, gap).Some? &&
      var t2 := Tier2(lookup, cred, gap).value;
      Metadata(lookup, apiKey, ids, cred).value == Reconciled(ids, t1, t2)
      && (cred.None? ==> Metadata(lookup, apiKey, ids, cred).value == t1 + Placeholders(gap))
  {
    var t1 := BatchLookup(lookup, Some(apiKey), None, ids).value;
    var gap := Missing(ids, FoundIds(t1));
    var t2 := Tier2(lookup, cred, gap).value;
    MissingTwice(ids, FoundIds(t1), FoundIds(t2));
    assert FoundIds(t1) + FoundIds([]) == FoundIds(t1);
    assert t1 + [] == t1;
  }

  /** Every requested id appears in the output of `fetch_videos_metadata`. */
  lemma MetadataCoverage(lookup: VideosRequest -> Option<seq<Item>>, apiKey: string, ids: seq<string>,
                         cred: Option<Credential>)
    requires Metadata(lookup, apiKey, ids, cred).Some?
    ensures var out := Metadata(lookup, apiKey, ids, cred).value;
      forall i :: 0 <= i < |ids| ==> exists j :: 0 <= j < |out| && out[j].id == Some(ids[i])
  {
    MetadataLayout(lookup, apiKey, ids, cred);
    var t1 := BatchLookup(lookup, Some(apiKey), None, ids).value;
    var t2 := Tier2(lookup, cred, Missing(ids, FoundIds(t1))).value;
    ReconciledCoverage(ids, t1, t2);
  }

  /** The `for vid in missing_ids` loop: one placeholder appended per id. */
  method AppendPlaceholders(items: seq<Item>, missingIds: seq<string>) returns (allItems: seq<Item>)
    ensures allItems == items + Placeholders(missingIds)
  {
    allItems := items;
    for k := 0 to |missingIds|
      invariant allItems == items + Placeholders(missingIds[..k])
    {
      allItems := allItems + [Placeholder(missingIds[k])];
    }
    assert missingIds[..|missingIds|] == missingIds;
  }

  /** `fetch_videos_metadata`: both tiers, then the placeholder loop. */
  method FetchVideosMetadata(lookup: VideosRequest -> Option<seq<Item>>, apiKey: string, ids: seq<string>,
                             cred: Option<Credential>) returns (r: Option<seq<Item>>)
    ensures r == Metadata(lookup, apiKey, ids, cred)
  {
    var rawReply := CallVideosList(lookup, Some(apiKey), None, ids);
    if rawReply.None? {
      return None;
    }
    var rawItems := rawReply.value;
    var foundIds := FoundIds(rawItems);
    var missingIds := Missing(ids, foundIds);
    var oauthItems: seq<Item> := [];
    if missingIds != [] && cred.Some? {
      var headers := Some(Bearer(cred.value));
      var oauthReply := CallVideosList(lookup, None, headers, missingIds);
      if oauthReply.None? {
        return None;
      }
      oauthItems := oauthReply.value;
      var oauthFound := FoundIds(oauthItems);
      foundIds := foundIds + oauthFound;
      missingIds := Missing(missingIds, oauthFound);
    } else {
      assert rawItems + oauthItems == rawItems;
    }
    var allItems := AppendPlaceholders(rawItems + oauthItems, missingIds);
    r := Some(allItems);
  }
}
