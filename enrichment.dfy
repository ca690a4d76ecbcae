/** The normalisation loop of `main`: one output record per raw item. */
module Enrichment {
  import opened Types
  import opened Duration

  /** `status.get("privacyStatus", "unknown")`: the default applies only
      when the key is missing; an explicit null stays null. */
  function PrivacyOf(status: Field): (p: Option<string>)
    ensures status.Absent? ==> p == Some("unknown")
    ensures status.Null? <==> p.None?
    ensures status.Str? ==> p == Some(status.s)
  {
    match status
    case Absent => Some("unknown")
    case Null => None
    case Str(s) => Some(s)
  }

  /** The record for one raw item. A placeholder (an item with a truthy
      missing_reason) becomes an unresolved record: no content fields, no
      type, the fixed privacy label and the reason as its note. Any other
      item keeps its content fields, gets its duration in seconds and a
      type that is "unknown" exactly when the duration could not be read. */
  function EnrichItem(parse: string -> Option<real>, item: Item): (rec: Record)
    ensures rec.id == item.id
    ensures Truthy(item.missingReason) ==>
      rec == Record(item.id, None, None, None, None, None, Some(UnresolvedReason), item.missingReason)
    ensures !Truthy(item.missingReason) ==>
      rec.title == item.title && rec.publishedAt == item.publishedAt && rec.duration == item.duration
      && rec.durationSeconds == Iso8601ToSeconds(parse, item.duration)
      && rec.vtype == Some(ClassifyType(rec.durationSeconds))
      && (rec.vtype == Some(Unknown) <==> rec.durationSeconds.None?)
      && rec.privacy == PrivacyOf(item.privacyStatus)
      && rec.note.None?
  {
    if Truthy(item.missingReason) then
      Record(item.id, None, None, None, None, None, Some(UnresolvedReason), item.missingReason)
    else
      var seconds := Iso8601ToSeconds(parse, item.duration);
      Record(item.id, item.title, item.publishedAt, item.duration, seconds,
             Some(ClassifyType(seconds)), PrivacyOf(item.privacyStatus), None)
  }

  /** The records of `items`, one per item, in the same order. */
  function EnrichAll(parse: string -> Option<real>, items: seq<Item>): (recs: seq<Record>)
    ensures |recs| == |items|
    ensures forall k :: 0 <= k < |items| ==> recs[k].id == items[k].id
    ensures forall k :: 0 <= k < |items| ==> (recs[k].vtype.None? <==> Truthy(items[k].missingReason))
  {
    seq(|items|, k requires 0 <= k < |items| => EnrichItem(parse, items[k]))
  }

  /** Enrichment works item by item, so it distributes over concatenation:
      the records of the tier-1 items, the tier-2 items and the placeholders
      come out in that order. */
  lemma EnrichAllConcat(parse: string -> Option<real>, a: seq<Item>, b: seq<Item>)
    ensures EnrichAll(parse, a + b) == EnrichAll(parse, a) + EnrichAll(parse, b)
  {
    assert forall k :: 0 <= k < |a| + |b| ==>
      EnrichAll(parse, a + b)[k] == (EnrichAll(parse, a) + EnrichAll(parse, b))[k];
  }

  /** The `for item in raw_items` loop of `main`. */
  method Enrich(parse: string -> Option<real>, rawItems: seq<Item>) returns (enriched: seq<Record>)
    ensures enriched == EnrichAll(parse, rawItems)
    ensures forall k :: 0 <= k < |rawItems| ==> enriched[k].id == rawItems[k].id
  {
    enriched := [];
    for k := 0 to |rawItems|
      invariant enriched == EnrichAll(parse, rawItems[..k])
    {
      var item := rawItems[k];
      if Truthy(item.missingReason) {
        enriched := enriched + [Record(item.id, None, None, None, None, None, Some(UnresolvedReason), item.missingReason)];
        continue;
      }
      var durationText := item.duration;
      var durationSeconds := Iso8601ToSeconds(parse, durationText);
      var vtype := ClassifyType(durationSeconds);
      var privacy := PrivacyOf(item.privacyStatus);
      enriched := enriched + [Record(item.id, item.title, item.publishedAt, durationText, durationSeconds,
                                     Some(vtype), privacy, None)];
    }
    assert rawItems[..|rawItems|] == rawItems;
  }
}
