/** Marketing-attribution reconciliation: deciding whether the UTM tags stored
    on an order form diverge from the ones the session tracks, and building
    the overlay in which the session's tags win. */
module Attribution {
  import opened JsValues
  import opened Backend

  const UtmSourceKey: string := "utmSource"
  const UtmCampaignKey: string := "utmCampaign"
  const UtmiCampaignKey: string := "utmiCampaign"

  /** The three keys of a marketing record that reconciliation looks at. */
  const TrackedKeys: set<string> := {UtmSourceKey, UtmCampaignKey, UtmiCampaignKey}

  /** `marketingData || {}`: a missing or null record behaves as an empty
      object. */
  function Base(md: Marketing): Record
  {
    match md
    case MarketingObject(fields) => fields
    case _ => map[]
  }

  /** A tag of the order as destructured with a `= null` default. */
  function OrderTag(md: Marketing, key: string): (v: JsValue)
    ensures v != Undefined
    ensures key in Base(md) && Base(md)[key] != Undefined ==> v == Base(md)[key]
    ensures (key !in Base(md) || Base(md)[key] == Undefined) ==> v == Null
  {
    DefaultNull(Get(Base(md), key))
  }

  /** `divergingUTMs`: some order tag is not strictly equal to the session's
      counterpart. */
  predicate Diverging(md: Marketing, seg: SegmentData)
    // divergence is exactly field-for-field inequality of the order's
    // null-defaulted tags and the session's tags
    ensures Diverging(md, seg) <==> OrderTags(md) != SessionTags(seg)
  {
    || !StrictEquals(OrderTag(md, UtmSourceKey), seg.utmSource)
    || !StrictEquals(OrderTag(md, UtmCampaignKey), seg.utmCampaign)
    || !StrictEquals(OrderTag(md, UtmiCampaignKey), seg.utmiCampaign)
  }

  /** The three tags as one value, compared field for field. */
  datatype Tags = Tags(source: JsValue, campaign: JsValue, iCampaign: JsValue)

  function OrderTags(md: Marketing): Tags
  {
    Tags(OrderTag(md, UtmSourceKey), OrderTag(md, UtmCampaignKey), OrderTag(md, UtmiCampaignKey))
  }

  function SessionTags(seg: SegmentData): Tags
  {
    Tags(seg.utmSource, seg.utmCampaign, seg.utmiCampaign)
  }

  /** Whether the session left some tag `undefined`. */
  predicate HasUndefinedTag(seg: SegmentData)
  {
    seg.utmSource == Undefined || seg.utmCampaign == Undefined || seg.utmiCampaign == Undefined
  }

  /** A missing or null order record counts as three `null` tags: it diverges
      exactly when some session tag is not `null` (an `undefined` one
      included). */
  lemma AbsentMarketingDiverges(md: Marketing, seg: SegmentData)
    requires !md.MarketingObject?
    ensures Diverging(md, seg) <==> (seg.utmSource != Null || seg.utmCampaign != Null || seg.utmiCampaign != Null)
  {
  }

  /** An `undefined` session tag always diverges, whatever the order holds:
      the order's side has been defaulted and is never `undefined`. */
  lemma UndefinedSessionTagDiverges(md: Marketing, seg: SegmentData)
    requires HasUndefinedTag(seg)
    ensures Diverging(md, seg)
  {
  }

  /** The new marketing data `{...(marketingData || {}), utmCampaign, utmSource,
      utmiCampaign}`: the session's three tags are written (even when they are
      `undefined`), every other key keeps its value. */
  function Merge(md: Marketing, seg: SegmentData): (r: Record)
    ensures r.Keys == Base(md).Keys + TrackedKeys
    ensures r[UtmSourceKey] == seg.utmSource
    ensures r[UtmCampaignKey] == seg.utmCampaign
    ensures r[UtmiCampaignKey] == seg.utmiCampaign
    ensures forall k :: k in Base(md) && k !in TrackedKeys ==> r[k] == Base(md)[k]
  {
    Base(md) + map[
      UtmCampaignKey := seg.utmCampaign,
      UtmSourceKey := seg.utmSource,
      UtmiCampaignKey := seg.utmiCampaign]
  }

  /** A missing or null prior record contributes no keys. */
  lemma MergeOfAbsentHasOnlyTrackedKeys(md: Marketing, seg: SegmentData)
    requires !md.MarketingObject?
    ensures Merge(md, seg).Keys == TrackedKeys
  {
  }

  /** After the merge the order carries the session's tags: re-checking the
      merged record against the same session reports no divergence, exactly
      when no session tag is `undefined` (an `undefined` one is copied in,
      defaulted to `null` on the next read, and still differs). */
  lemma MergeSettlesDivergence(md: Marketing, seg: SegmentData)
    ensures !Diverging(MarketingObject(Merge(md, seg)), seg) <==> !HasUndefinedTag(seg)
  {
  }

  /** Merging twice with the same session is merging once. */
  lemma MergeIdempotent(md: Marketing, seg: SegmentData)
    ensures Merge(MarketingObject(Merge(md, seg)), seg) == Merge(md, seg)
  {
  }

  /** When the order's record already agrees with the session, the overlay
      would not change any tag that reads as defined. */
  lemma AgreeingMergeKeepsDefinedTags(md: Marketing, seg: SegmentData, key: string)
    requires !Diverging(md, seg)
    requires key in TrackedKeys && key in Base(md) && Base(md)[key] != Undefined
    ensures Merge(md, seg)[key] == Base(md)[key]
  {
  }

  /** Divergence on concrete inputs. */
  lemma DivergenceExamples()
    ensures Diverging(MarketingNull, SegmentData(Str("a"), Str("b"), Str("c")))
    ensures !Diverging(
      MarketingObject(map[UtmSourceKey := Str("a"), UtmCampaignKey := Str("b"), UtmiCampaignKey := Str("c")]),
      SegmentData(Str("a"), Str("b"), Str("c")))
    ensures Diverging(MarketingObject(map[UtmSourceKey := Str("a")]), SegmentData(Str("a"), Str("b"), Str("c")))
    ensures !Diverging(MarketingUndefined, SegmentData(Null, Null, Null))
    ensures !Diverging(MarketingNull, SegmentData(Null, Null, Null))
    ensures Diverging(MarketingObject(map[UtmSourceKey := Str("")]), SegmentData(Null, Null, Null))
  {
  }
}
