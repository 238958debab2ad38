/** The `OrderForm` field resolvers: the cache key `cacheId`, and the unit
    change, in `items` and `value`, from the backend's scaled-integer prices
    (cents) to the decimal prices the schema exposes. */
module OrderFormFields {
  import opened JsValues
  import opened Backend

  const PriceKey: string := "price"
  const ListPriceKey: string := "listPrice"
  const SellingPriceKey: string := "sellingPrice"

  /** The three item keys that are rescaled. */
  const PriceKeys: set<string> := {PriceKey, ListPriceKey, SellingPriceKey}

  /** `convertIntToFloat`: moves the decimal point two places left. The
      source multiplies by the double `0.01`; here the product is exact, so
      IEEE rounding is abstracted away. */
  function ConvertIntToFloat(n: real): (r: real)
    ensures r * 100.0 == n
  {
    n * 0.01
  }

  /** The backend's representation of a decimal amount: its inverse. */
  function ConvertFloatToInt(x: real): (r: real)
    ensures r * 0.01 == x
  {
    x * 100.0
  }

  /** Scaling back recovers the backend value, and converting a decimal
      again does too: the two are mutually inverse. */
  lemma ConvertRoundTrip(n: real)
    ensures ConvertFloatToInt(ConvertIntToFloat(n)) == n
    ensures ConvertIntToFloat(ConvertFloatToInt(n)) == n
  {
  }

  /** The conversion must be applied exactly once: applying it twice agrees
      with applying it once only on zero. */
  lemma ConvertNotIdempotent(n: real)
    ensures ConvertIntToFloat(ConvertIntToFloat(n)) == ConvertIntToFloat(n) <==> n == 0.0
  {
  }

  /** An item whose three price properties hold numbers, as the backend
      sends them. */
  predicate Priced(item: Record)
  {
    && PriceKey in item && item[PriceKey].Num?
    && ListPriceKey in item && item[ListPriceKey].Num?
    && SellingPriceKey in item && item[SellingPriceKey].Num?
  }

  predicate AllPriced(items: seq<Record>)
  {
    forall i :: 0 <= i < |items| ==> Priced(items[i])
  }

  /** One item of the `items` resolver: `{...item, price, listPrice,
      sellingPrice}` with the three prices converted. */
  function NormalizeItem(item: Record): (r: Record)
    requires Priced(item)
    ensures r.Keys == item.Keys
    ensures forall k :: k in item && k !in PriceKeys ==> r[k] == item[k]
    ensures Priced(r)
    ensures r[PriceKey].n * 100.0 == item[PriceKey].n
    ensures r[ListPriceKey].n * 100.0 == item[ListPriceKey].n
    ensures r[SellingPriceKey].n * 100.0 == item[SellingPriceKey].n
  {
    item + map[
      PriceKey := Num(ConvertIntToFloat(item[PriceKey].n)),
      ListPriceKey := Num(ConvertIntToFloat(item[ListPriceKey].n)),
      SellingPriceKey := Num(ConvertIntToFloat(item[SellingPriceKey].n))]
  }

  /** The `items` resolver maps over the order form's items, one output per
      input, in the same order. */
  function NormalizeItems(items: seq<Record>): (r: seq<Record>)
    requires AllPriced(items)
    ensures |r| == |items|
    ensures AllPriced(r)
    ensures forall i :: 0 <= i < |items| ==> r[i] == NormalizeItem(items[i])
  {
    if items == [] then []
    else [NormalizeItem(items[0])] + NormalizeItems(items[1..])
  }

  /** The backend view of a schema item: the three prices scaled back. */
  function DenormalizeItem(item: Record): (r: Record)
    requires Priced(item)
    ensures r.Keys == item.Keys
    ensures forall k :: k in item && k !in PriceKeys ==> r[k] == item[k]
    ensures Priced(r)
    ensures r[PriceKey].n * 0.01 == item[PriceKey].n
    ensures r[ListPriceKey].n * 0.01 == item[ListPriceKey].n
    ensures r[SellingPriceKey].n * 0.01 == item[SellingPriceKey].n
  {
    item + map[
      PriceKey := Num(ConvertFloatToInt(item[PriceKey].n)),
      ListPriceKey := Num(ConvertFloatToInt(item[ListPriceKey].n)),
      SellingPriceKey := Num(ConvertFloatToInt(item[SellingPriceKey].n))]
  }

  function DenormalizeItems(items: seq<Record>): (r: seq<Record>)
    requires AllPriced(items)
    ensures |r| == |items|
    ensures forall i :: 0 <= i < |items| ==> r[i] == DenormalizeItem(items[i])
  {
    if items == [] then []
    else [DenormalizeItem(items[0])] + DenormalizeItems(items[1..])
  }

  /** Normalizing an item loses nothing: scaling its prices back gives the
      backend item. */
  lemma ItemRoundTrip(item: Record)
    requires Priced(item)
    ensures DenormalizeItem(NormalizeItem(item)) == item
  {
  }

  /** The `items` resolver loses nothing either, item by item. */
  lemma {:induction false} ItemsRoundTrip(items: seq<Record>)
    requires AllPriced(items)
    ensures DenormalizeItems(NormalizeItems(items)) == items
  {
    if items != [] {
      ItemsRoundTrip(items[1..]);
      ItemRoundTrip(items[0]);
      assert NormalizeItems(items)[1..] == NormalizeItems(items[1..]);
    }
  }

  /** `cacheId`: the order form is cached under its own `orderFormId`. */
  function CacheId(orderForm: OrderForm): JsValue
  {
    orderForm.orderFormId
  }

  /** `items`: the order form's items with prices in decimal units. */
  function Items(orderForm: OrderForm): (r: seq<Record>)
    requires AllPriced(orderForm.items)
    ensures |r| == |orderForm.items|
    ensures forall i :: 0 <= i < |r| ==> r[i].Keys == orderForm.items[i].Keys
    ensures forall i, k :: 0 <= i < |r| && k in r[i] && k !in PriceKeys ==> r[i][k] == orderForm.items[i][k]
    ensures forall i, k :: 0 <= i < |r| && k in PriceKeys ==> r[i][k] == Num(ConvertIntToFloat(orderForm.items[i][k].n))
  {
    NormalizeItems(orderForm.items)
  }

  /** `value`: the order total in decimal units. */
  function Value(orderForm: OrderForm): (r: real)
    ensures r * 100.0 == orderForm.value
  {
    ConvertIntToFloat(orderForm.value)
  }
}
