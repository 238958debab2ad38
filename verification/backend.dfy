/** The collaborators' side of the checkout resolvers: the shapes of what the
    checkout backend and the session return, and the calls the resolvers
    issue to them. */
module Backend {
  import opened JsValues
  import opened Outcomes

  /** The `marketingData` property of a fetched order form: it may be
      missing, `null`, or an object. */
  datatype Marketing =
    | MarketingUndefined
    | MarketingNull
    | MarketingObject(fields: Record)

  /** An order form as the checkout backend returns it. Prices inside
      `items` and the total `value` are scaled integers (cents). */
  datatype OrderForm = OrderForm(
    orderFormId: JsValue,
    items: seq<Record>,
    value: real,
    marketingData: Marketing)

  /** The session's attribution data; the wire names are `utm_source`,
      `utm_campaign` and `utmi_campaign`. Each may be any value, including
      `undefined` when the session has not tracked it. */
  datatype SegmentData = SegmentData(
    utmSource: JsValue,
    utmCampaign: JsValue,
    utmiCampaign: JsValue)

  /** One call issued to a collaborator, with its arguments. */
  datatype Call =
    | FetchOrderForm
    | FetchSegmentData
    | FetchOrders
    | Shipping(simulation: JsValue)
    | AddItem(orderFormId: JsValue, items: JsValue)
    | UpdateOrderFormMarketingData(orderFormId: JsValue, marketingData: Record)
    | CancelOrder(orderFormId: JsValue, reason: JsValue)
    | SetOrderFormCustomData(orderFormId: JsValue, appId: JsValue, field: JsValue, value: JsValue)
    | UpdateItems(orderFormId: JsValue, items: JsValue)
    | UpdateOrderFormIgnoreProfile(orderFormId: JsValue, ignoreProfileData: JsValue)
    | UpdateOrderFormPayment(orderFormId: JsValue, payments: JsValue)
    | UpdateOrderFormProfile(orderFormId: JsValue, fields: JsValue)
  {
    /** The collaborator operation's own name. */
    function Name(): string
    {
      match this
      case FetchOrderForm => "orderForm"
      case FetchSegmentData => "getSegmentData"
      case FetchOrders => "orders"
      case Shipping(_) => "shipping"
      case AddItem(_, _) => "addItem"
      case UpdateOrderFormMarketingData(_, _) => "updateOrderFormMarketingData"
      case CancelOrder(_, _) => "cancelOrder"
      case SetOrderFormCustomData(_, _, _, _) => "setOrderFormCustomData"
      case UpdateItems(_, _) => "updateItems"
      case UpdateOrderFormIgnoreProfile(_, _) => "updateOrderFormIgnoreProfile"
      case UpdateOrderFormPayment(_, _) => "updateOrderFormPayment"
      case UpdateOrderFormProfile(_, _) => "updateOrderFormProfile"
    }

    /** Calls that change an order form; the others only read. */
    predicate Mutates()
    {
      !(FetchOrderForm? || FetchSegmentData? || FetchOrders? || Shipping?)
    }
  }

  /** What one resolver invocation does: the calls it issues, in issue
      order, and what it settles with. */
  datatype Run = Run(calls: seq<Call>, result: Result<JsValue>)
}
