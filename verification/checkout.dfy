/** The checkout query and mutation resolvers: the `addItem` orchestration,
    which reconciles attribution before adding items, and the resolvers that
    forward one call to the checkout backend. */
module Checkout {
  import opened JsValues
  import opened Outcomes
  import opened Backend
  import opened Attribution

  /** The calls `addItem` always issues first: `Promise.all` starts
      `checkout.orderForm()` and then `session.getSegmentData()`. */
  const Fetches: seq<Call> := [FetchOrderForm, FetchSegmentData]

  /** The join of the two concurrent fetches. It succeeds only when both
      succeed, and otherwise fails with one of the rejections: when both
      reject, the one that settles first wins, which the scheduler decides
      and `orderFormRejectsFirst` stands for. */
  function JoinFetches(
    orderForm: Result<OrderForm>,
    segment: Result<SegmentData>,
    orderFormRejectsFirst: bool
  ): (r: Result<(OrderForm, SegmentData)>)
    ensures r.Ok? <==> orderForm.Ok? && segment.Ok?
    ensures r.Ok? ==> r.value == (orderForm.value, segment.value)
    ensures r.Err? ==> (orderForm.Err? && r.error == orderForm.error) || (segment.Err? && r.error == segment.error)
    ensures orderForm.Err? && segment.Ok? ==> r == Err(orderForm.error)
    ensures orderForm.Ok? && segment.Err? ==> r == Err(segment.error)
  {
    match (orderForm, segment)
    case (Ok(o), Ok(s)) => Ok((o, s))
    case (Err(e), Ok(_)) => Err(e)
    case (Ok(_), Err(e)) => Err(e)
    case (Err(e1), Err(e2)) => if orderFormRejectsFirst then Err(e1) else Err(e2)
  }

  /** The `addItem` mutation. `orderForm` and `segment` are what the two
      fetches settle with; `updateReply` and `addItemReply` are what the
      backend answers to the marketing-data update and to the item add. */
  function AddItemResolver(
    orderFormId: JsValue,
    items: JsValue,
    orderForm: Result<OrderForm>,
    segment: Result<SegmentData>,
    orderFormRejectsFirst: bool,
    updateReply: Result<JsValue>,
    addItemReply: Result<JsValue>
  ): (run: Run)
    ensures |run.calls| >= 2 && run.calls[..2] == Fetches
    // a failed fetch fails the mutation before anything is changed
    ensures orderForm.Err? || segment.Err? ==>
      && run.calls == Fetches
      && run.result.Err?
      && ((orderForm.Err? && run.result.error == orderForm.error) || (segment.Err? && run.result.error == segment.error))
    // no divergence: the only mutation is the item add, with the caller's arguments
    ensures orderForm.Ok? && segment.Ok? && !Diverging(orderForm.value.marketingData, segment.value) ==>
      && run.calls == Fetches + [AddItem(orderFormId, items)]
      && run.result == addItemReply
    // divergence: the merged record is persisted first, and only then are items added
    ensures orderForm.Ok? && segment.Ok? && Diverging(orderForm.value.marketingData, segment.value) ==>
      var update := UpdateOrderFormMarketingData(orderFormId, Merge(orderForm.value.marketingData, segment.value));
      && (updateReply.Ok? ==> run.calls == Fetches + [update, AddItem(orderFormId, items)] && run.result == addItemReply)
      && (updateReply.Err? ==> run.calls == Fetches + [update] && run.result == updateReply)
  {
    match JoinFetches(orderForm, segment, orderFormRejectsFirst)
    case Err(e) => Run(Fetches, Err(e))
    case Ok((fetched, seg)) =>
      var add := AddItem(orderFormId, items);
      if Diverging(fetched.marketingData, seg) then
        var update := UpdateOrderFormMarketingData(orderFormId, Merge(fetched.marketingData, seg));
        match updateReply
        case Err(e) => Run(Fetches + [update], Err(e))
        case Ok(_) => Run(Fetches + [update, add], addItemReply)
      else
        Run(Fetches + [add], addItemReply)
  }

  /** Number of calls in `calls` that change an order form. */
  function MutationCount(calls: seq<Call>): (n: nat)
    ensures n == 0 <==> forall i :: 0 <= i < |calls| ==> !calls[i].Mutates()
  {
    if calls == [] then 0
    else (if calls[0].Mutates() then 1 else 0) + MutationCount(calls[1..])
  }

  /** Counting mutations distributes over concatenation. */
  lemma {:induction false} MutationCountAppend(a: seq<Call>, b: seq<Call>)
    ensures MutationCount(a + b) == MutationCount(a) + MutationCount(b)
  {
    if a != [] {
      assert (a + b)[0] == a[0];
      assert (a + b)[1..] == a[1..] + b;
      MutationCountAppend(a[1..], b);
    } else {
      assert a + b == b;
    }
  }

  /** Across every outcome of `addItem`: at most two mutations, and none
      exactly when a fetch failed; an
      `addItem` call, if any, is the last call and uses the caller's
      arguments; every marketing-data update precedes it and targets the
      caller's order form id, never the fetched one; and a successful
      mutation result is the backend's answer to that `addItem`. */
  lemma AddItemOrdering(
    orderFormId: JsValue, items: JsValue,
    orderForm: Result<OrderForm>, segment: Result<SegmentData>, orderFormRejectsFirst: bool,
    updateReply: Result<JsValue>, addItemReply: Result<JsValue>)
    ensures var run := AddItemResolver(orderFormId, items, orderForm, segment, orderFormRejectsFirst, updateReply, addItemReply);
      && MutationCount(run.calls) <= 2
      && (MutationCount(run.calls) == 0 <==> orderForm.Err? || segment.Err?)
      && (forall i :: 0 <= i < |run.calls| && run.calls[i].AddItem? ==>
            i == |run.calls| - 1 && run.calls[i] == AddItem(orderFormId, items))
      && (forall i, j ::
            (0 <= i < |run.calls| && 0 <= j < |run.calls| &&
             run.calls[i].UpdateOrderFormMarketingData? && run.calls[j].AddItem?) ==> i < j)
      && (forall i :: 0 <= i < |run.calls| && run.calls[i].UpdateOrderFormMarketingData? ==>
            run.calls[i].orderFormId == orderFormId)
      && (run.result.Ok? ==> run.calls[|run.calls| - 1] == AddItem(orderFormId, items) && run.result == addItemReply)
  {
    var run := AddItemResolver(orderFormId, items, orderForm, segment, orderFormRejectsFirst, updateReply, addItemReply);
    var rest := run.calls[2..];
    assert run.calls == Fetches + rest;
    MutationCountAppend(Fetches, rest);
    assert MutationCount(Fetches) == 0;
    assert |rest| <= 2 && forall i :: 0 <= i < |rest| ==> rest[i].Mutates();
    if |rest| == 2 {
      assert rest[1..][1..] == [];
    } else if |rest| == 1 {
      assert rest[1..] == [];
    }
  }

  /** A mutation is issued exactly when both fetches succeed; the
      marketing-data update is issued exactly when, in addition, the
      attribution diverges. */
  lemma AddItemUpdatesIffDiverging(
    orderFormId: JsValue, items: JsValue,
    orderForm: Result<OrderForm>, segment: Result<SegmentData>, orderFormRejectsFirst: bool,
    updateReply: Result<JsValue>, addItemReply: Result<JsValue>)
    ensures var run := AddItemResolver(orderFormId, items, orderForm, segment, orderFormRejectsFirst, updateReply, addItemReply);
      && ((exists i :: 0 <= i < |run.calls| && run.calls[i].Mutates()) <==> orderForm.Ok? && segment.Ok?)
      && ((exists i :: 0 <= i < |run.calls| && run.calls[i].UpdateOrderFormMarketingData?) <==>
            orderForm.Ok? && segment.Ok? && Diverging(orderForm.value.marketingData, segment.value))
  {
    var run := AddItemResolver(orderFormId, items, orderForm, segment, orderFormRejectsFirst, updateReply, addItemReply);
    if orderForm.Ok? && segment.Ok? {
      assert run.calls[2].Mutates();
      if Diverging(orderForm.value.marketingData, segment.value) {
        assert run.calls[2].UpdateOrderFormMarketingData?;
      }
    }
  }

  /** Only the fetched order form's marketing data matters: its id, items
      and value never reach the calls or the result. */
  lemma AddItemIgnoresFetchedOrderForm(
    orderFormId: JsValue, items: JsValue,
    a: OrderForm, b: OrderForm, segment: Result<SegmentData>, orderFormRejectsFirst: bool,
    updateReply: Result<JsValue>, addItemReply: Result<JsValue>)
    requires a.marketingData == b.marketingData
    ensures AddItemResolver(orderFormId, items, Ok(a), segment, orderFormRejectsFirst, updateReply, addItemReply)
         == AddItemResolver(orderFormId, items, Ok(b), segment, orderFormRejectsFirst, updateReply, addItemReply)
  {
  }

  /** After a successful diverging `addItem`, the marketing data it persisted
      no longer diverges from the session, unless the session left a tag
      `undefined`. */
  lemma AddItemPersistsSettledAttribution(
    orderFormId: JsValue, items: JsValue,
    orderForm: OrderForm, segment: SegmentData, orderFormRejectsFirst: bool,
    updateReply: Result<JsValue>, addItemReply: Result<JsValue>)
    requires Diverging(orderForm.marketingData, segment)
    ensures var run := AddItemResolver(orderFormId, items, Ok(orderForm), Ok(segment), orderFormRejectsFirst, updateReply, addItemReply);
      && run.calls[2].UpdateOrderFormMarketingData?
      && (!Diverging(MarketingObject(run.calls[2].marketingData), segment) <==> !HasUndefinedTag(segment))
  {
  }

  /** A schema operation served by forwarding to one backend call. */
  datatype Request =
    | OrderFormQuery
    | OrdersQuery
    | ShippingQuery(simulation: JsValue)
    | CancelOrderMutation(orderFormId: JsValue, reason: JsValue)
    | SetOrderFormCustomDataMutation(orderFormId: JsValue, appId: JsValue, field: JsValue, value: JsValue)
    | UpdateItemsMutation(orderFormId: JsValue, items: JsValue)
    | UpdateOrderFormIgnoreProfileMutation(orderFormId: JsValue, ignoreProfileData: JsValue)
    | UpdateOrderFormPaymentMutation(orderFormId: JsValue, payments: JsValue)
    | UpdateOrderFormProfileMutation(orderFormId: JsValue, fields: JsValue)
    | UpdateOrderFormShippingMutation(orderFormId: JsValue, address: JsValue)
  {
    /** The schema operation's name. */
    function Name(): string
    {
      match this
      case OrderFormQuery => "orderForm"
      case OrdersQuery => "orders"
      case ShippingQuery(_) => "shipping"
      case CancelOrderMutation(_, _) => "cancelOrder"
      case SetOrderFormCustomDataMutation(_, _, _, _) => "setOrderFormCustomData"
      case UpdateItemsMutation(_, _) => "updateItems"
      case UpdateOrderFormIgnoreProfileMutation(_, _) => "updateOrderFormIgnoreProfile"
      case UpdateOrderFormPaymentMutation(_, _) => "updateOrderFormPayment"
      case UpdateOrderFormProfileMutation(_, _) => "updateOrderFormProfile"
      case UpdateOrderFormShippingMutation(_, _) => "updateOrderFormShipping"
    }

    /** The arguments the schema operation receives, in order. */
    function Args(): seq<JsValue>
    {
      match this
      case OrderFormQuery => []
      case OrdersQuery => []
      case ShippingQuery(s) => [s]
      case CancelOrderMutation(id, reason) => [id, reason]
      case SetOrderFormCustomDataMutation(id, appId, field, value) => [id, appId, field, value]
      case UpdateItemsMutation(id, items) => [id, items]
      case UpdateOrderFormIgnoreProfileMutation(id, ignore) => [id, ignore]
      case UpdateOrderFormPaymentMutation(id, payments) => [id, payments]
      case UpdateOrderFormProfileMutation(id, fields) => [id, fields]
      case UpdateOrderFormShippingMutation(id, address) => [id, address]
    }
  }

  /** The arguments a forwarded backend call carries, in order. */
  function CallArgs(c: Call): seq<JsValue>
  {
    match c
    case FetchOrderForm => []
    case FetchSegmentData => []
    case FetchOrders => []
    case Shipping(s) => [s]
    case AddItem(id, items) => [id, items]
    case UpdateOrderFormMarketingData(id, _) => [id]
    case CancelOrder(id, reason) => [id, reason]
    case SetOrderFormCustomData(id, appId, field, value) => [id, appId, field, value]
    case UpdateItems(id, items) => [id, items]
    case UpdateOrderFormIgnoreProfile(id, ignore) => [id, ignore]
    case UpdateOrderFormPayment(id, payments) => [id, payments]
    case UpdateOrderFormProfile(id, fields) => [id, fields]
  }

  /** The backend call a forwarding resolver issues: the arguments pass
      through unchanged to the backend operation of the same name, except
      that `updateOrderFormShipping` is served by `updateOrderFormProfile`. */
  function Delegate(req: Request): (c: Call)
    ensures CallArgs(c) == req.Args()
    ensures !req.UpdateOrderFormShippingMutation? ==> c.Name() == req.Name()
    ensures req.UpdateOrderFormShippingMutation? ==> c.Name() == "updateOrderFormProfile"
    ensures c.Mutates() <==> !(req.OrderFormQuery? || req.OrdersQuery? || req.ShippingQuery?)
  {
    match req
    case OrderFormQuery => FetchOrderForm
    case OrdersQuery => FetchOrders
    case ShippingQuery(s) => Shipping(s)
    case CancelOrderMutation(id, reason) => CancelOrder(id, reason)
    case SetOrderFormCustomDataMutation(id, appId, field, value) => SetOrderFormCustomData(id, appId, field, value)
    case UpdateItemsMutation(id, items) => UpdateItems(id, items)
    case UpdateOrderFormIgnoreProfileMutation(id, ignore) => UpdateOrderFormIgnoreProfile(id, ignore)
    case UpdateOrderFormPaymentMutation(id, payments) => UpdateOrderFormPayment(id, payments)
    case UpdateOrderFormProfileMutation(id, fields) => UpdateOrderFormProfile(id, fields)
    case UpdateOrderFormShippingMutation(id, address) => UpdateOrderFormProfile(id, address)
  }

  /** A forwarding resolver: exactly one call, to the backend operation of
      the same name (the shipping alias excepted), and the backend's answer
      (or rejection) is the resolver's, untranslated. */
  function ForwardingResolver(req: Request, reply: Result<JsValue>): (run: Run)
    ensures |run.calls| == 1
    ensures CallArgs(run.calls[0]) == req.Args()
    ensures run.calls[0].Name() ==
      (if req.UpdateOrderFormShippingMutation? then "updateOrderFormProfile" else req.Name())
    ensures run.result == reply
  {
    Run([Delegate(req)], reply)
  }

  /** `updateOrderFormShipping` is indistinguishable from
      `updateOrderFormProfile` given the same value: the address is sent as
      the profile fields. */
  lemma ShippingAliasesProfile(orderFormId: JsValue, value: JsValue, reply: Result<JsValue>)
    ensures ForwardingResolver(UpdateOrderFormShippingMutation(orderFormId, value), reply)
         == ForwardingResolver(UpdateOrderFormProfileMutation(orderFormId, value), reply)
    ensures Delegate(UpdateOrderFormShippingMutation(orderFormId, value)) == UpdateOrderFormProfile(orderFormId, value)
  {
  }

  /** No two distinct forwarding requests issue the same call, except the
      shipping alias and the profile update it shares. */
  lemma DelegateInjectiveUpToAlias(a: Request, b: Request)
    requires Delegate(a) == Delegate(b)
    ensures a == b
      || (a.UpdateOrderFormShippingMutation? && b == UpdateOrderFormProfileMutation(a.orderFormId, a.address))
      || (b.UpdateOrderFormShippingMutation? && a == UpdateOrderFormProfileMutation(b.orderFormId, b.address))
  {
  }
}
