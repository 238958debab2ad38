# Checkout resolvers: attribution reconciliation and price normalization

This project models the checkout resolver module of a storefront GraphQL
layer that sits in front of a commerce backend's order-form (cart) API. It
models the three pieces of that module that carry logic:

- **The `OrderForm` field resolvers.** `cacheId` is the order form's own
  `orderFormId`. The backend sends prices and totals as scaled integers
  (cents), and `items` (each item's `price`, `listPrice` and `sellingPrice`
  rescaled, everything else kept) and `value` expose them as decimals.
  Module `OrderFormFields`.
- **Attribution reconciliation.** `divergingUTMs` compares the order form's
  `utmSource` / `utmCampaign` / `utmiCampaign` with the session's
  `utm_source` / `utm_campaign` / `utmi_campaign`. The comparison uses strict
  equality, after defaulting missing order tags to `null`. When they diverge,
  the new marketing data is a shallow overlay in which the session's three
  tags win and every other key is kept. Module `Attribution`.
- **The `addItem` orchestration and the forwarding resolvers.** `addItem`
  fetches the order form and the session data concurrently. It persists the
  merged marketing data only if the two diverge, and then adds the items.
  The forwarding resolvers pass their arguments to one checkout backend call. One of
  them, `updateOrderFormShipping`, is served by `updateOrderFormProfile`.
  Module `Checkout`.

JavaScript values are modelled by `JsValues.JsValue`:
`Undefined | Null | Bool | Num | Str | Ref`. Objects are represented only by
their identity, since `===` compares them by reference. Plain objects are
`map<string, JsValue>`. Two language rules matter here:

- A destructuring default `= null` replaces only `undefined`.
- A spread overlay writes the session's tag even when that tag is
  `undefined`.

Resolvers are pure functions. An invocation returns a `Run`: the collaborator
calls it issues, in issue order, and the value or rejection it settles with.
Everything the collaborators answer is a parameter:

- the two fetch results;
- which rejection settles first when both fetches fail;
- the backend's replies to the marketing-data update and to the item add.

Two details of the code shape the model:

- Only `undefined` is replaced by `null` when the order's tags are read. A
  session tag that is `undefined` therefore still diverges after the merge
  (`Attribution.MergeSettlesDivergence`).
- `convertIntToFloat` computes `int * 0.01` in doubles. The model uses exact
  multiplication by `0.01` on reals (see Left out).

The `cacheId` field resolver is a one-field projection: an order form is
cached under its own `orderFormId` (`OrderFormFields.CacheId`).

`updateOrderFormShipping` sending the address as profile fields may be an
unintended copy. The model reproduces it as written
(`Checkout.ShippingAliasesProfile`).

## Model

| member | source | states |
|---|---|---|
| JsValues.StrictEqualsIsIdentity | node/resolvers/checkout/index.ts:28-30 | `!==` between modelled values holds exactly when the values differ, so `null` and `undefined` are distinct and nothing is normalized |
| JsValues.DefaultNull | node/resolvers/checkout/index.ts:25 | the `= null` default replaces exactly `undefined`; the bound value is never `undefined` and any other value is kept |
| Attribution.OrderTag | node/resolvers/checkout/index.ts:25 | an order tag is the record's value when that reads as defined, and `null` when the key is absent or holds `undefined` |
| Attribution.Diverging | node/resolvers/checkout/index.ts:24-31 | `divergingUTMs` is false exactly when the three null-defaulted order tags equal the session's three tags field for field |
| Attribution.AbsentMarketingDiverges | node/resolvers/checkout/index.ts:25-30 | a missing or null order record diverges exactly when some session tag is not `null`, an `undefined` one included |
| Attribution.UndefinedSessionTagDiverges | node/resolvers/checkout/index.ts:25-30 | a session tag that is `undefined` makes every order record diverge |
| Attribution.DivergenceExamples | node/resolvers/checkout/index.ts:24-31 | divergence on concrete inputs: a null record vs `a,b,c` diverges; equal tags do not; a record with only `utmSource` diverges; null session tags vs a missing or a null record agree; `""` is not `null` |
| Attribution.Merge | node/resolvers/checkout/index.ts:77-82 | the overlay's keys are the prior keys plus the three tracked ones; the tracked ones hold the session's values, and every other prior key keeps its value |
| Attribution.MergeOfAbsentHasOnlyTrackedKeys | node/resolvers/checkout/index.ts:78 | a missing or null prior record contributes no keys to the overlay |
| Attribution.MergeSettlesDivergence | node/resolvers/checkout/index.ts:24-82 | re-checking the overlay against the same session reports no divergence exactly when no session tag is `undefined` |
| Attribution.MergeIdempotent | node/resolvers/checkout/index.ts:77-82 | overlaying the same session twice gives the same record as once |
| Attribution.AgreeingMergeKeepsDefinedTags | node/resolvers/checkout/index.ts:76-82 | when the record already agrees with the session, the overlay leaves every defined tracked tag as it was |
| OrderFormFields.ConvertIntToFloat | node/resolvers/checkout/index.ts:22 | the decimal value times 100 is the backend's scaled value |
| OrderFormFields.ConvertRoundTrip | node/resolvers/checkout/index.ts:9-22 | in exact arithmetic, converting to decimal and scaling back, or the other way round, returns the original value |
| OrderFormFields.ConvertNotIdempotent | node/resolvers/checkout/index.ts:22 | converting twice agrees with converting once only for zero, so the conversion must be applied exactly once |
| OrderFormFields.NormalizeItem | node/resolvers/checkout/index.ts:42-47 | a converted item has the same keys and the same non-price values, and each of its three prices times 100 is the original price |
| OrderFormFields.NormalizeItems | node/resolvers/checkout/index.ts:41-47 | the mapped item list has the input's length and order, with each element the converted input element |
| OrderFormFields.ItemRoundTrip | node/resolvers/checkout/index.ts:42-47 | in exact arithmetic, scaling a converted item's prices back gives the backend item |
| OrderFormFields.ItemsRoundTrip | node/resolvers/checkout/index.ts:41-47 | in exact arithmetic, scaling the converted item list back gives the backend item list |
| OrderFormFields.Items | node/resolvers/checkout/index.ts:41-48 | the `items` field has the same length, keys and non-price values, and each price is `convertIntToFloat` of the original |
| OrderFormFields.Value | node/resolvers/checkout/index.ts:49-51 | the `value` field times 100 is the backend total |
| Checkout.JoinFetches | node/resolvers/checkout/index.ts:71-74 | the joined fetch succeeds exactly when both fetches do, with both values; otherwise it fails with one of the rejections, the only one when just one fetch failed |
| Checkout.AddItemResolver | node/resolvers/checkout/index.ts:70-87 | both fetches are issued first. A failed fetch fails the mutation with no mutation issued. With no divergence, the only mutation is `addItem` with the caller's arguments, and its reply is the result. With divergence, `updateOrderFormMarketingData` with the merged record comes first, and a rejected update stops before `addItem` |
| Checkout.AddItemOrdering | node/resolvers/checkout/index.ts:76-86 | on every path there are at most two mutations, and none exactly when a fetch failed. `addItem` is the last call, with the caller's arguments. Every marketing update precedes it and targets the caller's id. A successful result is `addItem`'s reply |
| Checkout.AddItemUpdatesIffDiverging | node/resolvers/checkout/index.ts:71-84 | some mutation is issued exactly when both fetches succeed, and the marketing update exactly when they also diverge |
| Checkout.AddItemIgnoresFetchedOrderForm | node/resolvers/checkout/index.ts:70-86 | fetched order forms that agree on marketing data yield identical runs, so the fetched id, items and value are never used |
| Checkout.AddItemPersistsSettledAttribution | node/resolvers/checkout/index.ts:76-83 | on divergence, the persisted record no longer diverges from the session exactly when the session has no `undefined` tag |
| Checkout.Delegate | node/resolvers/checkout/index.ts:56-133 | a forwarding resolver passes its arguments unchanged to the backend operation of the same name, except `updateOrderFormShipping`, which goes to `updateOrderFormProfile`; only the three queries are read-only |
| Checkout.ForwardingResolver | node/resolvers/checkout/index.ts:91-133 | a forwarding resolver issues exactly one call, to the backend operation of the same name (`updateOrderFormProfile` for the shipping alias), carrying its arguments, and settles with the backend's answer untranslated |
| Checkout.ShippingAliasesProfile | node/resolvers/checkout/index.ts:127-133 | `updateOrderFormShipping` with `address` runs exactly as `updateOrderFormProfile` with the same value as `fields` |
| Checkout.DelegateInjectiveUpToAlias | node/resolvers/checkout/index.ts:127-133 | two forwarding requests issue the same call only if they are equal, or are the shipping alias and the matching profile update |

## Left out

- OrderFormFields.ConvertIntToFloat: multiplication by `0.01` is exact on reals here. IEEE-754 double rounding of `int * 0.01` is not modelled, so no bit-exact result is claimed.
- OrderFormFields.NormalizeItem: requires the three price properties to hold numbers, as the backend sends them. A missing or non-numeric price would give `NaN` (or a coerced number) in JavaScript; that case is not modelled.
- OrderFormFields.Value: the order total is a number. A missing or non-numeric `value` (`undefined * 0.01` is `NaN`, `null * 0.01` is `0`) is not modelled.
- OrderFormFields.Items: same restriction as `OrderFormFields.NormalizeItem`, for every item of the order form.
- NaN is not a modelled value. `NaN !== NaN` would be the one exception to `JsValues.StrictEqualsIsIdentity`.
- `Promise.all` concurrency: the two fetches are inputs that have already settled. When both reject, which rejection wins is a parameter. Interleaving is not modelled.
- A fetched order form or session result that is `null` itself (a `TypeError` when it is destructured) is not modelled: fetch results are records.
- Property getters, prototype properties and key order of objects are not modelled; a record is its own enumerable properties.
- `addOrderFormPaymentToken` (`paymentTokenResolver`), `createPaymentSession` and `createPaymentTokens` (`httpResolver`), `headers`, `withAuthToken` and `paths`: declarative HTTP plumbing over code that is not part of this model.
- The profile field resolvers (`node/resolvers/profile/fieldResolvers.ts`): property lookups, date formatting and calls into profile services that are not part of this model.
