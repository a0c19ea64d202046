# Food dashboard: list bookkeeping

A model of the Dashboard page of a restaurant-menu admin app
(`src/pages/Dashboard/index.tsx`). The page keeps four pieces of state: the
list of foods on screen, the food selected for editing, and whether the add
modal and the edit modal are open. After a remote call, its handlers append
the created food, replace updated entries by id, or filter out the deleted id.
`handleEditFood` records the selected food and opens the edit modal. The two
toggles flip one modal flag each.

- `foods.dfy` (module `Foods`): the `Food` record and the form's `FoodInput`.
  It also defines `Reply<T>`, the service's answer (`Answered(data)` or
  `Failed`), and `Settled`, how a handler ends. A handler can resolve
  normally. It can catch an error and log it (`Caught`). It can let the
  error escape to its caller (`Thrown`). Or it can resolve while a promise
  chain it started, and neither awaits nor returns, rejects with nobody to
  handle it (`Unhandled`).
- `payloads.dfy` (module `Payloads`): the request bodies. A JavaScript object
  is a `map<string, JsValue>`, and the spread `{...a, ...b}` is map union in
  which `b` wins. The create body and the update body are built exactly as the
  page builds them. Lemmas relate them to the typed records.
- `food_list.dfy` (module `FoodList`): the list transforms `Append`,
  `ReplaceById` (the page's `map`) and `RemoveById` (its `filter`). Lemmas
  cover length, order, counts, absent ids, idempotence and add-then-delete.
- `dashboard.dfy` (module `DashboardPage`): class `Dashboard` holds the four
  state fields. Each handler is a method that takes the service's reply as a
  parameter. Client methods work through an add, an update without a
  selection, an update and a delete on a two-dish menu.

Points where the code may surprise a reader:
- The code never enforces unique ids. `map` and `filter` act on every entry
  with the matching id, so `ReplaceById` and `RemoveById` do too.
- `handleUpdateFood` catches and logs both of its errors: the missing
  selection and the network failure. Neither escapes.
- The update handler matches entries on the id of the record the server
  returns. It sends the request to the edited food's id.
- Closing the modal after a submit is done by the modal components, not by
  the handlers. So no handler here changes a modal flag, except the toggles
  and `handleEditFood`.

## Model

| member | source | states |
|---|---|---|
| `DashboardPage.Dashboard.constructor` | src/pages/Dashboard/index.tsx:17-20 | The page starts with no foods, no selection and both modals closed. |
| `DashboardPage.Dashboard.LoadFoods` | src/pages/Dashboard/index.tsx:22-29 | A successful listing replaces the whole list. A rejected one leaves every field as it was. The listing chain is neither awaited nor returned and has no rejection handler, so the loader itself resolves and the rejection goes unhandled (`Unhandled`), never reaching the loader's caller. |
| `DashboardPage.Dashboard.HandleAddFood` | src/pages/Dashboard/index.tsx:31-42 | Sends the form with `available: true`. On success the list is the old list followed by the returned record. On failure the error is caught and the list is unchanged. The selection and both flags never change. |
| `DashboardPage.Dashboard.HandleUpdateFood` | src/pages/Dashboard/index.tsx:44-63 | With no selection: no request is built, the error is caught, and nothing changes. Otherwise the request targets the selection's id and carries the merged record. On success every entry with the returned id becomes the returned record. On failure the list is unchanged. The selection and the flags never change. |
| `DashboardPage.Dashboard.HandleDeleteFood` | src/pages/Dashboard/index.tsx:65-71 | On success the list is filtered on the id. On failure the error escapes the handler and nothing changes. |
| `DashboardPage.Dashboard.ToggleModal` | src/pages/Dashboard/index.tsx:73-75 | Negates the add-modal flag and changes nothing else. |
| `DashboardPage.Dashboard.ToggleEditModal` | src/pages/Dashboard/index.tsx:77-79 | Negates the edit-modal flag and changes nothing else, so the selection stays. |
| `DashboardPage.Dashboard.HandleEditFood` | src/pages/Dashboard/index.tsx:81-84 | Selects the given food, replacing any earlier selection, and opens the edit modal. The list and the add modal are unchanged. |
| `DashboardPage.ToggleModalTwice` | src/pages/Dashboard/index.tsx:73-75 | Toggling the add modal twice restores its flag, and the other three fields never change. |
| `DashboardPage.ToggleEditModalTwice` | src/pages/Dashboard/index.tsx:77-79 | Toggling the edit modal twice restores its flag, and the other three fields, the selection included, never change. |
| `DashboardPage.AddThenDeleteRestores` | src/pages/Dashboard/index.tsx:31-71 | A successful add of a record with an id not on the page, then a successful delete of that id, restores the page's list. |
| `Payloads.Spread` | src/pages/Dashboard/index.tsx:52 | Object spread: the result has the keys of both objects. The right-hand value wins on a shared key, and the left-hand value is kept elsewhere. |
| `Payloads.WithAvailable` | src/pages/Dashboard/index.tsx:33-36 | `{...form, available: true}` has `available` equal to true, whatever the form object holds. Every other key of the form is copied unchanged. |
| `Payloads.CreateBody` | src/pages/Dashboard/index.tsx:33-36 | The create body has exactly the form's four fields, unchanged, plus `available: true`. It has no `id`. |
| `Payloads.UpdateRequestFor` | src/pages/Dashboard/index.tsx:50-53 | The update request targets the edited food's id. Its body reads back as the edited food with every form field overriding the old value, and with `id` and `available` kept. Its keys are exactly a food's keys. |
| `Payloads.InputObject` | src/pages/Dashboard/index.tsx:14 | The object a form submits has exactly the four keys of a food input: name, image, price and description. |
| `Payloads.FoodObject` | src/pages/Dashboard/index.tsx:52 | The object of a food, as spread into the update body, has exactly a food's six keys. |
| `Payloads.FoodOf` | src/pages/Dashboard/index.tsx:50-53 | Reading a food from an object succeeds exactly when the object carries some food's properties with their values, and then it yields that food. |
| `Payloads.FoodObjectRoundTrip` | src/pages/Dashboard/index.tsx:50-53 | Reading back the object of a food gives that food. |
| `Payloads.FoodObjectInjective` | src/pages/Dashboard/index.tsx:50-53 | Two foods with equal objects are equal, so a body determines the record it sends. |
| `FoodList.Append` | src/pages/Dashboard/index.tsx:38 | The result is one longer. Its prefix is the old list and its last entry is the created record. |
| `FoodList.ReplaceById` | src/pages/Dashboard/index.tsx:55-57 | Same length and order. Every position whose id matches becomes exactly the returned record, and every other position is unchanged. |
| `FoodList.ReplaceByIdAbsent` | src/pages/Dashboard/index.tsx:55-57 | If no entry carries the returned id, the list is unchanged. |
| `FoodList.ReplaceByIdIdempotent` | src/pages/Dashboard/index.tsx:55-57 | Applying the same update twice gives the same list as applying it once. |
| `FoodList.RemoveById` | src/pages/Dashboard/index.tsx:68 | The result is no longer than the input. A record is in the result exactly when it is in the input with a different id. |
| `FoodList.RemoveByIdCount` | src/pages/Dashboard/index.tsx:68 | Every record without the id keeps its number of occurrences. Every record with the id has none left. |
| `FoodList.RemoveByIdIsSubsequence` | src/pages/Dashboard/index.tsx:68 | The entries left keep their relative order: the result is a subsequence of the input. |
| `FoodList.RemoveByIdConcat` | src/pages/Dashboard/index.tsx:68 | Filtering a concatenation filters each part and keeps the parts in order. |
| `FoodList.RemoveByIdAbsent` | src/pages/Dashboard/index.tsx:68 | Deleting an id no entry carries gives an equal list. |
| `FoodList.RemoveByIdIdempotent` | src/pages/Dashboard/index.tsx:68 | Deleting the same id twice gives the same list as deleting it once. |
| `FoodList.AddThenDelete` | src/pages/Dashboard/index.tsx:38-70 | Appending a record with an id the list does not hold, then deleting that id, gives back the original list. |
| `FoodList.UpdateThenDelete` | src/pages/Dashboard/index.tsx:55-70 | Deleting an id after an update with that id gives the same list as deleting it outright. |

## Left out

- HTTP transport: the `api.get/post/put/delete` calls and their URLs go through an axios client that is not part of this model. Each call is a `Reply` parameter: the response data, or a rejection.
- Asynchrony: every handler runs atomically, from start to end. React's stale closures and races between overlapping handlers are not modelled.
- Logging: `console.log` is not modelled. A caught error is reported as the `Caught` outcome.
- The rendering: the JSX tree, `Header`, `Food`, `FoodsContainer` and styling.
- The modal components `ModalAddFood` and `ModalEditFood` are form wrappers. Their submit calls the handler without awaiting it and then toggles the modal, so a failed create still closes the add modal. That composition is not modelled.
- The `Food` type lives in `src/types`, which is not part of this model. `price` is taken to be a string, as the form submits it, and `id` is an unbounded integer rather than a JavaScript number.
- Object key order is not modelled: an object is a map from keys to values.
