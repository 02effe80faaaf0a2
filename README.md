# Restaurant order creation, in Dafny

This project models the order-creation rule of the restaurant service's
`POST /orders` handler (`app.js`). Given a request body, the rule:

- reads only the `order`, `payment` and `recension` keys;
- computes `total` as a left-to-right reduction of `price * quantity` over
  the items, starting from 0, when `order` is an array;
- runs three checks in a fixed order, each with its own HTTP 400 message:
  items present and non-empty, total is a number, payment is exactly
  `"cash"` or `"card"`;
- if all pass, builds the Order to store from the submitted items, the
  computed total, the payment method, and the review text (`recension`),
  which defaults to the empty string.

`Wrappers.dfy` holds `Option` and `Result`. `Orders.dfy` holds the module
`Orders`: the request and record datatypes, the reference total `Sum`, the
source's reduction `Reduce`, the rule `CreateOrder`, and lemmas about them.
The rule is a pure function from a typed request to
`Result<OrderRecord, ValidationError>`. The rejection side of the result
carries only the error, so a rejected request produces no record.

A request's `order` is `Missing` (absent or falsy), `NotArray` (truthy but
not an array) or `Items(s)`. `payment` and `recension` are `Option<string>`.
For `payment`, `None` stands for an absent key, `null` or any non-string
value; the payment check rejects all of these alike. For `recension`, `None`
stands for an absent key or a falsy value (`null`, `false`, `0`). A string is
truthy exactly when it is non-empty, as in JavaScript.

## Model

| member | source | states |
|---|---|---|
| `Orders.Reduce` | app.js:198-200 | The reduction from a start value, left to right, adds exactly the reference sum of `price * quantity` over the items to that start value. |
| `Orders.SumAppend` | app.js:198-200 | The total of two item lists put end to end is the sum of their totals. |
| `Orders.ComputedTotal` | app.js:198-201 | `total` is always a number. It is the sum of `price * quantity` when `order` is an array, and 0 otherwise. |
| `Orders.StoredRecension` | app.js:225 | The stored review text is empty exactly when the submitted `recension` is absent or empty. When the stored text is non-empty, it is the submitted string. |
| `Orders.CreateOrder` | app.js:195-226 | A record is built iff `order` is a non-empty array and `payment` is exactly `"cash"` or `"card"`. A missing, non-array or empty `order` is rejected for its items whatever the payment. Valid items with any other payment, a missing one included, are rejected for the payment. An accepted record holds the submitted items unchanged and in order, their sum of `price * quantity`, `payment` as its payment method, and the defaulted review text. |
| `Orders.AcceptedOrderWellFormed` | app.js:207-226 | Every built record has at least one item and a payment method of `"cash"` or `"card"`, and its total is the sum over its own items. |
| `Orders.TotalCheckUnreachable` | app.js:211-214 | The "Valid total is required." rejection never occurs. |
| `Orders.OnlyThreeKeysRead` | app.js:195 | Two requests that agree on `order`, `payment` and `recension` get the same outcome, so a client-supplied `total` plays no part. |
| `Orders.EmptyOrderRejectedBeforePayment` | app.js:207-218 | An empty order paid with `"bitcoin"` is rejected with the items error, not the payment error. |
| `Orders.MessagesDistinct` | app.js:207-218 | The three rejections carry three different messages. |
| `Orders.TeaOrderScenario` | app.js:198-226 | Two teas at price 3, paid in cash with no review, are stored with total 6, payment method `"cash"` and an empty review. |
| `Orders.TotalOfConcatenation` | app.js:198-201 | The stored total of an accepted order whose items are `a + b` is the total of `a` plus the total of `b`. |

## Left out

- Number semantics: `price`, `quantity` and `total` are IEEE doubles in the source. The model uses unbounded integers (for example minor currency units), so rounding, overflow to infinity and `NaN` are not modelled.
- JavaScript coercions of malformed items are not modelled: numeric strings multiplied as numbers, missing fields giving `NaN`, and `null` array elements that throw before validation. Items are typed.
- A truthy non-string `recension` (a number, say) cannot be represented: the source passes it on by `recension || ''` and the document store casts it to a string, but the model's `recension` is an optional string.
- The `save` call, its HTTP 201 response and its HTTP 500 path are left out because they are persistence I/O against an external store. The `createdAt` default is left out because it reads the wall clock. The store-assigned identifier is left out as well.
- `GET /orders`, all `/users` routes, the static page and the server setup are left out. Each hands its work directly to the web framework or the document store, whose behaviour is not visible here.
- Logging calls are left out because they have no effect on the outcome.
