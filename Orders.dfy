/** The order-creation rule of the restaurant service's `POST /orders` handler:
    which keys of the request body are read, how the order total is computed,
    the three validation checks in their fixed order, and the record that is
    built for storage when they all pass. */
module Orders {
  import opened Wrappers

  /** One line item of an order. The source's `quantity` and `price` are
      JavaScript numbers; here they are integers (minor currency units). */
  datatype Item = Item(productId: string, name: string, quantity: int, price: int)

  /** The `order` key of the request body. */
  datatype OrderField =
    | Missing                  // absent, or any falsy value (null, false, 0, "")
    | NotArray                 // present and truthy, but not an array
    | Items(items: seq<Item>)  // an array of line items (possibly empty)

  /** A request body. Only `order`, `payment` and `recension` are read by the
      handler; `clientTotal` stands for a `total` key a client may also send.
      For `payment`, `None` stands for an absent key, `null`, or any value that
      is not a string, all of which the payment check rejects. For `recension`,
      `None` stands for an absent key or a falsy value (`null`, `false`, `0`);
      a truthy value that is not a string has no counterpart here. */
  datatype Request = Request(
    order: OrderField,
    payment: Option<string>,
    recension: Option<string>,
    clientTotal: Option<int>)

  /** The JavaScript value held by the handler's `total` variable, as far as
      its `typeof total !== 'number'` check can tell. */
  datatype TotalValue = Number(value: int) | NotNumber

  /** The fields of the Order document handed to the store. The `createdAt`
      timestamp and the store-assigned identifier are not part of the model. */
  datatype OrderRecord = OrderRecord(
    orderItems: seq<Item>,
    total: int,
    paymentMethod: string,
    recension: string)

  /** The three rejections, in the order in which they are checked. */
  datatype ValidationError = ItemsRequired | TotalInvalid | PaymentInvalid

  const Cash := "cash"
  const Card := "card"

  /** The `message` field of the rejection's JSON body. */
  function Message(e: ValidationError): string
  {
    match e
    case ItemsRequired => "Order items are required."
    case TotalInvalid => "Valid total is required."
    case PaymentInvalid => "Payment method must be either cash or card."
  }

  /** JavaScript truthiness of an optional string: present and non-empty. */
  predicate Truthy(v: Option<string>)
  {
    v.Some? && v.value != ""
  }

  /** `order` is present, an array, and not empty. */
  predicate HasItems(order: OrderField)
  {
    order.Items? && |order.items| > 0
  }

  /** `payment` is exactly one of the two accepted methods. */
  predicate ValidPayment(payment: Option<string>)
  {
    payment == Some(Cash) || payment == Some(Card)
  }

  /** The amount one item contributes: its price times its quantity. */
  function LineAmount(item: Item): int
  {
    item.price * item.quantity
  }

  /** Reference definition of an order's total: the sum over its items of
      price times quantity, the empty order summing to 0. */
  function Sum(items: seq<Item>): int
  {
    if items == [] then 0 else LineAmount(items[0]) + Sum(items[1..])
  }

  /** The total of two orders put one after the other is the sum of their totals. */
  lemma {:induction false} SumAppend(a: seq<Item>, b: seq<Item>)
    ensures Sum(a + b) == Sum(a) + Sum(b)
  {
    if a == [] {
      assert a + b == b;
    } else {
      assert (a + b)[1..] == a[1..] + b;
      SumAppend(a[1..], b);
    }
  }

  /** `items.reduce((sum, item) => sum + item.price * item.quantity, acc)`:
      a left-to-right accumulation starting from `acc`. It adds exactly the
      reference total to its starting value. */
  function Reduce(acc: int, items: seq<Item>): (r: int)
    ensures r == acc + Sum(items)
    decreases |items|
  {
    if items == [] then acc else Reduce(acc + LineAmount(items[0]), items[1..])
  }

  /** The handler's `total`: the reduction from 0 over `order` when it is an
      array, and the initial 0 otherwise. It is always a number. */
  function ComputedTotal(order: OrderField): (t: TotalValue)
    ensures t.Number?
    ensures order.Items? ==> t.value == Sum(order.items)
    ensures !order.Items? ==> t.value == 0
  {
    if order.Items? then Number(Reduce(0, order.items)) else Number(0)
  }

  /** The stored review text, `recension || ''`: the submitted string when it
      is truthy, the empty string otherwise. */
  function StoredRecension(recension: Option<string>): (s: string)
    ensures s == "" <==> !Truthy(recension)
    ensures s != "" ==> recension == Some(s)
  {
    if Truthy(recension) then recension.value else ""
  }

  /** The `POST /orders` rule: validate the request and build the record to
      store, or return the first rejection. A rejected request yields no record. */
  function CreateOrder(req: Request): (r: Result<OrderRecord, ValidationError>)
    ensures r.Success? <==> HasItems(req.order) && ValidPayment(req.payment)
    ensures !HasItems(req.order) ==> r == Failure(ItemsRequired)
    ensures HasItems(req.order) && !ValidPayment(req.payment) ==> r == Failure(PaymentInvalid)
    ensures r.Success? ==>
      && r.value.orderItems == req.order.items
      && r.value.total == Sum(req.order.items)
      && r.value.paymentMethod == req.payment.value
      && r.value.recension == StoredRecension(req.recension)
  {
    var total := ComputedTotal(req.order);
    var orderItems := req.order;
    if !orderItems.Items? || |orderItems.items| == 0 then
      Failure(ItemsRequired)
    else if !total.Number? then
      Failure(TotalInvalid)
    else if !Truthy(req.payment) || (req.payment.value != Cash && req.payment.value != Card) then
      Failure(PaymentInvalid)
    else
      Success(OrderRecord(orderItems.items, total.value, req.payment.value, StoredRecension(req.recension)))
  }

  /** What every stored Order satisfies at creation: at least one item and
      one of the two accepted payment methods. */
  predicate WellFormed(rec: OrderRecord)
  {
    |rec.orderItems| > 0 && (rec.paymentMethod == Cash || rec.paymentMethod == Card)
  }

  /** Every record the rule builds is well formed, and its total is the one
      computed from its own items. */
  lemma AcceptedOrderWellFormed(req: Request)
    requires CreateOrder(req).Success?
    ensures WellFormed(CreateOrder(req).value)
    ensures CreateOrder(req).value.total == Sum(CreateOrder(req).value.orderItems)
  {
  }

  /** The "Valid total is required." rejection never happens: the computed
      total is always a number. */
  lemma TotalCheckUnreachable(req: Request)
    ensures CreateOrder(req) != Failure(TotalInvalid)
  {
  }

  /** Only `order`, `payment` and `recension` decide the outcome; in particular
      a client-supplied total plays no part. */
  lemma OnlyThreeKeysRead(a: Request, b: Request)
    requires a.order == b.order && a.payment == b.payment && a.recension == b.recension
    ensures CreateOrder(a) == CreateOrder(b)
  {
  }

  /** The items check comes first: an empty order with an unsupported payment
      method is rejected for its items. */
  lemma EmptyOrderRejectedBeforePayment(recension: Option<string>, clientTotal: Option<int>)
    ensures CreateOrder(Request(Items([]), Some("bitcoin"), recension, clientTotal)) == Failure(ItemsRequired)
  {
  }

  /** Each rejection carries its own message. */
  lemma MessagesDistinct(e1: ValidationError, e2: ValidationError)
    requires e1 != e2
    ensures Message(e1) != Message(e2)
  {
  }

  /** Two teas at 3, paid in cash, without a review, are stored with total 6. */
  lemma TeaOrderScenario()
    ensures CreateOrder(Request(Items([Item("p1", "Tea", 2, 3)]), Some("cash"), None, None))
         == Success(OrderRecord([Item("p1", "Tea", 2, 3)], 6, "cash", ""))
  {
  }

  /** Splitting an accepted order's items into two consecutive parts splits
      its stored total accordingly. */
  lemma TotalOfConcatenation(req: Request, a: seq<Item>, b: seq<Item>)
    requires req.order == Items(a + b)
    requires CreateOrder(req).Success?
    ensures CreateOrder(req).value.total == Sum(a) + Sum(b)
  {
    SumAppend(a, b);
  }
}
