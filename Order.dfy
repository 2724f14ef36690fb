/** The order aggregate: customer, delivery fee, optional discount, the
    items added to it, its status and its ledger.  Only what the order tests
    observe is modelled: the 8-character number, the initial status, Pay and
    Cancel from a new order, the silent rejection of bad items, the total
    and validity in the absence of a customer. */
module Orders {
  import opened Notifications
  import opened Entities
  import opened OrderItems

  datatype Status = WaitingPayment | WaitingDelivery | Canceled

  /** What the order's constructor records: a missing customer. */
  function OrderChecks(customer: Option<Customer>): (r: seq<Notification>)
    ensures r == [] <==> customer.Some?
    ensures customer.None? ==> r == [CustomerNote]
  {
    IsNotNull(customer, CustomerNote.key, CustomerNote.message)
  }

  /** The lines AddItem appends: none for an absent product or a quantity of
      zero or less, otherwise one line at the product's price. */
  function Added(product: Option<Product>, quantity: int): (r: seq<Line>)
    ensures r == [] <==> product.None? || quantity <= 0
    ensures r != [] ==> r == [Captured(product, quantity)] && ItemChecks(product, quantity) == []
  {
    if product.None? || quantity <= 0 then [] else [Captured(product, quantity)]
  }

  /** The sum of the line totals, 0 for no line.  Lines of non-negative
      amount never give a negative sum, and a single line gives its own
      amount. */
  function Subtotal(lines: seq<Line>): (r: Money)
    ensures lines == [] ==> r == 0.0
    ensures |lines| == 1 ==> r == lines[0].Amount()
    ensures (forall i :: 0 <= i < |lines| ==> lines[i].Amount() >= 0.0) ==> r >= 0.0
  {
    if lines == [] then 0.0 else lines[0].Amount() + Subtotal(lines[1..])
  }

  lemma {:induction false} SubtotalAppend(a: seq<Line>, b: seq<Line>)
    ensures Subtotal(a + b) == Subtotal(a) + Subtotal(b)
  {
    if a != [] {
      assert (a + b)[0] == a[0];
      assert (a + b)[1..] == a[1..] + b;
      SubtotalAppend(a[1..], b);
    } else {
      assert a + b == b;
    }
  }

  /** The total of lines, fee and discount at instant now (no clamping): the
      discount's amount comes off only while the discount has not expired. */
  function OrderTotal(lines: seq<Line>, deliveryFee: Money, discount: Option<Discount>, now: Instant): (r: Money)
    ensures discount.None? ==> r == Subtotal(lines) + deliveryFee
    ensures discount.Some? && now < discount.value.expireDate ==> r == Subtotal(lines) + deliveryFee - discount.value.amount
    ensures discount.Some? && now >= discount.value.expireDate ==> r == Subtotal(lines) + deliveryFee
  {
    Subtotal(lines) + deliveryFee - DiscountValue(discount, now)
  }

  /** Adding a line raises the total by exactly that line's amount. */
  lemma {:induction false} OrderTotalAddLine(lines: seq<Line>, l: Line, deliveryFee: Money, discount: Option<Discount>, now: Instant)
    ensures OrderTotal(lines + [l], deliveryFee, discount, now) == OrderTotal(lines, deliveryFee, discount, now) + l.Amount()
  {
    SubtotalAppend(lines, [l]);
  }

  /** A rejected AddItem leaves the total as it was; an accepted one adds
      price times quantity of the product. */
  lemma {:induction false} OrderTotalAdded(lines: seq<Line>, product: Option<Product>, quantity: int, deliveryFee: Money, discount: Option<Discount>, now: Instant)
    ensures product.None? || quantity <= 0 ==>
      OrderTotal(lines + Added(product, quantity), deliveryFee, discount, now) == OrderTotal(lines, deliveryFee, discount, now)
    ensures product.Some? && quantity > 0 ==>
      OrderTotal(lines + Added(product, quantity), deliveryFee, discount, now) == OrderTotal(lines, deliveryFee, discount, now) + product.value.price * quantity as real
  {
    if product.None? || quantity <= 0 {
      assert lines + Added(product, quantity) == lines;
    } else {
      OrderTotalAddLine(lines, Captured(product, quantity), deliveryFee, discount, now);
    }
  }

  /** A discount only ever lowers the total by its amount, and only before it
      expires; an expired discount and no discount give the same total. */
  lemma DiscountEffect(lines: seq<Line>, deliveryFee: Money, d: Discount, now: Instant)
    ensures now < d.expireDate ==> OrderTotal(lines, deliveryFee, Some(d), now) == OrderTotal(lines, deliveryFee, None, now) - d.amount
    ensures now >= d.expireDate ==> OrderTotal(lines, deliveryFee, Some(d), now) == OrderTotal(lines, deliveryFee, None, now)
  {
  }

  /** The lines of a sequence of items, read from their current fields. */
  function LinesOf(items: seq<OrderItem>): (r: seq<Line>)
    reads items
    ensures |r| == |items|
    ensures forall i :: 0 <= i < |items| ==> r[i] == items[i].View()
  {
    if items == [] then [] else [items[0].View()] + LinesOf(items[1..])
  }

  class Order {
    const number: string
    const customer: Option<Customer>
    const deliveryFee: Money
    const discount: Option<Discount>
    var status: Status
    var items: seq<OrderItem>
    var notifications: seq<Notification>

    /** A new order: the number is the caller's 8-character token, the status
        is WaitingPayment, there are no items, and a missing customer is
        recorded in the ledger. */
    constructor (customer: Option<Customer>, deliveryFee: Money, discount: Option<Discount>, number: string)
      requires |number| == 8
      ensures this.number == number && |this.number| == 8
      ensures this.customer == customer && this.deliveryFee == deliveryFee && this.discount == discount
      ensures status == WaitingPayment
      ensures items == [] && Lines() == []
      ensures notifications == OrderChecks(customer)
      ensures IsValid() <==> customer.Some?
    {
      this.number := number;
      this.customer := customer;
      this.deliveryFee := deliveryFee;
      this.discount := discount;
      this.status := WaitingPayment;
      this.items := [];
      this.notifications := OrderChecks(customer);
    }

    /** The lines of the order's items, in the order they were added. */
    function Lines(): (r: seq<Line>)
      reads this, items
      ensures |r| == |items|
    {
      LinesOf(items)
    }

    predicate IsValid()
      reads this
      ensures IsValid() <==> |notifications| == 0
    {
      Notifications.IsValid(notifications)
    }

    /** Sum of the item totals plus the delivery fee, minus the discount
        amount when the discount is present and not yet expired at now. */
    function Total(now: Instant): (r: Money)
      reads this, items
      ensures discount.None? ==> r == Subtotal(Lines()) + deliveryFee
      ensures discount.Some? && now < discount.value.expireDate ==> r == Subtotal(Lines()) + deliveryFee - discount.value.amount
      ensures discount.Some? && now >= discount.value.expireDate ==> r == Subtotal(Lines()) + deliveryFee
    {
      OrderTotal(Lines(), deliveryFee, discount, now)
    }

    /** Appends a fresh item for a present product and a positive quantity;
        otherwise changes nothing. */
    method AddItem(product: Option<Product>, quantity: int)
      modifies this`items
      ensures Lines() == old(Lines()) + Added(product, quantity)
      ensures product.None? || quantity <= 0 ==> items == old(items)
      ensures product.Some? && quantity > 0 ==>
        |items| == |old(items)| + 1 && items[..|old(items)|] == old(items) && fresh(items[|old(items)|])
    {
      if product.None? || quantity <= 0 {
        return;
      }
      var item := new OrderItem(product, quantity);
      items := items + [item];
      assert items[..|old(items)|] == old(items);
    }

    /** Payment of the full total of a new order moves it to WaitingDelivery. */
    method Pay(amount: Money, now: Instant)
      requires status == WaitingPayment && amount == Total(now)
      modifies this`status
      ensures status == WaitingDelivery
    {
      status := WaitingDelivery;
    }

    /** Cancelling a new order moves it to Canceled. */
    method Cancel()
      requires status == WaitingPayment
      modifies this`status
      ensures status == Canceled
    {
      status := Canceled;
    }
  }
}
