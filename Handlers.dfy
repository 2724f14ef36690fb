/** The order handler: validates the command, looks up customer, delivery
    fee, discount and products, builds the order one AddItem per requested
    line, merges the order's ledger into its own and saves the order only
    when that ledger is empty.  Its ledger lives as long as the handler and
    is never cleared. */
module Handlers {
  import opened Notifications
  import opened Entities
  import opened OrderItems
  import opened Orders
  import opened Commands

  /** The product a requested line resolves to: the first fetched product
      with that identifier, or none. */
  function FirstMatch(products: seq<Product>, id: Guid): (r: Option<Product>)
    ensures r.Some? ==> r.value.id == id
  {
    if products == [] then None
    else if products[0].id == id then Some(products[0])
    else FirstMatch(products[1..], id)
  }

  /** The lookup finds nothing exactly when no fetched product has the
      identifier. */
  lemma {:induction false} FirstMatchMissing(products: seq<Product>, id: Guid)
    ensures FirstMatch(products, id).None? <==> forall k :: 0 <= k < |products| ==> products[k].id != id
  {
    if products != [] && products[0].id != id {
      FirstMatchMissing(products[1..], id);
      forall k | 1 <= k < |products| ensures products[k] == products[1..][k - 1] { }
    }
  }

  /** A found product is the first fetched product with the identifier. */
  lemma {:induction false} FirstMatchFound(products: seq<Product>, id: Guid)
    ensures FirstMatch(products, id).Some? ==>
      exists k :: 0 <= k < |products| && products[k] == FirstMatch(products, id).value
        && forall j :: 0 <= j < k ==> products[j].id != id
  {
    if products != [] && products[0].id != id {
      FirstMatchFound(products[1..], id);
      if FirstMatch(products, id).Some? {
        var k :| 0 <= k < |products[1..]| && products[1..][k] == FirstMatch(products, id).value
          && forall j :: 0 <= j < k ==> products[1..][j].id != id;
        assert products[k + 1] == products[1..][k];
        forall j | 0 <= j < k + 1 ensures products[j].id != id {
          if j > 0 { assert products[j] == products[1..][j - 1]; }
        }
      }
    }
  }

  /** Of several fetched products with the same identifier, the first wins. */
  lemma {:induction false} FirstMatchIsFirst(products: seq<Product>, id: Guid, k: nat)
    requires k < |products| && products[k].id == id
    requires forall j :: 0 <= j < k ==> products[j].id != id
    ensures FirstMatch(products, id) == Some(products[k])
  {
    if k > 0 {
      assert products[0].id != id;
      forall j | 0 <= j < k - 1 ensures products[1..][j].id != id {
        assert products[1..][j] == products[j + 1];
      }
      FirstMatchIsFirst(products[1..], id, k - 1);
    }
  }

  /** The identifiers the product lookup is given: the requested products, in
      request order. */
  function ProductIds(requests: seq<ItemRequest>): (ids: seq<Guid>)
    ensures |ids| == |requests|
    ensures forall i :: 0 <= i < |requests| ==> ids[i] == requests[i].product
  {
    if requests == [] then [] else [requests[0].product] + ProductIds(requests[1..])
  }

  /** The lines an order holds after AddItem was called once per request, in
      order, with the request's first matching product and its quantity. */
  function PlacedLines(requests: seq<ItemRequest>, products: seq<Product>): (r: seq<Line>)
    ensures |r| <= |requests|
  {
    if requests == [] then []
    else
      var last := requests[|requests| - 1];
      PlacedLines(requests[..|requests| - 1], products) + Added(FirstMatch(products, last.product), last.quantity)
  }

  /** One more request extends the placed lines by what AddItem adds for it. */
  lemma PlacedStep(requests: seq<ItemRequest>, i: nat, products: seq<Product>)
    requires i < |requests|
    ensures PlacedLines(requests[..i + 1], products)
         == PlacedLines(requests[..i], products) + Added(FirstMatch(products, requests[i].product), requests[i].quantity)
  {
    assert requests[..i + 1][..i] == requests[..i];
  }

  /** Every placed line has a fetched product, a positive quantity and that
      product's price. */
  lemma {:induction false} PlacedLinesAccepted(requests: seq<ItemRequest>, products: seq<Product>)
    ensures forall k :: 0 <= k < |PlacedLines(requests, products)| ==>
      var l := PlacedLines(requests, products)[k];
      l.product.Some? && l.product.value in products && l.quantity > 0 && l.price == l.product.value.price
  {
    if requests != [] {
      var last := requests[|requests| - 1];
      PlacedLinesAccepted(requests[..|requests| - 1], products);
      var m := FirstMatch(products, last.product);
      FirstMatchFound(products, last.product);
      if m.Some? && last.quantity > 0 {
        assert Added(m, last.quantity) == [Captured(m, last.quantity)];
      }
    }
  }

  /** A request that names a fetched product and a positive quantity. */
  predicate Placeable(r: ItemRequest, products: seq<Product>)
  {
    r.quantity > 0 && FirstMatch(products, r.product).Some?
  }

  /** The line such a request becomes. */
  function Placed(r: ItemRequest, products: seq<Product>): (l: Line)
  {
    Captured(FirstMatch(products, r.product), r.quantity)
  }

  /** When every request names a fetched product and a positive quantity, the
      order gets one line per request, in request order, at that product's
      price. */
  lemma {:induction false} PlacedAll(requests: seq<ItemRequest>, products: seq<Product>)
    requires forall i :: 0 <= i < |requests| ==> Placeable(requests[i], products)
    ensures |PlacedLines(requests, products)| == |requests|
    ensures forall i :: 0 <= i < |requests| ==> PlacedLines(requests, products)[i] == Placed(requests[i], products)
  {
    if requests != [] {
      var n := |requests| - 1;
      var init := requests[..n];
      forall i | 0 <= i < n ensures Placeable(init[i], products) {
        assert init[i] == requests[i];
      }
      PlacedAll(init, products);
      var placed := PlacedLines(init, products);
      var added := Added(FirstMatch(products, requests[n].product), requests[n].quantity);
      assert Placeable(requests[n], products);
      assert added == [Placed(requests[n], products)];
      assert PlacedLines(requests, products) == placed + added;
      forall i | 0 <= i < |requests| ensures (placed + added)[i] == Placed(requests[i], products) {
        if i < n {
          assert init[i] == requests[i];
        }
      }
    }
  }

  /** A request whose product was not fetched, or whose quantity is zero or
      less, contributes no line. */
  lemma PlacedSkips(requests: seq<ItemRequest>, r: ItemRequest, products: seq<Product>)
    requires r.quantity <= 0 || FirstMatch(products, r.product).None?
    ensures PlacedLines(requests + [r], products) == PlacedLines(requests, products)
  {
    assert (requests + [r])[..|requests|] == requests;
  }

  datatype Payload = Notes(notes: seq<Notification>) | Created(order: Order)

  /** The handler's result envelope. */
  datatype CommandResult = CommandResult(success: bool, message: string, data: Payload)

  const InvalidCommandMessage := "Pedido inválido"
  const FailedOrderMessage := "Falha ao gerar pedido"

  /** The success message: the order's number between "Pedido " and
      " gerado com sucesso". */
  function CreatedMessage(number: string): (r: string)
    ensures |r| == |number| + 26
    ensures r[..7] == "Pedido " && r[7..7 + |number|] == number && r[7 + |number|..] == " gerado com sucesso"
  {
    "Pedido " + number + " gerado com sucesso"
  }

  /** The order repository, reduced to the log of saved orders. */
  class OrderRepository {
    var saved: seq<Order>

    constructor ()
      ensures saved == []
    {
      saved := [];
    }

    method Save(order: Order)
      modifies this`saved
      ensures saved == old(saved) + [order]
    {
      saved := saved + [order];
    }
  }

  /** A new order for the looked-up values, with AddItem called once per
      requested line, in order, with the line's first matching product. */
  method PlaceOrder(customer: Option<Customer>, deliveryFee: Money, discount: Option<Discount>, number: string,
                    requests: seq<ItemRequest>, fetched: seq<Product>) returns (o: Order)
    requires |number| == 8
    ensures fresh(o) && o.number == number && o.status == WaitingPayment
    ensures o.customer == customer && o.deliveryFee == deliveryFee && o.discount == discount
    ensures o.notifications == OrderChecks(customer)
    ensures o.Lines() == PlacedLines(requests, fetched)
  {
    o := new Order(customer, deliveryFee, discount, number);
    for i := 0 to |requests|
      invariant o.number == number && o.status == WaitingPayment
      invariant o.notifications == OrderChecks(customer)
      invariant o.Lines() == PlacedLines(requests[..i], fetched)
    {
      o.AddItem(FirstMatch(fetched, requests[i].product), requests[i].quantity);
      PlacedStep(requests, i, fetched);
    }
    assert requests[..|requests|] == requests;
  }

  class OrderHandler {
    const customers: string -> Option<Customer>
    const deliveryFees: string -> Money
    const discounts: string -> Option<Discount>
    const products: seq<Guid> -> seq<Product>
    const orders: OrderRepository
    var notifications: seq<Notification>

    constructor (customers: string -> Option<Customer>, deliveryFees: string -> Money,
                 discounts: string -> Option<Discount>, products: seq<Guid> -> seq<Product>,
                 orders: OrderRepository)
      ensures this.customers == customers && this.deliveryFees == deliveryFees
      ensures this.discounts == discounts && this.products == products && this.orders == orders
      ensures notifications == []
    {
      this.customers, this.deliveryFees, this.discounts := customers, deliveryFees, discounts;
      this.products, this.orders := products, orders;
      notifications := [];
    }

    predicate IsValid()
      reads this
      ensures IsValid() <==> |notifications| == 0
    {
      Notifications.IsValid(notifications)
    }

    /** The order o is the one Handle builds for command: its number is the
        given token, its customer, fee and discount are what the lookups return
        for the command's customer, zip code and promotion code, it is still
        waiting for payment, its lines are those AddItem keeps when called once
        per requested line, and its ledger holds only the missing-customer
        check. */
    ghost predicate BuiltFrom(o: Order, command: CreateOrderCommand, number: string)
      reads o, o.items, command
    {
      && o.number == number
      && o.customer == customers(command.customer)
      && o.deliveryFee == deliveryFees(command.zipCode)
      && o.discount == discounts(command.promoCode)
      && o.status == WaitingPayment
      && o.Lines() == PlacedLines(command.items, products(ProductIds(command.items)))
      && o.notifications == OrderChecks(customers(command.customer))
    }

    /** Looks up the customer, fee, discount and products for the command and
        builds the order from them. */
    method BuildOrder(command: CreateOrderCommand, number: string) returns (o: Order)
      requires |number| == 8
      ensures fresh(o) && BuiltFrom(o, command, number)
    {
      var customer := customers(command.customer);
      var deliveryFee := deliveryFees(command.zipCode);
      var discount := discounts(command.promoCode);
      var requests := command.items;
      var fetched := products(ProductIds(requests));
      o := PlaceOrder(customer, deliveryFee, discount, number, requests, fetched);
    }

    /** Creates an order from the command.  number is the 8-character token
        the new order receives.  The order built on the way is returned as a
        ghost value (null when the command failed validation). */
    method Handle(command: CreateOrderCommand, number: string) returns (result: CommandResult, ghost order: Order?)
      requires |number| == 8
      modifies this`notifications, command`notifications, orders`saved
      // The command is validated once more, by appending.
      ensures command.notifications == old(command.notifications) + CommandChecks(command.customer, command.zipCode)
      // Fail fast: no order, the handler's ledger and the saved orders untouched.
      ensures !command.IsValid() ==>
        order == null && result == CommandResult(false, InvalidCommandMessage, Notes(command.notifications))
        && notifications == old(notifications) && orders.saved == old(orders.saved)
      // Otherwise the order is built from exactly the looked-up values.
      ensures command.IsValid() ==>
        order != null && fresh(order) && BuiltFrom(order, command, number)
        && notifications == old(notifications) + order.notifications
      // Save happens once, with that order, exactly when the merged ledger is empty.
      ensures command.IsValid() && notifications != [] ==>
        result == CommandResult(false, FailedOrderMessage, Notes(notifications)) && orders.saved == old(orders.saved)
      ensures command.IsValid() && notifications == [] ==>
        result == CommandResult(true, CreatedMessage(number), Created(order)) && orders.saved == old(orders.saved) + [order]
      // The handler's ledger only grows, so once it holds a notification nothing is saved again.
      ensures |old(notifications)| <= |notifications| && notifications[..|old(notifications)|] == old(notifications)
      ensures old(notifications) != [] ==> !result.success && orders.saved == old(orders.saved)
    {
      command.Validate();
      if !command.IsValid() {
        order := null;
        result := CommandResult(false, InvalidCommandMessage, Notes(command.notifications));
        return;
      }

      var o := BuildOrder(command, number);
      order := o;

      notifications := notifications + o.notifications;
      MergeKeepsInvalid(old(notifications), o.notifications);
      assert BuiltFrom(o, command, number);

      if !IsValid() {
        result := CommandResult(false, FailedOrderMessage, Notes(notifications));
        return;
      }

      orders.Save(o);
      assert BuiltFrom(o, command, number);
      result := CommandResult(true, CreatedMessage(o.number), Created(o));
    }
  }
}
