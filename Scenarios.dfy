/** The situations the repository's tests set up, as clients of the model:
    each method builds the same objects and proves the outcome the test
    asserts (or, where the test's name and its data disagree, the outcome
    the code gives). */
module Scenarios {
  import opened Notifications
  import opened Entities
  import opened Orders
  import opened Commands
  import opened Handlers

  const TestCustomer := Customer("Eduardo", "email@email.com")
  const TestProduct := Product(1, "Produto 1", 10.0, true)

  /** The documents and zip codes the tests use.  They are all digits, so
      their C# length is their number of characters. */
  const Document := "43926715855"
  const ZeroDocument := "00000000000"
  const LongDocument := "439267158550"
  const LongZeroDocument := "000000000000"
  const ZipCode := "04564050"
  const ZeroZipCode := "00000000"
  const ShortZipCode := "0456405"

  lemma DocumentLength() ensures Utf16Length(Document) == 11 { Utf16LengthOfBmp(Document); }
  lemma ZeroDocumentLength() ensures Utf16Length(ZeroDocument) == 11 { Utf16LengthOfBmp(ZeroDocument); }
  lemma LongDocumentLength() ensures Utf16Length(LongDocument) == 12 { Utf16LengthOfBmp(LongDocument); }
  lemma LongZeroDocumentLength() ensures Utf16Length(LongZeroDocument) == 12 { Utf16LengthOfBmp(LongZeroDocument); }
  lemma ZipCodeLength() ensures Utf16Length(ZipCode) == 8 { Utf16LengthOfBmp(ZipCode); }
  lemma ZeroZipCodeLength() ensures Utf16Length(ZeroZipCode) == 8 { Utf16LengthOfBmp(ZeroZipCode); }
  lemma ShortZipCodeLength() ensures Utf16Length(ShortZipCode) == 7 { Utf16LengthOfBmp(ShortZipCode); }

  method NewOrderNumberAndStatus(number: string)
    requires |number| == 8
  {
    var order := new Order(Some(TestCustomer), 0.0, Some(Discount(10.0, 5)), number);
    assert |order.number| == 8;
    assert order.status == WaitingPayment;
  }

  method PaidOrderWaitsForDelivery(number: string, now: Instant)
    requires |number| == 8
  {
    var order := new Order(Some(TestCustomer), 0.0, None, number);
    order.AddItem(Some(TestProduct), 1);
    assert order.Lines() == [] + [OrderItems.Line(Some(TestProduct), 10.0, 1)];
    OrderTotalAddLine([], OrderItems.Line(Some(TestProduct), 10.0, 1), 0.0, None, now);
    assert order.Total(now) == 10.0;
    order.Pay(10.0, now);
    assert order.status == WaitingDelivery;
  }

  method CanceledOrderIsCanceled(number: string)
    requires |number| == 8
  {
    var order := new Order(Some(TestCustomer), 0.0, None, number);
    order.Cancel();
    assert order.status == Canceled;
  }

  method RejectedItemsAreNotAdded(number: string)
    requires |number| == 8
  {
    var order := new Order(Some(TestCustomer), 0.0, None, number);
    order.AddItem(None, 0);
    assert |order.items| == 0;
    order.AddItem(Some(TestProduct), 0);
    assert |order.items| == 0;
  }

  /** Fee 10, one line of 10 x 5: 50 with a discount of 10 that expires in
      five days, 60 with one that expired a day ago, 60 with none. */
  method TotalsWithAndWithoutDiscount(number: string, now: Instant)
    requires |number| == 8
  {
    var discounted := new Order(Some(TestCustomer), 10.0, Some(Discount(10.0, now + 5)), number);
    discounted.AddItem(Some(TestProduct), 5);
    assert discounted.Lines() == [] + [OrderItems.Line(Some(TestProduct), 10.0, 5)];
    OrderTotalAddLine([], OrderItems.Line(Some(TestProduct), 10.0, 5), 10.0, Some(Discount(10.0, now + 5)), now);
    assert discounted.Total(now) == 50.0;

    var expired := new Order(Some(TestCustomer), 10.0, Some(Discount(10.0, now - 1)), number);
    expired.AddItem(Some(TestProduct), 5);
    assert expired.Lines() == [] + [OrderItems.Line(Some(TestProduct), 10.0, 5)];
    OrderTotalAddLine([], OrderItems.Line(Some(TestProduct), 10.0, 5), 10.0, Some(Discount(10.0, now - 1)), now);
    assert expired.Total(now) == 60.0;

    var plain := new Order(Some(TestCustomer), 10.0, None, number);
    plain.AddItem(Some(TestProduct), 5);
    assert plain.Lines() == [] + [OrderItems.Line(Some(TestProduct), 10.0, 5)];
    OrderTotalAddLine([], OrderItems.Line(Some(TestProduct), 10.0, 5), 10.0, None, now);
    assert plain.Total(now) == 60.0;
  }

  method OrderWithoutCustomerIsInvalid(number: string)
    requires |number| == 8
  {
    var order := new Order(None, 10.0, None, number);
    assert !order.IsValid();
  }

  /** An empty customer and an 11-character customer both fail Validate, with
      or without requested lines. */
  method CommandsThatFailValidation()
  {
    var empty := new CreateOrderCommand("", ZipCode, "12345678", [ItemRequest(1, 1), ItemRequest(2, 1)]);
    empty.Validate();
    assert !empty.IsValid();

    var noItems := new CreateOrderCommand.Empty();
    noItems.customer, noItems.zipCode, noItems.promoCode := Document, ZipCode, "12345678";
    DocumentLength();
    noItems.Validate();
    assert !noItems.IsValid();
  }

  /** A handler over the tests' fake repositories: every document is a known
      customer, every zip code costs 10, no promotion code exists, and the
      product lookup returns the one test product. */
  method FakeHandler() returns (handler: OrderHandler, orders: OrderRepository)
    ensures fresh(handler) && fresh(orders) && handler.orders == orders
    ensures handler.notifications == [] && orders.saved == []
    ensures forall c :: handler.customers(c) == Some(TestCustomer)
    ensures forall z :: handler.deliveryFees(z) == 10.0
    ensures forall p :: handler.discounts(p) == None
    ensures forall ids :: handler.products(ids) == [TestProduct]
  {
    orders := new OrderRepository();
    handler := new OrderHandler(
      (c: string) => Some(TestCustomer), (z: string) => 10.0, (p: string) => None,
      (ids: seq<Guid>) => [TestProduct], orders);
  }

  /** The handler test for an unknown customer: its 11-character document
      already fails Validate. */
  method UnknownCustomerFailsValidation()
  {
    var command := new CreateOrderCommand.Empty();
    command.customer, command.zipCode, command.promoCode := ZeroDocument, ZipCode, "12345678";
    command.items := command.items + [ItemRequest(1, 1), ItemRequest(2, 1)];
    ZeroDocumentLength();
    command.Validate();
    assert !command.IsValid();
  }

  /** The handler test for an 8-character zip code: the command fails both
      rules, the handler validates it a second time, so its ledger holds
      both notifications twice, and Handle returns before touching the
      handler's own ledger. */
  method InvalidZipKeepsHandlerValid(number: string)
    requires |number| == 8
  {
    var handler, orders := FakeHandler();
    var command := new CreateOrderCommand(Document, ZeroZipCode, "12345678", [ItemRequest(1, 1), ItemRequest(2, 1)]);
    DocumentLength();
    ZeroZipCodeLength();
    command.Validate();
    var result, built := handler.Handle(command, number);
    assert command.notifications == [CustomerNote, ZipCodeNote, CustomerNote, ZipCodeNote];
    assert !result.success && result.message == InvalidCommandMessage;
    assert handler.IsValid() && orders.saved == [];
  }

  /** The handler test for an unknown promotion code, with an empty zip code:
      the 11-character document fails, twice, and the handler stays valid. */
  method EmptyZipKeepsHandlerValid(number: string)
    requires |number| == 8
  {
    var handler, orders := FakeHandler();
    var command := new CreateOrderCommand(Document, "", "12345678", [ItemRequest(1, 1), ItemRequest(2, 1)]);
    DocumentLength();
    command.Validate();
    var result, built := handler.Handle(command, number);
    assert command.notifications == [CustomerNote, CustomerNote];
    assert !result.success && result.message == InvalidCommandMessage;
    assert handler.IsValid() && orders.saved == [];
  }

  /** The handler test called "valid command, order generated": the command
      fails validation, so Handle returns early and the handler's own ledger
      stays empty, which is all the test asserts. */
  method HandlerLedgerUntouchedByInvalidCommand(number: string)
    requires |number| == 8
  {
    var handler, orders := FakeHandler();
    var command := new CreateOrderCommand(Document, ZipCode, "12345678", [ItemRequest(1, 1), ItemRequest(2, 1)]);
    DocumentLength();
    command.Validate();
    var result, built := handler.Handle(command, number);
    assert !result.success && result.message == InvalidCommandMessage;
    assert handler.IsValid();
    assert orders.saved == [];
  }

  /** An unknown customer leaves a notification in the handler's ledger; a
      later command for a known customer then fails too and is not saved. */
  method HandlerLedgerIsNeverCleared(number: string)
    requires |number| == 8
  {
    var orders := new OrderRepository();
    var handler := new OrderHandler(
      (c: string) => if c == LongDocument then Some(TestCustomer) else None,
      (z: string) => 10.0, (p: string) => None, (ids: seq<Guid>) => [TestProduct], orders);

    var unknown := new CreateOrderCommand(LongZeroDocument, ShortZipCode, "", [ItemRequest(1, 1)]);
    LongZeroDocumentLength();
    ShortZipCodeLength();
    var first, _ := handler.Handle(unknown, number);
    assert !first.success && first.message == FailedOrderMessage;

    var known := new CreateOrderCommand(LongDocument, ShortZipCode, "", [ItemRequest(1, 1)]);
    LongDocumentLength();
    var second, _ := handler.Handle(known, number);
    assert !second.success && orders.saved == [];
  }

  /** With an empty ledger, a valid command for a known customer is saved
      once, with its single line and total fee + 10 x 2. */
  method HandlerSavesValidOrder(number: string, now: Instant)
    requires |number| == 8
  {
    var handler, orders := FakeHandler();
    var command := new CreateOrderCommand(LongDocument, ShortZipCode, "", [ItemRequest(1, 2)]);
    LongDocumentLength();
    ShortZipCodeLength();
    var result, order := handler.Handle(command, number);
    assert FirstMatch([TestProduct], 1) == Some(TestProduct);
    assert handler.products(ProductIds(command.items)) == [TestProduct];
    assert PlacedLines(command.items, [TestProduct]) == [] + [OrderItems.Line(Some(TestProduct), 10.0, 2)];
    assert order.Lines() == [] + [OrderItems.Line(Some(TestProduct), 10.0, 2)];
    assert result.success && orders.saved == [order];
    OrderTotalAddLine([], OrderItems.Line(Some(TestProduct), 10.0, 2), 10.0, None, now);
    assert order.Total(now) == 30.0;
  }
}
