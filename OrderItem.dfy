/** A line of an order.  Its constructor never fails: it records what is
    wrong with its inputs in its own ledger and builds the item anyway,
    capturing the product's price at that moment. */
module OrderItems {
  import opened Notifications
  import opened Entities

  const ProductNote := Notification("Product", "Produto inválido")
  const QuantityNote := Notification("Quantity", "A quantidade deve ser maior que zero")

  /** The state an item's total is computed from. */
  datatype Line = Line(product: Option<Product>, price: Money, quantity: int)
  {
    /** Price times quantity. */
    function Amount(): (r: Money)
    {
      price * quantity as real
    }
  }

  /** The contract the item's constructor runs: a product must be present and
      the quantity must be at least 0 (the message says "greater than zero",
      the rule admits 0).  Both checks always run, product first. */
  function ItemChecks(product: Option<Product>, quantity: int): (r: seq<Notification>)
    ensures r == [] <==> product.Some? && quantity >= 0
    ensures ProductNote in r <==> product.None?
    ensures QuantityNote in r <==> quantity < 0
    ensures product.None? && quantity >= 0 ==> r == [ProductNote]
    ensures product.Some? && quantity < 0 ==> r == [QuantityNote]
    ensures product.None? && quantity < 0 ==> r == [ProductNote, QuantityNote]
  {
    IsNotNull(product, ProductNote.key, ProductNote.message)
      + IsGreaterOrEqualsThan(quantity, 0, QuantityNote.key, QuantityNote.message)
  }

  /** The line a fresh item holds: the product and quantity as given, and the
      product's price, or 0 when there is no product. */
  function Captured(product: Option<Product>, quantity: int): (l: Line)
    ensures l.product == product && l.quantity == quantity
    ensures product.Some? ==> l.price == product.value.price
    ensures product.None? ==> l.price == 0.0
  {
    Line(product, if product.Some? then product.value.price else 0.0, quantity)
  }

  /** A fresh item's total: the product's price times the quantity, and 0
      for a missing product or a quantity of 0. */
  lemma CapturedAmount(product: Option<Product>, quantity: int)
    ensures product.Some? ==> Captured(product, quantity).Amount() == product.value.price * quantity as real
    ensures product.None? || quantity == 0 ==> Captured(product, quantity).Amount() == 0.0
  {
  }

  class OrderItem {
    const product: Option<Product>
    var price: Money
    var quantity: int
    var notifications: seq<Notification>

    /** Builds the item whatever its inputs, with the failed checks in its ledger. */
    constructor (product: Option<Product>, quantity: int)
      ensures notifications == ItemChecks(product, quantity)
      ensures View() == Captured(product, quantity)
    {
      this.notifications := ItemChecks(product, quantity);
      this.product := product;
      this.price := if product.Some? then product.value.price else 0.0;
      this.quantity := quantity;
    }

    function View(): (l: Line)
      reads this
    {
      Line(product, price, quantity)
    }

    predicate IsValid()
      reads this
      ensures IsValid() <==> |notifications| == 0
    {
      Notifications.IsValid(notifications)
    }

    /** Price times quantity, computed from the current fields on every call. */
    function Total(): (r: Money)
      reads this
      ensures r == price * quantity as real
      ensures quantity == 0 ==> r == 0.0
    {
      View().Amount()
    }

    method SetPrice(price: Money)
      modifies this`price
      ensures this.price == price && Total() == price * quantity as real
    {
      this.price := price;
    }

    method SetQuantity(quantity: int)
      modifies this`quantity
      ensures this.quantity == quantity && Total() == price * quantity as real
    {
      this.quantity := quantity;
    }
  }
}
