/** The value entities the order aggregate refers to: customers, products
    and discounts.  Their own classes are not part of this model; only the
    fields the order-creation core reads are kept. */
module Entities {
  import opened Notifications

  /** Entity identifiers (C# Guid); only equality is used. */
  type Guid = nat

  /** Money is a C# decimal, modelled as an exact real number. */
  type Money = real

  /** Instants, in any fixed unit; the core only compares them. */
  type Instant = int

  datatype Customer = Customer(name: string, email: string)

  /** The notification recorded for a customer document that is too short
      and for an order without a customer. */
  const CustomerNote := Notification("Customer", "Cliente inválido")

  datatype Product = Product(id: Guid, title: string, price: Money, active: bool)

  /** A flat amount off the order total, valid until its expiry instant. */
  datatype Discount = Discount(amount: Money, expireDate: Instant)

  /** The reduction a possibly absent discount grants at instant now: its
      amount while it has not expired, and nothing otherwise. */
  function DiscountValue(discount: Option<Discount>, now: Instant): (r: Money)
    ensures discount.None? ==> r == 0.0
    ensures discount.Some? && now < discount.value.expireDate ==> r == discount.value.amount
    ensures discount.Some? && now >= discount.value.expireDate ==> r == 0.0
  {
    match discount
    case None => 0.0
    case Some(d) => if now < d.expireDate then d.amount else 0.0
  }
}
