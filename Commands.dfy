/** The "create an order" command: the customer's document, the delivery zip
    code, a promotion code and the requested lines, with a ledger that
    Validate fills. */
module Commands {
  import opened Notifications
  import opened Entities

  /** One requested line: a product identifier and a quantity. */
  datatype ItemRequest = ItemRequest(product: Guid, quantity: int)

  const ZipCodeNote := Notification("ZipCode", "CEP Inválido")

  /** The two rules Validate runs, customer first: the customer string must
      be longer than 11 UTF-16 code units and the zip code shorter than 8.
      The promotion code and the requested lines are not checked. */
  function CommandChecks(customer: string, zipCode: string): (r: seq<Notification>)
    ensures r == [] <==> Utf16Length(customer) > 11 && Utf16Length(zipCode) < 8
    ensures CustomerNote in r <==> Utf16Length(customer) <= 11
    ensures ZipCodeNote in r <==> Utf16Length(zipCode) >= 8
    ensures Utf16Length(customer) <= 11 && Utf16Length(zipCode) < 8 ==> r == [CustomerNote]
    ensures Utf16Length(customer) > 11 && Utf16Length(zipCode) >= 8 ==> r == [ZipCodeNote]
    ensures Utf16Length(customer) <= 11 && Utf16Length(zipCode) >= 8 ==> r == [CustomerNote, ZipCodeNote]
  {
    IsGreaterThan(customer, 11, CustomerNote.key, CustomerNote.message)
      + IsLowerThan(zipCode, 8, ZipCodeNote.key, ZipCodeNote.message)
  }

  /** A command validated twice, as the handler does with a command its
      caller already validated: the second round appends the same
      notifications again, keeps the first round's ledger as a prefix, and
      leaves the validity the first round gave. */
  lemma ValidateTwice(ledger: seq<Notification>, customer: string, zipCode: string)
    ensures var once := ledger + CommandChecks(customer, zipCode);
      var twice := once + CommandChecks(customer, zipCode);
      && twice[..|once|] == once
      && (IsValid(twice) <==> IsValid(once))
      && (IsValid(twice) <==> IsValid(ledger) && Utf16Length(customer) > 11 && Utf16Length(zipCode) < 8)
  {
    var once := ledger + CommandChecks(customer, zipCode);
    MergeKeepsInvalid(ledger, CommandChecks(customer, zipCode));
    MergeKeepsInvalid(once, CommandChecks(customer, zipCode));
  }

  class CreateOrderCommand {
    var customer: string
    var zipCode: string
    var promoCode: string
    var items: seq<ItemRequest>
    var notifications: seq<Notification>

    /** The no-argument constructor: no lines, empty ledger. */
    constructor Empty()
      ensures customer == "" && zipCode == "" && promoCode == ""
      ensures items == [] && notifications == []
    {
      customer, zipCode, promoCode := "", "", "";
      items := [];
      notifications := [];
    }

    /** Stores its arguments unchanged. */
    constructor (customer: string, zipCode: string, promoCode: string, items: seq<ItemRequest>)
      ensures this.customer == customer && this.zipCode == zipCode && this.promoCode == promoCode
      ensures this.items == items && notifications == []
    {
      this.customer, this.zipCode, this.promoCode := customer, zipCode, promoCode;
      this.items := items;
      notifications := [];
    }

    predicate IsValid()
      reads this
      ensures IsValid() <==> |notifications| == 0
    {
      Notifications.IsValid(notifications)
    }

    /** Appends the failures of the two rules to the ledger; nothing else changes. */
    method Validate()
      modifies this`notifications
      ensures notifications == old(notifications) + CommandChecks(customer, zipCode)
      ensures IsValid() <==> old(IsValid()) && Utf16Length(customer) > 11 && Utf16Length(zipCode) < 8
    {
      notifications := notifications + CommandChecks(customer, zipCode);
      MergeKeepsInvalid(old(notifications), CommandChecks(customer, zipCode));
    }
  }
}
