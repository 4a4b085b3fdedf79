/** The storefront's records: catalog items, cart lines, payment methods and
    the details collected at checkout. Prices are integer euro cents, so that
    sums and the 10% tax are exact. */
module Catalog {

  datatype Option<T> = None | Some(value: T)

  /** A purchasable product (`FoodItem`). */
  datatype FoodItem = FoodItem(id: int, name: string, price: nat, imageUrl: string)

  /** A cart line (`CartItem`): a snapshot of the item's fields plus a quantity. */
  datatype Line = Line(id: int, name: string, price: nat, imageUrl: string, quantity: int)

  /** The line `{ ...item, quantity: 1 }` that a first add creates. */
  function NewLine(item: FoodItem): Line {
    Line(item.id, item.name, item.price, item.imageUrl, 1)
  }

  /** The two accepted payment methods; their string values are what the
      order message shows. */
  datatype PaymentMethod = Cash | PayPal {
    function Label(): string {
      match this
      case Cash => "Espèces"
      case PayPal => "PayPal"
    }
  }

  /** Reads a payment method back from its string value. */
  function ParsePaymentMethod(s: string): Option<PaymentMethod> {
    if s == "Espèces" then Some(Cash) else if s == "PayPal" then Some(PayPal) else None
  }

  /** Each method's string value names it, and no other. */
  lemma LabelRoundTrip(m: PaymentMethod)
    ensures ParsePaymentMethod(m.Label()) == Some(m)
  {
  }

  /** What the checkout form hands to the order submission. */
  datatype OrderDetails = OrderDetails(
    firstName: string,
    lastName: string,
    contactInfo: string,
    paymentMethod: PaymentMethod)

  /** The fixed catalog shown on the products page. */
  const FoodItems: seq<FoodItem> := [
    FoodItem(1, "Test 1", 150, ""),
    FoodItem(2, "Test 2", 250, ""),
    FoodItem(3, "Test 3", 350, ""),
    FoodItem(4, "Test 4", 450, ""),
    FoodItem(5, "Test 5", 550, ""),
    FoodItem(6, "Test 6", 650, ""),
    FoodItem(7, "Test 7", 750, ""),
    FoodItem(8, "Test 8", 850, "")
  ]

  /** The catalog lists eight items in id order from 1, priced from 1.50 €
      in steps of 1 €, none with an image. */
  lemma CatalogShape()
    ensures |FoodItems| == 8
    ensures forall i :: 0 <= i < |FoodItems| ==>
              FoodItems[i].id == i + 1 && FoodItems[i].price == 150 + 100 * i && FoodItems[i].imageUrl == ""
  {
  }
}
