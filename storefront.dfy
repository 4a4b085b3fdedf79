/** The top-level component's state and handlers, and the checkout page's
    form state and submit handler. The cart updaters, the totals and the
    navigation rules they use live in the Cart and Navigation modules; the
    webhook call is the OrderNotifier's `SendOrder` with the transport's
    answer given as a parameter. */
module Storefront {
  import opened Catalog
  import Cart
  import opened Navigation
  import OrderNotifier

  // ---------------------------------------------------------------------
  // Checkout validation

  /** How a submit attempt passes validation: the first failing check
      aborts, and only a form that passes builds the order details. */
  datatype Validation = MissingName | MissingContact | Ready(details: OrderDetails)

  /** The checks in their fixed order: first and last name, then contact.
      A field passes when it is not the empty string; blanks are not
      trimmed. */
  function Validate(firstName: string, lastName: string, contactInfo: string, paymentMethod: PaymentMethod): (v: Validation)
    ensures v == MissingName <==> firstName == "" || lastName == ""
    ensures v == MissingContact <==> firstName != "" && lastName != "" && contactInfo == ""
    ensures v.Ready? <==> firstName != "" && lastName != "" && contactInfo != ""
    ensures v.Ready? ==> v.details == OrderDetails(firstName, lastName, contactInfo, paymentMethod)
  {
    if firstName == "" || lastName == "" then MissingName
    else if contactInfo == "" then MissingContact
    else Ready(OrderDetails(firstName, lastName, contactInfo, paymentMethod))
  }

  /** The alerts shown when a check fails. */
  const NameAlert: string := "Veuillez entrer votre prénom et votre nom."
  const ContactAlert: string := "Veuillez entrer votre pseudo Snapchat ou votre numéro de téléphone."

  /** The alert for a failed check: each failure has its own message. */
  function Alert(v: Validation): (message: string)
    requires !v.Ready?
    ensures message != ""
    ensures message == NameAlert <==> v == MissingName
  {
    if v == MissingName then NameAlert else ContactAlert
  }

  /** Whether the webhook answered with an ok response. */
  predicate Delivered(transport: OrderNotifier.Transport) {
    transport.Responded? && transport.ok
  }

  // ---------------------------------------------------------------------
  // The application component

  /** The component's two pieces of state: the current page and the cart. */
  class Shop {
    var page: Page
    var cart: seq<Line>

    /** The cart invariant: distinct ids, quantities of at least one. */
    ghost predicate Valid()
      reads this
    {
      Cart.Valid(cart)
    }

    /** What the pages' wiring keeps: the checkout page is only reached
      with a non-empty cart, and the success page only with an empty one. */
    ghost predicate Consistent()
      reads this
    {
      (page == Checkout ==> cart != []) && (page == Success ==> cart == [])
    }

    /** The app opens on the products page with an empty cart. */
    constructor ()
      ensures page == Products && cart == []
      ensures Valid() && Consistent()
    {
      page := Products;
      cart := [];
    }

    /** `handleAddToCart`, wired to the products page's item cards. */
    method AddToCart(item: FoodItem)
      requires Valid()
      modifies this`cart
      ensures Valid()
      ensures cart == Cart.AddToCart(old(cart), item)
      ensures Cart.Count(cart) == Cart.Count(old(cart)) + 1
      ensures page == Products ==> Consistent()
    {
      Cart.AddPreservesValid(cart, item);
      Cart.AddTotals(cart, item);
      cart := Cart.AddToCart(cart, item);
    }

    /** `handleUpdateQuantity`, wired to the cart page's minus and plus
      buttons. */
    method UpdateQuantity(id: int, quantity: int)
      requires Valid()
      modifies this`cart
      ensures Valid()
      ensures cart == Cart.UpdateQuantity(old(cart), id, quantity)
      ensures page == CartPage ==> Consistent()
    {
      Cart.UpdatePreservesValid(cart, id, quantity);
      cart := Cart.UpdateQuantity(cart, id, quantity);
    }

    /** A press on a page-changing button: the page becomes the button's
      target when the current page shows that button. */
    method Press(button: Button)
      requires Consistent()
      modifies this`page
      ensures Target(old(page), cart, button).Some? ==> page == Target(old(page), cart, button).value
      ensures Target(old(page), cart, button).None? ==> page == old(page)
      ensures page != Success || old(page) == Success
      ensures Consistent()
    {
      var target := Target(page, cart, button);
      TargetRules(page, cart, button);
      if target.Some? {
        page := target.value;
      }
    }

    /** `cartCount`, shown on the header's cart icon. */
    function CartCount(): (n: int)
      reads this
      requires Valid()
      ensures n >= |cart|
      ensures n > 0 <==> cart != []
    {
      Cart.CountBounds(cart);
      Cart.Count(cart)
    }

    /** `handleSubmitOrder`: send the order for the current cart; on success
      empty the cart and show the success page, on failure change nothing.
      It never fails itself, so it returns the message that was posted. */
    method SubmitOrder(details: OrderDetails, transport: OrderNotifier.Transport) returns (posted: OrderNotifier.Payload)
      requires Valid()
      modifies this
      ensures Valid() && (old(Consistent()) ==> Consistent())
      ensures posted == OrderNotifier.BuildPayload(details, old(cart))
      ensures Delivered(transport) ==> cart == [] && page == Success
      ensures !Delivered(transport) ==> cart == old(cart) && page == old(page)
    {
      var delivery := OrderNotifier.SendOrder(details, cart, transport);
      posted := delivery.posted;
      if delivery.outcome.Delivered? {
        cart := [];
        page := Success;
      }
    }
  }

  // ---------------------------------------------------------------------
  // The checkout page

  /** The checkout form's state: the chosen payment method, the three text
      fields and the busy flag that disables the order button. */
  class CheckoutForm {
    var paymentMethod: PaymentMethod
    var firstName: string
    var lastName: string
    var contactInfo: string
    var isLoading: bool

    /** The form opens with cash selected, empty fields and not busy. */
    constructor ()
      ensures paymentMethod == Cash && firstName == "" && lastName == "" && contactInfo == ""
      ensures !isLoading
    {
      paymentMethod := Cash;
      firstName, lastName, contactInfo := "", "", "";
      isLoading := false;
    }

    /** The validating half of `handleSubmit`: a failed check leaves
      everything as it was; a form that passes turns the busy flag on. */
    method BeginSubmit() returns (v: Validation)
      modifies this`isLoading
      ensures v == Validate(firstName, lastName, contactInfo, paymentMethod)
      ensures v.Ready? ==> isLoading
      ensures !v.Ready? ==> isLoading == old(isLoading)
    {
      v := Validate(firstName, lastName, contactInfo, paymentMethod);
      if v.Ready? {
        isLoading := true;
      }
    }

    /** The half of `handleSubmit` after the awaited submission settles. */
    method EndSubmit()
      modifies this`isLoading
      ensures !isLoading
    {
      isLoading := false;
    }

    /** `handleSubmit` with the app's `handleSubmitOrder` as its `onSubmit`:
      validation short-circuits before anything is sent; a valid form is
      busy while the order is sent, and not busy afterwards. */
    method Submit(shop: Shop, transport: OrderNotifier.Transport)
      returns (v: Validation, posted: Option<OrderNotifier.Payload>, ghost busyAtSend: bool)
      requires shop.Valid()
      modifies this`isLoading, shop
      ensures shop.Valid() && (old(shop.Consistent()) ==> shop.Consistent())
      ensures v == Validate(firstName, lastName, contactInfo, paymentMethod)
      ensures !v.Ready? ==>
                posted == None && isLoading == old(isLoading) &&
                shop.cart == old(shop.cart) && shop.page == old(shop.page)
      ensures v.Ready? ==>
                busyAtSend && posted == Some(OrderNotifier.BuildPayload(v.details, old(shop.cart))) && !isLoading
      ensures v.Ready? && Delivered(transport) ==> shop.cart == [] && shop.page == Success
      ensures v.Ready? && !Delivered(transport) ==> shop.cart == old(shop.cart) && shop.page == old(shop.page)
    {
      v := BeginSubmit();
      if !v.Ready? {
        // The alert is shown and nothing is sent.
        return v, None, false;
      }
      busyAtSend := isLoading;
      var sent := shop.SubmitOrder(v.details, transport);
      EndSubmit();
      posted := Some(sent);
    }
  }

  // ---------------------------------------------------------------------
  // A session

  /** Two adds of the first catalog item: one line of quantity two, with
      its subtotal, taxes and total on the cart page and in the message;
      then the cart icon and "finalize" lead to checkout. */
  method CartSession() {
    var shop := new Shop();
    shop.AddToCart(FoodItems[0]);
    shop.AddToCart(FoodItems[0]);
    assert shop.cart == [Line(1, "Test 1", 150, "", 2)];
    assert Cart.Subtotal(shop.cart) == 300;
    assert Cart.Taxes(shop.cart) == 30.0 && Cart.CartPageTotal(shop.cart) == 330.0;
    assert OrderNotifier.OrderTotal(shop.cart) == 300;

    shop.Press(HeaderCart);
    shop.Press(Finalize);
    assert shop.page == Checkout;
  }

  /** From the checkout page: a missing first name, then a failed send,
      then a successful one. */
  method CheckoutSession(shop: Shop, failure: OrderNotifier.Transport, success: OrderNotifier.Transport)
    requires shop.Valid() && shop.page == Checkout
    requires !Delivered(failure) && Delivered(success)
    modifies shop
  {
    var cart := shop.cart;
    var form := new CheckoutForm();
    form.lastName, form.contactInfo := "Martin", "06 00 00 00 00";
    var v, posted, busy := form.Submit(shop, success);
    assert v == MissingName && posted == None;
    assert shop.page == Checkout && shop.cart == cart;

    form.firstName := "Léa";
    v, posted, busy := form.Submit(shop, failure);
    assert v.Ready? && posted.Some? && busy;
    assert shop.page == Checkout && shop.cart == cart;

    v, posted, busy := form.Submit(shop, success);
    assert shop.page == Success && shop.cart == [];
    assert !form.isLoading;
  }
}
