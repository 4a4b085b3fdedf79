/** The four pages of the storefront and the buttons that move between
    them: the header's back and cart buttons, the products page's "view
    cart" button, the cart page's "finalize" and "continue shopping"
    buttons and the success page's "back to home" button. */
module Navigation {
  import opened Catalog
  import Cart

  datatype Page = Products | CartPage | Checkout | Success

  /** The header title of each page. */
  function Title(page: Page): (title: string)
    ensures title != ""
  {
    match page
    case Products => "Nos produits"
    case CartPage => "Mon Panier"
    case Checkout => "Paiement"
    case Success => "Confirmation"
  }

  lemma TitlesDistinct(p: Page, q: Page)
    ensures Title(p) == Title(q) <==> p == q
  {
    if p != q {
      assert Title(p)[0] != Title(q)[0];
    }
  }

  /** The header's back button: none on the products page; checkout goes
      back to the cart, every other page to the products. */
  function Back(page: Page): (r: Option<Page>)
    ensures r.None? <==> page == Products
    ensures r.Some? ==> r.value in {Products, CartPage}
    ensures page == Checkout ==> r == Some(CartPage)
    ensures page in {CartPage, Success} ==> r == Some(Products)
  {
    if page == Products then None
    else Some(if page == Checkout then CartPage else Products)
  }

  /** There is no history: from any page, at most two presses of back
      reach the products page. */
  lemma BackReachesProducts(page: Page)
    ensures page == Products || Back(page) == Some(Products) ||
            (Back(page).Some? && Back(Back(page).value) == Some(Products))
  {
  }

  /** The buttons that change page. */
  datatype Button =
    | HeaderBack       // the header's left button, when it is a back button
    | HeaderCart       // the header's cart icon
    | ViewCart         // the products page's floating "view cart" button
    | Finalize         // the cart page's "finalize the order" button
    | ContinueShopping // the cart page's "continue shopping" button
    | BackToHome       // the success page's "back to home" button

  /** The page a button leads to, or None when the page does not show that
      button. The header is on every page; the view-cart button shows when
      the count is positive; the finalize button only beside a non-empty
      cart; "continue shopping" shows in both forms of the cart page. */
  function Target(page: Page, cart: seq<Line>, button: Button): (r: Option<Page>)
    ensures r != Some(Success)
    ensures r == Some(Checkout) ==> button == Finalize && cart != []
  {
    match button
    case HeaderBack => Back(page)
    case HeaderCart => Some(CartPage)
    case ViewCart => if page == Products && Cart.Count(cart) > 0 then Some(CartPage) else None
    case Finalize => if page == CartPage && cart != [] then Some(Checkout) else None
    case ContinueShopping => if page == CartPage then Some(Products) else None
    case BackToHome => if page == Success then Some(Products) else None
  }

  /** No button leads to the success page, and only the finalize button
      beside a non-empty cart leads to checkout; the cart icon leads to the
      cart from every page and the success page's button leads home. */
  lemma TargetRules(page: Page, cart: seq<Line>, button: Button)
    ensures Target(page, cart, button) != Some(Success)
    ensures Target(page, cart, button) == Some(Checkout) <==>
              button == Finalize && page == CartPage && cart != []
    ensures Target(page, cart, HeaderCart) == Some(CartPage)
    ensures page == Success ==> Target(page, cart, BackToHome) == Some(Products)
  {
  }

  /** On a valid cart, the view-cart button shows exactly when the cart has
      a line. */
  lemma ViewCartShown(cart: seq<Line>)
    requires Cart.Valid(cart)
    ensures Target(Products, cart, ViewCart).Some? <==> cart != []
  {
    Cart.CountBounds(cart);
  }
}
