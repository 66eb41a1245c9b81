/** The authentication gate in front of the checkout page. */
module Auth {
  import opened Wrappers
  import opened ShoppingCart
  import Catalog

  /** The server-side session of one browser; `userId` is set by a successful
      login and is absent otherwise. The only value ever stored there is a
      database object id, which is always truthy, so "truthy" is modelled as "present". */
  datatype Session = Session(userId: Option<string>)

  /** What the gate middleware does with a request: pass it on (`next()`) or redirect it. */
  datatype Gate = Next | Redirect(location: string)

  /** What a gated route sends back: a redirect, or the checkout page rendered over the cart. */
  datatype Response = Redirected(location: string) | CheckoutPage(cart: seq<CartLine>, userId: string)

  const LoginPath: string := "/login"

  /** The `isAuthenticated` middleware. */
  function IsAuthenticated(session: Session): (g: Gate)
    ensures g == Next <==> session.userId.Some?
    ensures g != Next ==> g == Redirect(LoginPath)
  {
    if session.userId.Some? then Next else Redirect(LoginPath)
  }

  /** The checkout route: the gate, then the cart rendered for the logged-in user. */
  function Checkout(session: Session, cart: seq<CartLine>): (r: Response)
    ensures r.CheckoutPage? <==> session.userId.Some?
    ensures r.CheckoutPage? ==> r.cart == cart && Some(r.userId) == session.userId
    ensures r.Redirected? ==> r.location == LoginPath
  {
    match IsAuthenticated(session)
    case Next => CheckoutPage(cart, session.userId.value)
    case Redirect(location) => Redirected(location)
  }

  /** Whatever the cart holds, checkout without a login goes to the login page and
      checkout after a login shows exactly that cart. */
  lemma CheckoutGated(cart: seq<CartLine>, userId: string)
    ensures Checkout(Session(None), cart) == Redirected(LoginPath)
    ensures Checkout(Session(Some(userId)), cart) == CheckoutPage(cart, userId)
  {
  }

  /** A logged-in visitor who adds restaurant 1 twice to an empty cart sees one
      Pizza Place line of quantity two at checkout. */
  lemma CheckoutAfterAddingTwice(userId: string)
    ensures Checkout(Session(Some(userId)), AfterAdd(AfterAdd([], Catalog.Restaurants, 1), Catalog.Restaurants, 1))
         == CheckoutPage([CartLine(1, "Pizza Place", Catalog.PizzaPlaceImage, 2)], userId)
  {
    Catalog.RestaurantsLookup(1);
    AddTwiceMakesOneLine([], Catalog.Restaurants, 1, Catalog.Restaurants[0]);
  }
}
