# Delivery storefront cart, modelled in Dafny

A model of the stateful core of a small food-ordering storefront (an
Express application): the fixed restaurant catalog and its lookup by id,
the process-wide shopping cart that the `/add-to-cart` and
`/update-quantity` handlers change in place, and the `isAuthenticated`
middleware that gates the checkout page.

- `wrappers.dfy` — `Wrappers.Option`, the result of a search (`undefined` on a miss).
- `catalog.dfy` — module `Catalog`: the `Restaurant` record, the three
  hard-coded entries `Restaurants`, and `Find`, the first entry with a given id.
- `cart.dfy` — module `ShoppingCart`: the `CartLine` record, the cart
  invariant `WellFormed` (one line per id, every line a copy of its catalog
  entry, every quantity at least 1), the specification functions
  `AfterAdd` and `AfterUpdate`, the lemmas about them, and class `Cart`,
  whose `lines` field is the cart and whose methods are the two handlers.
  Each handler returns the path it redirects to.
- `session.dfy` — module `Auth`: the session, the `isAuthenticated`
  gate and the gated checkout route.

Ids and quantities are integers. The source takes both as strings from
the request body and relies on JavaScript coercion; the model treats them
as parsed integers (see "Left out").

## Model

| member | source | states |
|---|---|---|
| Catalog.Find | app.js:130 | the result is absent exactly when no catalog entry has the id; otherwise it is the first entry carrying that id |
| Catalog.RestaurantsLookup | app.js:48-52 | the hard-coded catalog knows exactly ids 1, 2 and 3, and id n finds the n-th entry |
| ShoppingCart.NewLine | app.js:137 | a newly added line copies the catalog entry's id, name and image and has quantity 1 |
| ShoppingCart.LineIndex | app.js:133 | the position found is the first line with the id; absent exactly when no line has it |
| ShoppingCart.FindLine | app.js:147 | the linear search over the cart returns exactly the position `LineIndex` specifies |
| ShoppingCart.AddUnknownIsNoop | app.js:130-139 | adding an id that no catalog entry has leaves the cart unchanged |
| ShoppingCart.AddExistingIncrements | app.js:133-135 | adding an id that already has a line increments that line's quantity by exactly 1; length and all other lines unchanged |
| ShoppingCart.AddNewAppends | app.js:136-137 | adding a catalog id with no line appends one line at the end, copied from the entry with quantity 1; earlier lines unchanged |
| ShoppingCart.AddTwiceMakesOneLine | app.js:128-142 | two adds of the same catalog id to a cart without it yield exactly one new line, with quantity 2 |
| ShoppingCart.AddPreservesWellFormed | app.js:130-137 | adding keeps one line per id, every line a copy of its catalog entry, and every quantity at least 1 |
| ShoppingCart.UpdateIgnoredIsNoop | app.js:147-150 | setting a quantity that is not positive, or for an id with no line, leaves the cart unchanged |
| ShoppingCart.UpdateSetsQuantity | app.js:147-150 | a positive quantity for an id with a line overwrites only that line's quantity; length, order and other lines unchanged |
| ShoppingCart.UpdatePreservesWellFormed | app.js:147-149 | updating keeps the cart invariant, in particular every quantity stays at least 1 |
| ShoppingCart.CartNoLargerThanCatalog | app.js:133-137 | a cart with one line per catalog id never holds more lines than the catalog has entries |
| ShoppingCart.Cart.constructor | app.js:127 | the cart starts empty and well formed |
| ShoppingCart.Cart.AddToCart | app.js:128-142 | the handler turns the cart into `AfterAdd` of the old cart, keeps the invariant and the size bound, and redirects to `/` |
| ShoppingCart.Cart.UpdateQuantity | app.js:145-152 | the handler turns the cart into `AfterUpdate` of the old cart, keeps the invariant and the size bound, and redirects to `/checkout` |
| Auth.IsAuthenticated | app.js:54-60 | the request proceeds exactly when the session carries a user id; otherwise it is redirected to `/login` |
| Auth.Checkout | app.js:155-157 | the checkout page is rendered, over the cart as it is and the session's user id, exactly when the session carries a user id; otherwise the response redirects to `/login` |
| Auth.CheckoutGated | app.js:155-157 | for any cart, checkout without a login redirects to `/login` and checkout with a login shows that cart |
| Auth.CheckoutAfterAddingTwice | app.js:127-157 | a logged-in visitor who adds restaurant 1 twice to an empty cart sees one Pizza Place line of quantity 2 |

## Left out

- Express wiring (body parsing, static files, session middleware configuration, view rendering, `app.listen`): I/O plumbing. Rendering is modelled only as the data handed to the checkout view.
- MongoDB connection and the user and restaurant schemas: an external database.
- Registration and login: they only call the bcrypt hashing library and the Mongoose `save`/`findOne` calls, whose behaviour is not visible; email uniqueness is enforced by the database's unique index. A successful login is represented only by a session whose `userId` is present.
- Logout: `req.session.destroy` belongs to the session middleware.
- The payment page: it renders a fixed QR image path behind the same gate as checkout.
- models/user.js: a duplicate schema and `matchPassword`, which only forwards to bcrypt.
- The home page listing of the catalog: pure rendering of the constant `Restaurants`.
- Concurrency: the source's cart is one array shared by every visitor's requests; the model is one cart changed by one request at a time, and does not model interleavings or carts per session.
- JavaScript coercion: ids and quantities are integers. The loose `==` between the request's string id and the catalog id, `Number(...)` on the id in update-quantity, and storing the request's raw string as the new quantity (after which a later `+= 1` would concatenate strings) are not modelled.
- Number width: quantities are unbounded integers; JavaScript's double-precision arithmetic is not modelled.
- Auth.IsAuthenticated: "truthy" is modelled as "present"; a falsy user id (empty string, 0) cannot arise because login only stores a database object id.
