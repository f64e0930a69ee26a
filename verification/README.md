# SupermarketApp session cart — a Dafny model

SupermarketApp is a small Express shop: users browse a product catalog and fill
a shopping cart kept in their session, and checkout shows a subtotal, an 8% tax
and a total. This project models the logic of that application as pure
functions over immutable values:

- the session **cart**: an ordered sequence of product snapshots, each with a
  quantity. Its operations are add-or-overwrite, set quantity, remove, clear,
  place order, and the checkout totals;
- the two **route guards** (`checkAuthenticated`, `checkAdmin`) and the way
  routes chain them in front of a handler;
- the **registration validator**;
- **login**: the credential match and the redirect by role;
- **profile update**: its validation and the exact session fields it rewrites.

A handler is a function from the session (an optional user and an optional
cart) and the parsed request to a `Reply`: the new session and an outcome tag.
The tag is `Pass` (the middleware calls `next()`), `Redirect(path)` or
`Status(code)`. Whatever the database answers is an input: `Option<Product>`
for the product lookup, `Store<seq<User>>` for the user list, and `Write` for
the profile update.

Modules: `Outcomes` (wrapper types), `Entities` (Product, CartLine, User,
Session, and the cart invariants), `Search` (`Array.prototype.find`),
`CartEngine` (the cart sequence operations and the subtotal), `Guards` (the
middleware of `app.js`), `App` (the cart routes of `app.js`),
`ProductsController` (`addToCart`) and `UsersController` (`loginUser` and
`updateProfile`).

Some behaviours of the code are easy to misread; the model follows the code:

- A cart line's quantity is not always positive. `addToCart` computes
  `parseInt(q) || 1`, which keeps negative numbers
  (`ProductsController.AddStoresNegativeQuantity`). Only the update route
  refuses non-positive quantities.
- Remove drops every line with the id (`filter`), not just one.
  `CartEngine.WithoutUniqueIsDeleteAt` shows the two agree while ids are unique.
- Update changes only the first line with the id (`find`).
- Re-adding a product replaces only the quantity. The stored product snapshot
  is not refreshed.
- `updateProfile` reads `req.session.user.id` without a guard. With no user in
  the session this throws, and Express answers 500. The model gives
  `Status(500)`. No route in `app.js` mounts `updateProfile` (or
  `profileView`), so nothing in the application reaches this handler as it
  stands. The `Status(500)` case describes the handler as if it were mounted
  without `checkAuthenticated` in front of it.
- Login compares with `===`. An email or password the browser did not send is
  `undefined`, and that equals no stored string. The model passes both as
  `Option<string>`, where `None` matches no row.
- `updateProfile` copies `address` and `contact` from the form even when they
  were not sent. The session user then holds `undefined` for them, which the
  model writes as `None`.

## Model

| member | source | states |
|---|---|---|
| Search.FirstIndex | SupermarketAppMVC/app.js:105 | `find` returns the first index satisfying the predicate (nothing before it satisfies it), and returns nothing exactly when no element does |
| CartEngine.Find | SupermarketAppMVC/controllers/ProductsController.js:121 | the cart lookup by product id returns the first line with that id, and returns nothing exactly when the cart has no such line |
| CartEngine.SetQuantity | SupermarketAppMVC/app.js:105-106 | assigning to the found line's quantity changes only that line's quantity; the length and every product snapshot stay; a cart without the id is unchanged |
| CartEngine.SetQuantityUnique | SupermarketAppMVC/app.js:105-106 | in a cart with unique ids, every line with the id gets the new quantity and every other line is untouched |
| CartEngine.SetQuantityKeepsUniqueIds | SupermarketAppMVC/app.js:105-106 | setting a quantity keeps the at-most-one-line-per-product invariant |
| CartEngine.SetQuantityKeepsPositive | SupermarketAppMVC/app.js:106 | setting a positive quantity keeps every quantity positive |
| CartEngine.Without | SupermarketAppMVC/app.js:116 | the filter keeps a line iff its id differs from the removed one; removing an absent id leaves the cart unchanged |
| CartEngine.WithoutConcat | SupermarketAppMVC/app.js:116 | removal distributes over concatenation, so the kept lines stay in their original relative order |
| CartEngine.WithoutUniqueDropsOne | SupermarketAppMVC/app.js:116 | with unique ids, removing a present id shortens the cart by exactly one line |
| CartEngine.WithoutUniqueIsDeleteAt | SupermarketAppMVC/app.js:116 | with unique ids, filtering out a present id equals deleting the single line at its position: the other lines keep their order |
| CartEngine.WithoutKeepsUniqueIds | SupermarketAppMVC/app.js:116 | removal keeps ids unique |
| CartEngine.WithoutKeepsPositive | SupermarketAppMVC/app.js:116 | removal keeps every quantity positive |
| CartEngine.SubtotalAppend | SupermarketAppMVC/app.js:130-131 | the subtotal of two carts end to end is the sum of their subtotals |
| CartEngine.SubtotalNonNegative | SupermarketAppMVC/app.js:130-131 | non-negative prices and quantities give a non-negative subtotal |
| CartEngine.SubtotalReplace | SupermarketAppMVC/app.js:131 | replacing one line moves the subtotal by the difference of the two lines' amounts |
| CartEngine.AmountDifference | SupermarketAppMVC/app.js:131 | a new quantity changes a line's amount by its price times the quantity change |
| CartEngine.SubtotalRequantify | SupermarketAppMVC/app.js:131 | giving one line a new quantity moves the subtotal by that line's price times the quantity change |
| CartEngine.SubtotalAfterSetQuantity | SupermarketAppMVC/app.js:105-106 | updating the first line for an id to quantity q changes the subtotal by that line's price times (q minus its old quantity) |
| CartEngine.SubtotalAfterWithout | SupermarketAppMVC/app.js:116 | with unique ids, removing a present product takes exactly its line's amount off the subtotal |
| Guards.CheckAuthenticated | SupermarketAppMVC/app.js:36-40 | passes iff the session has a user; otherwise redirects to /login |
| Guards.CheckAdmin | SupermarketAppMVC/app.js:43-47 | passes iff there is a user and the user's role is exactly "admin"; otherwise redirects to /shopping |
| Guards.Route | SupermarketAppMVC/app.js:69-72 | a guarded route runs its handler iff every guard passes; otherwise it answers with the first failing guard's redirect and leaves the session unchanged |
| Guards.AdminChainIsCheckAdmin | SupermarketAppMVC/app.js:69 | passing the admin guard implies passing the login guard, so the admin route chain reaches the handler exactly when `checkAdmin` passes |
| Guards.ValidateRegistration | SupermarketAppMVC/app.js:50-61 | 400 iff any of the six fields is empty (this is checked before the password); otherwise redirect to /register iff the password is shorter than 6; otherwise pass |
| App.ViewCart | SupermarketAppMVC/app.js:91-94 | the cart page shows the stored cart, or the empty cart when none is stored |
| App.UpdateCart | SupermarketAppMVC/app.js:100-110 | only the first line with the id gets the quantity, and only when both parses succeed and the quantity is positive; otherwise the cart is unchanged; length, order and snapshots are always kept; the user goes to /cart |
| App.RemoveFromCart | SupermarketAppMVC/app.js:113-119 | with a parsed id the stored cart is exactly the `filter` of the old one (`CartEngine.Without`, whose order and multiplicity `CartEngine.WithoutConcat` fixes); afterwards no line has the id; a line is kept iff it had another id; an absent id, or an id that parsed to NaN, leaves the cart unchanged |
| App.ClearCart | SupermarketAppMVC/app.js:122-125 | the cart is empty afterwards whatever it held, and the user is unchanged |
| App.PlaceOrder | SupermarketAppMVC/app.js:138-143 | placing the order leaves exactly the session that clearing the cart leaves (empty cart, same user), so the subtotal is 0; it redirects to /shopping whatever the cart held, and nothing is persisted |
| App.CheckoutTotals | SupermarketAppMVC/app.js:128-135 | the front-to-back loop's subtotal is the sum of price times quantity; tax is subtotal times 8/100; total is subtotal plus tax; an empty or absent cart gives all zeros; non-negative lines give 0 <= subtotal <= total |
| App.AbsentCartReadsAsEmpty | SupermarketAppMVC/app.js:92-129 | the view, update, remove and checkout routes treat a missing cart exactly like an empty one |
| App.CartRoutesKeepUniqueIds | SupermarketAppMVC/app.js:100-143 | update, remove, clear and place-order all keep the unique-id invariant |
| App.CartRoutesKeepPositiveQuantities | SupermarketAppMVC/app.js:100-119 | update and remove never leave a non-positive quantity in a cart that had none |
| App.RemovePresentProduct | SupermarketAppMVC/app.js:113-119 | with unique ids, removing a product in the cart deletes its single line, keeps the other lines in order, and takes its amount off the subtotal |
| App.CheckoutExample | SupermarketAppMVC/app.js:130-133 | 2 × 10.00 plus 3 × 5.00 gives subtotal 35.00, tax 2.80 and total 37.80 |
| ProductsController.EffectiveQuantity | SupermarketAppMVC/controllers/ProductsController.js:110 | NaN and 0 become 1; any other parsed integer is kept, negatives included; the result is never 0 |
| ProductsController.AddOrOverwrite | SupermarketAppMVC/controllers/ProductsController.js:121-127 | an existing id gets the new quantity on its first line: same length, snapshot kept, other lines untouched; an absent id appends a snapshot line at the end; afterwards the line `find` returns for the id has exactly the quantity |
| ProductsController.AddToCart | SupermarketAppMVC/controllers/ProductsController.js:108-131 | a failed lookup leaves the session unchanged and redirects to /shopping; otherwise a missing cart starts empty, the product is stored with the effective quantity, the user is unchanged and the redirect is to /cart |
| ProductsController.AddKeepsUniqueIds | SupermarketAppMVC/controllers/ProductsController.js:121-127 | add-or-overwrite keeps at most one line per product id |
| ProductsController.AddTwiceLastWins | SupermarketAppMVC/controllers/ProductsController.js:121-127 | adding a product twice equals adding it once with the second quantity: the quantity is overwritten, not summed |
| ProductsController.AddToEmptyCart | SupermarketAppMVC/controllers/ProductsController.js:119-127 | adding to an empty or missing cart gives exactly one line, with the effective quantity |
| ProductsController.AddStoresNegativeQuantity | SupermarketAppMVC/controllers/ProductsController.js:110-126 | a parsed quantity of -3 is stored as is, so add can break the positive-quantity invariant |
| UsersController.Login | SupermarketAppMVC/controllers/UsersController.js:21-46 | succeeds iff the store answered, both email and password were sent, and some user has exactly equal email and password; on failure (including a store error) the outcome is /login and the session is unchanged; on success the session user is the first match in list order, the cart is kept, admins go to /inventory and others go to /shopping |
| UsersController.LoginWithMissingFieldFails | SupermarketAppMVC/controllers/UsersController.js:31-36 | a login without an email or without a password never logs anyone in, even against rows holding empty strings, and leaves the session unchanged |
| UsersController.LoginLandsOnAllowedPage | SupermarketAppMVC/controllers/UsersController.js:38-44 | after a successful login the user passes `checkAuthenticated`, and `checkAdmin` passes iff they were sent to /inventory |
| UsersController.UpdateProfile | SupermarketAppMVC/controllers/UsersController.js:119-151 | a missing or empty username or email, or a failed write, leaves the session unchanged; address and contact may be empty or missing; a successful write sets exactly username, email, address and contact (a missing one becomes absent), and keeps id, role, password and the cart |
| UsersController.UpdateProfileKeepsAccess | SupermarketAppMVC/controllers/UsersController.js:143-146 | a profile update never changes what either guard decides |
| UsersController.UpdateProfileIdempotent | SupermarketAppMVC/controllers/UsersController.js:143-146 | submitting the same profile form twice leaves the same session as submitting it once |
| UsersController.LoginAfterProfileUpdate | SupermarketAppMVC/controllers/UsersController.js:143-146 | once the update is saved, logging in with the new email and the unchanged password finds the updated user, provided no earlier row has that email and password |

## Left out

- SQL persistence: product CRUD, the inventory dashboard aggregates, `listCustomers`, `deleteCustomer`, `registerUser`'s insert and `profileView`. They are single queries into a database the model does not contain. Store answers enter the model only as inputs.
- The reviews routes (`SupermarketAppMVC/app.js:146-173`): I/O against a database handle with no logic to state.
- `parseInt` itself. Its result is an input `Option<int>`, with `None` standing for NaN. Integers are unbounded, so JavaScript's loss of precision above 2^53 is not modelled.
- The product lookup in `addToCart` is an input `Option<Product>`. `None` stands for both a store error and an empty result, which the source treats the same way.
- Registration form fields: a field the browser did not send is modelled as the empty string. `validateRegistration` only tests truthiness, and both are falsy. The login and profile forms instead use `Option<string>`, because their values are compared or stored.
- Password length is the length of a `seq<char>`, not of JavaScript's UTF-16 code units.
- Prices and amounts are exact `real`s, and the tax rate is exactly 8/100. IEEE floating-point rounding of `0.08` and of the running sum is not modelled.
- Flash messages, template rendering, the multer upload configuration, session and cookie settings, logout (`session.destroy`) and the server start: framework plumbing.
- Asynchronous callback ordering. Each handler is one atomic step from the session it reads to the session it writes.
