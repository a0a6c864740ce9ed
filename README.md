# Order and catalog bookkeeping of the GOODINSIDE shop backend, in Dafny

This project models the request handlers of an Express/Mongoose e-commerce
backend as state transitions over in-memory collections, and proves what each
handler does to them.

- **Orders** (`controllers/orderController.js`, schema `models/Order.js`):
  placing an order prices every line from the catalog's sale price (never
  from the price the caller wrote on the line), stops at the first unknown
  product, formats an order number `ORD-<now>-<count + 1>` and inserts exactly
  one order; listing, fetching, status update and deletion are
  find-or-not-found steps.
- **Products** (`controllers/productController.js`): anonymous callers see only
  active products; names are unique on creation; the partial update mixes
  "falsy keeps the old value" (`||`) with "any defined value overwrites"
  (`typeof`); the public id of an image is cut out of its URL.
- **Users** (`controllers/authController.js`): unique phone numbers on
  registration, login with ordered failures, guarded password change,
  profile fields updated only when non-empty, and the user listing filtered
  by the caller's stored role.

Files: `common.dfy` (identifiers, optional fields, outcomes, JavaScript
truthiness), `decimal.dfy` (`${n}` for integers and its inverse),
`image_url.dfy`, `order_model.dfy`, `product_controller.dfy`,
`order_controller.dfy`, `auth_controller.dfy`. Each collection is a class
holding a `map` from id to record; the handlers that write are methods with
`modifies this` whose postconditions give the whole new collection; the
read-only handlers are functions.

Modelling conventions:

- A request or document field that may be absent is an `Option`; `None` is
  JavaScript's `undefined`. `x || y` and `typeof x !== 'undefined'` are
  written out over these (`TruthyString`, `OrNumber`, `IfDefined`, ...).
- Money and quantities are integers. A JavaScript NaN (a missing sale price or
  quantity multiplied into the total) is a `None` total, which the order
  schema's Number cast refuses, so the save fails with `Internal`.
- Handler answers are `Ok(body)`, `NotFound(message)`, `Rejected(message)`
  (the 400 and 401 answers) and `Internal` (every `catch`).
- The clock (`Date.now()`), the id a new document receives, the password
  comparison (`matches`), and the URL returned by an image upload are
  parameters. An inserted id is required to be fresh.
- One request reads one instant: `createOrder`'s single `now` stands for the
  `Date.now()` of the order number, the `createdAt`/`updatedAt` defaults
  filled in by `new Order`, and the timestamp hook at save, so the model ties
  the order number's stamp to `createdAt`, which the source does not
  guarantee across clock reads.
- Handlers reached only through `verifyToken` take the caller's `Token`
  (`{ id, role }`); product reads take an optional token.

What the handlers do not do, although an order service might be expected
to:

- `createOrder` performs no address lookup, delivery estimate, cart
  deletion, transaction-id handling or missing-field check of its own; the
  only checks are the product lookups and the schema's validators.
- `getOrders` returns every order to every caller; there is no role filter.
- The order schema declares no `orderNumber` path, so under Mongoose's
  default strict mode the number the handler formats is neither stored nor
  echoed. `CreateOrder` returns it as a separate out-parameter so that its
  format can be stated; the stored `Order` has no such field.
- `updateOrder` permits any transition between enum statuses.
- An empty order list is a successful empty answer, not a 404.

## Model

| member | source | states |
|---|---|---|
| `Decimal.NatToString` | controllers/orderController.js:20 | the rendering of a number in the order number is a non-empty digit string without leading zeros |
| `Decimal.ParseNatToString` | controllers/orderController.js:20 | reading the rendered digits back gives the number |
| `OrderController.OrderNumber` | controllers/orderController.js:20 | the order number begins with `ORD-` and is at least seven characters long: two non-empty renderings and a separator follow the prefix (their content is `OrderNumberRoundTrip`) |
| `OrderController.OrderNumberRoundTrip` | controllers/orderController.js:19-20 | an order number parses back into the creation time and one more than the number of existing orders |
| `OrderController.OrderNumberInjective` | controllers/orderController.js:19-20 | two equal order numbers come from the same time and the same order count |
| `OrderController.FirstMissing` | controllers/orderController.js:11-15 | the position of the first line item whose product is not in the catalog; none exactly when all products are found |
| `OrderController.TallyItems` | controllers/orderController.js:10-17 | the pricing loop answers not-found naming the first missing product, and otherwise the sum of catalog sale price times quantity |
| `OrderController.TotalDefined` | controllers/orderController.js:16 | the total is a number exactly when every line has a quantity and every product ordered has a sale price |
| `OrderController.TotalIgnoresCallerPrice` | controllers/orderController.js:10-17 | requests that agree on products and quantities get the same total whatever prices the caller wrote |
| `OrderController.AddAmount` | controllers/orderController.js:16 | the running sum is a number exactly when both operands are, and is then their sum (NaN otherwise) |
| `OrderController.LineAmount` | controllers/orderController.js:16 | a line's amount is a number exactly when the catalog sale price and the quantity are given, and is then their product; the caller's line price never enters |
| `OrderController.Total` | controllers/orderController.js:10-17 | the accumulated total: zero for no lines, each line adding its catalog amount, NaN once any line's amount is NaN |
| `OrderController.TotalAppend` | controllers/orderController.js:10-17 | the total of concatenated item lists is the sum of their totals |
| `OrderController.SingleLineTotal` | controllers/orderController.js:16 | two units of a product selling at 100 cost 200, whatever the caller's price |
| `OrderController.AdmissibleOrder` | controllers/orderController.js:22-35 | once all products are found, the order is saved exactly when the address is given, the payment method is absent or in the enum, every line has quantity and price, and every product has a sale price |
| `OrderController.OrderFieldsOf` | controllers/orderController.js:22-33 | the document handed to `new Order`: the caller as user, the line items' product, quantity and price, the computed total, the request's payment method and address, no status |
| `OrderController.OrderStore.CreateOrder` | controllers/orderController.js:5-41 | missing items fail; a missing product is not-found with nothing stored; otherwise the order number is formatted and exactly one order is added for the caller, priced from the catalog, with the lines copied in order, status Ordered, the given payment method and address; a schema failure stores nothing |
| `OrderController.OrderStore.GetOrders` | controllers/orderController.js:44-58 | every stored order, whoever the caller is |
| `OrderController.OrderStore.GetOrderById` | controllers/orderController.js:61-73 | the stored order, or not-found exactly when the id is absent |
| `OrderController.OrderStore.UpdateOrder` | controllers/orderController.js:76-92 | absent id is not-found, store unchanged; a truthy status outside the enum fails the save, store unchanged; otherwise status replaced only when a truthy one is sent, updatedAt set to now, nothing else changed |
| `OrderController.OrderStore.DeleteOrder` | controllers/orderController.js:95-107 | absent id is not-found, store unchanged; otherwise exactly that order is removed |
| `OrderModel.ParseStatus` | models/Order.js:31-35 | a status string is accepted exactly when it names one of Ordered, Processing, Shipped, Delivered, Cancelled |
| `OrderModel.StatusNameRoundTrip` | models/Order.js:31-35 | every status's name is accepted as that status |
| `OrderModel.ParsePaymentMethod` | models/Order.js:36-40 | a payment method is accepted exactly when it names Credit Card, PayPal or Cash on Delivery |
| `OrderModel.PaymentMethodNameRoundTrip` | models/Order.js:36-40 | every payment method's name is accepted as that method |
| `OrderModel.Admissible` | models/Order.js:4-44 | the schema's validators: user, total and address required, every line item complete, status and payment method absent or in their enums |
| `OrderModel.ToItems` | models/Order.js:4-17 | line items validate exactly when each has product, quantity and price, and are then kept in order |
| `OrderModel.Create` | models/Order.js:20-54 | a document is saved exactly when user, total and address are present, every item is complete and the enum paths are absent or members; status defaults to Ordered, payment method to Cash on Delivery, createdAt and updatedAt to now |
| `ProductController.VisibleTo` | controllers/productController.js:24-26 | anonymous callers see a product only when its isActive is true; authenticated callers see all |
| `ProductController.Merged` | controllers/productController.js:132-154 | name, description, the three prices, category and isCombo keep the old value when the new one is falsy; isTaxInclusive, taxPercentage and isActive take any defined value; ingredients and image change only when supplied; updatedBy is the caller |
| `ProductController.NoUpdateSetsZeroPrice` | controllers/productController.js:134-136 | no update can set a price to 0 (JSON bodies, no file) |
| `ProductController.NoUpdateClearsCombo` | controllers/productController.js:138 | no update clears isCombo (JSON bodies, no file) |
| `ProductController.DeactivationHides` | controllers/productController.js:141 | an update with isActive false hides the product from anonymous callers |
| `ProductController.MergedIdempotent` | controllers/productController.js:132-154 | applying the same update twice equals applying it once |
| `ProductController.EmptyUpdateStampsOnly` | controllers/productController.js:132-146 | an empty body changes only updatedBy |
| `ProductController.ImageToDestroy` | controllers/productController.js:149-151 | an image is destroyed exactly when the product has one, by its URL's public id |
| `ProductController.Catalog.GetProducts` | controllers/productController.js:20-28 | anonymous callers get exactly the active products, authenticated callers all of them |
| `ProductController.Catalog.GetProductById` | controllers/productController.js:49-60 | found exactly when the list for the same caller contains the id; otherwise not-found |
| `ProductController.Catalog.NameTaken` | controllers/productController.js:88 | some stored product already carries the name |
| `ProductController.Catalog.CreateProduct` | controllers/productController.js:80-116 | a taken name is rejected with nothing stored; otherwise one product is added with the fields verbatim, ingredients defaulting to empty, created and updated by the caller |
| `ProductController.Catalog.UpdateProduct` | controllers/productController.js:119-163 | absent id is not-found, store unchanged; otherwise only that product changes, to its merge with the body, and a replaced image's public id is destroyed |
| `ProductController.Catalog.DeleteProduct` | controllers/productController.js:166-186 | absent id is not-found, store unchanged; otherwise exactly that product is removed and its image's public id destroyed |
| `ImageUrl.LastSegment` | controllers/productController.js:150 | the part after the last '/': a suffix with no '/', preceded by '/' when shorter than the URL |
| `ImageUrl.BeforeFirstDot` | controllers/productController.js:150 | the part before the first '.': a prefix with no '.', followed by '.' when shorter |
| `ImageUrl.PublicId` | controllers/productController.js:176 | a public id contains neither '/' nor '.' |
| `ImageUrl.PublicIdOfStoredImage` | controllers/productController.js:150 | a URL `<location>/<id>.<extension>` yields back `<id>` |
| `AuthController.Compare` | controllers/authController.js:69 | the comparison answers exactly when both the candidate and the stored password are strings |
| `AuthController.PhoneTaken` | controllers/authController.js:25 | some stored user already carries the phone number |
| `AuthController.UserStore.FindByPhone` | controllers/authController.js:25 | finds the one user with the phone number, exactly when there is one |
| `AuthController.UserStore.Register` | controllers/authController.js:21-56 | a taken phone number is rejected with nothing stored; otherwise one user with the given phone, password and role is added and the token is its id and role; phone numbers stay unique |
| `AuthController.UserStore.Login` | controllers/authController.js:58-91 | unknown phone fails "User not exist!", a refused comparison is internal, a mismatch fails "Incorrect password", otherwise the token is the user's id and role |
| `AuthController.LoginFindsOwner` | controllers/authController.js:62-80 | a stored user presenting a matching password logs in as that user |
| `AuthController.UserStore.ChangePassword` | controllers/authController.js:93-120 | a missing password is rejected before any lookup; absent user is not-found; a non-matching current password leaves the store; otherwise only the password changes, to the new one |
| `AuthController.UserStore.UpdateProfile` | controllers/authController.js:122-158 | absent user is not-found; email and name change only when non-empty, image when a file was uploaded, nothing else |
| `AuthController.WithoutPassword` | controllers/authController.js:169-172 | the user as `select('-password')` returns it: every field but the password |
| `AuthController.UserStore.GetUser` | controllers/authController.js:160-178 | an Admin gets every user, any other caller only their own record, never a password; an absent caller is not-found |
| `AuthController.GetUserIgnoresTokenRole` | controllers/authController.js:162-168 | the answer depends on the stored role, not on the token's role |

## Left out

- Image storage: the Cloudinary/multer upload configuration, uploads and
  `destroy` calls are foreign services. The model returns the public id a
  handler would destroy and takes the uploaded file's URL as a parameter.
- Password hashing (in the user model, which is not part of this model) and
  bcrypt comparison: the stored password is kept as given and matching is
  the parameter `matches`.
- JWT signing and expiry; the token is the payload `{ id, role }`. A signing
  error thrown inside the callback is not modelled.
- `discountPercentage` in the two product reads: floating-point division and
  `toFixed` rounding.
- `JSON.parse` of `ingredients`: the model takes the parsed list; malformed
  JSON, which would end in the catch-all error, is not modelled.
- Mongoose `populate` projections in the order reads (joins done by the
  library).
- Atomicity of counting orders before saving one: the steps run
  sequentially; concurrent requests are not modelled.
- The product and user schemas (`models/Product.js`, `models/User.js` are not
  part of this model): their defaults, casts and validators are not
  modelled, so product and user creation succeed whenever the handler's own
  check passes.
- JSON `null` values, non-string or non-number body values and Mongoose's
  casting of them; invalid ObjectId strings (a cast error, hence a 500).
- Multipart bodies, where every field arrives as a string (so "0" and "false"
  are truthy): the model assumes typed JSON bodies. A request carrying a file
  is necessarily multipart (`upload.single('image')`), so the `upload` cases
  of `Merged` and `UpdateProduct` combine a file with typed fields that never
  arrive together.
- NoUpdateSetsZeroPrice and NoUpdateClearsCombo hold for JSON bodies only: a
  multipart body can send the truthy strings "0" and "false".
- ChangePassword: `user.matchPassword(currentPassword)` is a method of the user
  model, which is not part of this model; it is assumed to behave like
  `bcrypt.compare(candidate, this.password)`, throwing when no password is
  stored, which gives the `Internal` branch.
- Order numbers from timestamps of 10^21 ms or more, which JavaScript would
  write in exponent notation.
- `deleteOrder` calls `order.remove()`, which Mongoose 7 removed; the
  Mongoose version is not part of the source, and the model removes the
  order.
- `models/Cart.js`, the routes, `server.js` and the `middleware/auth` code:
  Express wiring and a cart model that no modelled handler uses.
- HTTP status codes and JSON response shapes.
