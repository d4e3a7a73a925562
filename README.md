# Canasta Campesina: a verified model of the marketplace rules

Canasta Campesina is a farm-produce marketplace. The backend is Express with
Mongoose; the admin screens are React components. This project models, in
Dafny, the parts of it whose behaviour can be stated exactly, and proves
properties of that model:

- **The catalogue listing** (`getProducts`):
  - It resolves category, producer and location names to ids.
  - It reconciles an explicit producer with the producers at a location.
  - It short-circuits to an empty page when a name does not resolve.
  - It tolerates lookup exceptions.
  - It ANDs a fixed `isAvailable: true` with the other filters and paginates.
  - The handler is an imperative method with early returns. It is proved
    equal to a declarative specification, and the listing properties are
    lemmas about that specification.
- **Product records.** The slug computed by the pre-save hook; the schema
  checks and defaults; and the image and tag handling in `createProduct`,
  `updateProduct` and `deleteProduct`.
- **Orders:**
  - The `createOrder` loop, which checks each item, snapshots its price,
    accumulates the total and saves the stock decrement before looking at
    the next item, with no rollback.
  - The `updateOrderStatus` state update.
  - The visibility rules of the order queries.
  - The `CC-<timestamp>-<0001>` order number.
- **The express-validator chains**, as predicates on strings, and
  `handleValidationErrors`.
- **The admin user endpoints:** the role whitelist, the self-delete guard and
  the paginated user list.
- **The three admin screens** (users, categories, locations). Their form
  validation, submit payloads and edit defaults are functions. Their handlers
  are methods of a class whose fields are the component state, and the list
  updates are append, replace-by-id and remove-by-id. The user form's e-mail
  regular expression is stated structurally.
- **The upload configuration:** the unanchored extension and mimetype
  filter, the generated file name, and the size and count limits.
- **The orphaned-image cleanup script:** a nested loop that builds the set of
  used file names, and a loop that deletes the other directory entries and
  counts them.

Several inputs are parameters of the model:

- Database contents are sequences and maps of records.
- `Date.now()` and `Math.random()` are natural-number parameters.
- The Mongo `$text` search and the express-validator library predicates
  (`isEmail`, `isMongoId`, `isFloat`, `isMobilePhone`) are opaque function
  parameters.
- `JSON.parse` of the tags field is a function parameter.
- A browser confirmation is a boolean, and an API response is a `Result`.

Module layout:

| file | module | models |
|---|---|---|
| wrappers.dfy | Wrappers, Ids | Option/Result, the JavaScript `value \|\| fallback` |
| text.dfy | Text | ASCII `toLowerCase`, `trim`, `split`/`join`, substring test, decimal rendering, `padStart` |
| paging.dfy | Paging | skip, `Math.ceil(total / limit)`, the skip/limit window |
| collections.dfy | Collections | filter, first match, replace-where, count, subsequence, newest-first order |
| product_model.dfy | ProductModel | backend/models/Product.js |
| product_listing.dfy, listing_properties.dfy | ProductListing, ListingProperties | `getProducts` |
| product_uploads.dfy | ProductUploads | images and tags in `createProduct`/`updateProduct`/`deleteProduct` |
| order_model.dfy | OrderModel | backend/models/Order.js |
| order_controller.dfy, order_properties.dfy | OrderController, OrderProperties | backend/controllers/orderController.js |
| validators.dfy | Validators | backend/utils/validators.js |
| user_controller.dfy | UserController | backend/controllers/userController.js |
| email.dfy | EmailPattern | the e-mail regular expression of UserManager.jsx |
| user_manager.dfy, category_manager.dfy, location_manager.dfy | UserManager, CategoryManager, LocationManager | the three admin components |
| uploads.dfy | Uploads | backend/config/multer.js |
| cleanup_images.dfy | CleanupImages | backend/scripts/cleanup-images.js |

Points where the code behaves differently from what a reader might expect.
For the first four points the model follows the code. The last two are
defects (see Findings): for each, the model states the code as written in
its own members. The rest of the model, including `ProductModel.Create`,
`ProductUploads.CreateProduct` and `ProductUploads.UpdateImages`, uses the
evidently intended behaviour:

- A location string with a comma may have more than two parts.
  `backend/controllers/productController.js:102` splits on every comma, and
  the query matches city and department against the first two trimmed parts
  only, ignoring the rest.
- An empty `isOrganic` or `isFeatured` parameter is not treated as absent.
  `backend/controllers/productController.js:200-206` tests `!== undefined`,
  so any present value other than `true`, including the empty string, means
  false.
- The empty page of a short-circuit has `hasPrevPage` false even on page 2
  and later (`backend/controllers/productController.js:59`, `:87`, `:143`,
  `:161`, `:177`), while a normal page computes it from the page number
  (`:237`).
- A lookup that throws is not an error. The inner `catch` blocks at
  `backend/controllers/productController.js:64`, `:92` and `:182` only log,
  so the filter is dropped and the request continues.
- The product image sub-schema does not declare `filename`; see Findings.
- `getOrderById` compares a populated user document with the caller's id;
  see Findings.

## Model

| member | source | states |
|---|---|---|
| ProductListing.GetProductsSpec | backend/controllers/productController.js:19-240 | the declarative listing that GetProducts is proved equal to; its properties are the ListingProperties lemmas: ShortCircuitIff, ListedProductsMatch, UnknownCategoryReadsOnce, UnknownProducerStopsReads, PaginationConsistent and the fault lemmas |
| ProductListing.GetProducts | backend/controllers/productController.js:19-240 | the handler with its early returns and mutable filter returns exactly the declarative listing specification, including the storage reads it issued |
| ProductListing.ApplyCategory | backend/controllers/productController.js:42-67 | the category block either extends the filter with the resolved id, leaves it alone when the lookup throws, or stops with an empty page when the name is unknown |
| ProductListing.ApplyProducer | backend/controllers/productController.js:70-95 | the same three outcomes for the producer name |
| ProductListing.ApplyLocation | backend/controllers/productController.js:98-184 | the location block's outcomes: unknown location or no producers stops; an explicit producer must be in the location set and is kept; otherwise the constraint becomes membership; a thrown lookup drops the filter |
| ProductListing.FinishListing | backend/controllers/productController.js:187-240 | price bounds, search and flags are added to the resolved filter, then the page is the skip/limit window of the matches with the computed pagination block |
| ProductListing.Matching | backend/controllers/productController.js:218-224 | the matched products are exactly the stored products satisfying every constraint, in stored order |
| ProductListing.FindCategoryByName | backend/controllers/productController.js:44-45 | a found category has that name; none is found iff no category has it |
| ProductListing.FindProducerByName | backend/controllers/productController.js:72-73 | a found producer has that name; none is found iff no producer has it |
| ProductListing.FindLocationBy | backend/controllers/productController.js:121-124 | a found location matches the parsed query; none is found iff no location matches |
| ProductListing.ProducersAt | backend/controllers/productController.js:125-129 | an id is listed iff some producer at that location has it |
| ProductListing.ParseLocation | backend/controllers/productController.js:102-125 | the location string as the query uses it; stated by ParseLocationSpec |
| ProductListing.ParseLocationSpec | backend/controllers/productController.js:102-117 | with a comma: city is the trimmed text before it, department the trimmed text up to the next comma, later parts ignored; without one: the trimmed token matched against city or department |
| ProductListing.SortDirection | backend/controllers/productController.js:215 | descending iff the sort order is absent (default `desc`) or exactly `desc`; not used by the listing, which pages the matches in stored order |
| ListingProperties.ComposedFilterShape | backend/controllers/productController.js:39-206 | every composed filter requires `isAvailable`, carries the resolved category, both price bounds as given, the search text when non-empty, and each flag as `value == "true"` when present |
| ListingProperties.ListedProductsMatch | backend/controllers/productController.js:39 | every listed product is stored, available and satisfies the composed filter, for any combination of parameters and faults |
| ListingProperties.ShortCircuitIff | backend/controllers/productController.js:42-181 | the empty-page short-circuit happens iff a name is unknown, the location has no producers, or the explicit producer is outside the location set |
| ListingProperties.UnknownCategoryReadsOnce | backend/controllers/productController.js:44-62 | an unknown category gives the empty page for the requested page, and no lookup runs after the category lookup |
| ListingProperties.UnknownProducerStopsReads | backend/controllers/productController.js:70-90 | when the category block lets the request through, an unknown producer name gives the empty page and the reads end at the producer lookup |
| ListingProperties.UnknownProducerReadsOnce | backend/controllers/productController.js:70-90 | with no category, an unknown producer gives the empty page after that one producer read |
| ListingProperties.ProducerReconciliation | backend/controllers/productController.js:128-150 | an explicit producer is kept as the single-producer constraint and lies in the location set; without one the constraint is membership in the set; with neither it is unconstrained |
| ListingProperties.ProducerBlockOnlyProducer | backend/controllers/productController.js:70-95 | the producer block changes no constraint other than the producer |
| ListingProperties.LocationBlockOnlyProducer | backend/controllers/productController.js:124-184 | the location block changes no constraint other than the producer |
| ListingProperties.CategoryFaultDropsFilter | backend/controllers/productController.js:64-66 | when the category lookup throws, the listing is the one without a category parameter |
| ListingProperties.ProducerFaultDropsFilter | backend/controllers/productController.js:92-94 | when the producer lookup throws, the listing is the one without a producer parameter |
| ListingProperties.LocationFaultDropsFilter | backend/controllers/productController.js:182-184 | when a location lookup throws, the listing is the one without a location parameter |
| ListingProperties.InvertedPriceRangeIsEmpty | backend/controllers/productController.js:188-192 | `priceMin > priceMax` gives an empty page with zero total and no error |
| ListingProperties.FlagFiltersListing | backend/controllers/productController.js:200-206 | a present `isOrganic`/`isFeatured` restricts the listing to products whose flag equals `value == "true"` |
| ListingProperties.PriceAndSearchFilterListing | backend/controllers/productController.js:188-197 | listed products lie within the given price bounds and match the search text |
| ListingProperties.PaginationConsistent | backend/controllers/productController.js:211-237 | at most `limit` products, `currentPage = page`, `totalPages = ceil(total/limit)`, hasNextPage iff page < totalPages, hasPrevPage iff page > 1 on a non-short-circuited listing |
| ListingProperties.NoFiltersListsAvailable | backend/controllers/productController.js:39 | without filter parameters the listing pages through exactly the available products |
| ListingProperties.SecondPageOfTwelve | backend/controllers/productController.js:211-237 | twelve matches, page 2, limit 5: products 6-10 and pagination (2, 3, 12, next, prev) |
| Paging.TotalPages | backend/controllers/productController.js:234 | the least page count covering the total: `n*limit >= total`, `(n-1)*limit < total`, zero iff the total is zero |
| Paging.Window | backend/controllers/productController.js:218-221 | the skip/limit slice: at most `limit` elements, the right length, each `xs[skip+k]` |
| Paging.HasNextIffNotLastPage | backend/controllers/productController.js:236 | `skip + returned < total` iff `page < ceil(total/limit)` |
| Paging.BeforeLastPage | backend/controllers/productController.js:234 | `page < ceil(total/limit)` iff `page*limit < total` |
| ProductUploads.BuildImages | backend/controllers/productController.js:304-312 | one image per upload, in order: url under `/uploads/products/`, alt `name - Imagen i+1`, primary exactly at index 0, filename, size and mimetype copied |
| ProductUploads.ExactlyOnePrimary | backend/controllers/productController.js:308 | a non-empty upload has exactly one primary image, the first |
| ProductUploads.AltTextsDistinct | backend/controllers/productController.js:307 | different image positions get different alt texts |
| ProductUploads.SplitTags | backend/controllers/productController.js:299 | every tag of the comma fallback is non-empty, trimmed and comma-free |
| ProductUploads.SplitTagsJoin | backend/controllers/productController.js:299 | splitting the comma-join of clean tags gives the tags back |
| ProductUploads.BlankTagsText | backend/controllers/productController.js:299 | a text of only commas and spaces gives no tags |
| ProductUploads.NormalizeTags | backend/controllers/productController.js:295-301 | a string tags field becomes the JSON list when it parses and the comma fallback otherwise; any other field is unchanged |
| ProductUploads.CreateProduct | backend/controllers/productController.js:290-317 | the created product has the normalised tags and a slug no stored product has; with uploads its images are built from them (the first primary), as cast by the corrected image sub-schema (Findings row 1; as written `filename` is dropped, see ProductModel.CastImageAsWritten); without, its images are the body's images as cast by the corrected image sub-schema (Findings row 1; as written `filename` is dropped, see ProductModel.CastImageAsWritten); it fails with validation errors iff the schema rejects the input, and with a duplicate slug iff the input is valid but its name slugs to a stored slug |
| ProductUploads.UpdateAltName | backend/controllers/productController.js:393 | the alt-text name is the new name when non-empty, else the stored name |
| ProductUploads.UpdateImages | backend/controllers/productController.js:376-399 | with files, the images are rebuilt, one per file (url `/uploads/products/` + filename, alt from the new or stored name, first primary) as cast by the corrected image sub-schema (Findings row 1; as written `filename` is dropped, see ProductModel.CastImageAsWritten); without, images are not part of the update |
| ProductUploads.StoredFilenames | backend/controllers/productController.js:379-387 | exactly the non-empty stored filenames are unlinked candidates |
| ProductUploads.UnlinkedOnUpdate | backend/controllers/productController.js:376-388 | an update unlinks the stored files only when new files arrive |
| ProductUploads.UnlinkedOnDelete | backend/controllers/productController.js:442-452 | a delete unlinks exactly the names that are a non-empty stored filename of some image |
| ProductModel.Slug | backend/models/Product.js:118-126 | the slug expression of the pre-save hook; stated by SlugWellFormed, SlugAlnums, SlugIdempotent and SlugEmptyIffNoAlnum |
| ProductModel.SlugWellFormed | backend/models/Product.js:120-123 | every slug uses only `[a-z0-9-]`, has no two adjacent hyphens, and neither starts nor ends with `-` |
| ProductModel.SlugAlnums | backend/models/Product.js:120-122 | the slug's alphanumerics are exactly the lowercased name's alphanumerics, in order |
| ProductModel.SlugIdempotent | backend/models/Product.js:120-123 | slugging a slug changes nothing |
| ProductModel.SlugEmptyIffNoAlnum | backend/models/Product.js:120-123 | the slug is empty iff the name has no ASCII letter or digit |
| ProductModel.Collapse | backend/models/Product.js:122 | the run-collapsing replace yields only `[a-z0-9-]` with no double hyphen and keeps the alphanumerics |
| ProductModel.PreSave | backend/models/Product.js:118-126 | the slug is recomputed iff the name was modified or the document is new; nothing else changes |
| ProductModel.ParseUnit | backend/models/Product.js:49-53 | a unit string parses iff it is one of the eight enum values, and back to the same string |
| ProductModel.ParseUnitName | backend/models/Product.js:49-53 | every unit's name parses back to that unit |
| ProductModel.SchemaErrors | backend/models/Product.js:8-53 | no error iff the trimmed name (≤ 100) and description (≤ 1000) are present, price ≥ 0, stock ≥ 0 and the unit is in the enum |
| ProductModel.Create | backend/models/Product.js:8-126 | creation fails with exactly the schema errors when there are any; a valid input whose trimmed name slugs to a stored slug fails on the unique `seo.slug` index; a created product is valid (rating in [0,5]), has the requested id, a fresh slug of its trimmed name, defaults isAvailable true, isOrganic and isFeatured false, rating (0,0), keeps the input's trimmed description, price, category, producer, stock, unit (its name is the input's), tags and createdAt the creation time, and its images are the input images as cast by the corrected image sub-schema (Findings row 1; as written `filename` is dropped, see ProductModel.CastImageAsWritten) |
| ProductModel.CreateKeepsSlugsDistinct | backend/models/Product.js:92-98 | storing a created product keeps the stored products' slugs pairwise distinct, as the unique index demands |
| ProductModel.AppendFreshSlug | backend/models/Product.js:92-98 | adding a product whose slug is not among the stored slugs keeps the slugs pairwise distinct |
| ProductModel.SameSlugRefused | backend/models/Product.js:92-98 | once a product is stored, a second valid input whose name has the same slug is refused |
| ProductModel.CastImage | backend/models/Product.js:36-43 | the corrected image cast keeps url, alt, primary flag and filename |
| ProductModel.CastImageAsWritten | backend/models/Product.js:36-43 | the image cast as declared keeps url, alt and primary flag and drops the undeclared filename |
| OrderController.OrderDb.CreateOrder | backend/controllers/orderController.js:130-199 | empty items are rejected with nothing touched; otherwise products and result are as the item-by-item specification says: the first failing item rejects with earlier decrements kept and no order stored; success stores the order numbered from the current count |
| OrderController.Process | backend/controllers/orderController.js:142-182 | the item-by-item specification of the loop: PlaceItems is proved to follow it, and PlacedLines, OutcomeStock, DecrementQuantities and StockNeverNegative state what it yields |
| OrderController.OrderDb.PlaceItems | backend/controllers/orderController.js:142-182 | the loop leaves order lines, total and stock exactly as the item-by-item specification says; on the first failing item it reports that error with the earlier decrements kept; the order store is untouched |
| OrderController.Check | backend/controllers/orderController.js:148-167 | an item passes iff its product exists, is available and has enough stock; failures are reported in that order |
| OrderProperties.PlacedLines | backend/controllers/orderController.js:169-177 | a placed order has one line per item in input order with the product's price snapshot, `subtotal = price*quantity`, and total = the sum of subtotals |
| OrderProperties.OutcomeStock | backend/controllers/orderController.js:145-183 | success decrements for every item; a rejection at item k keeps the decrements of items before k, which all passed, and item k fails its check against that stock |
| OrderProperties.DecrementQuantities | backend/controllers/orderController.js:180-181 | each product's stock falls by the total quantity requested of it, repeated products cumulatively; nothing else changes |
| OrderProperties.StockNeverNegative | backend/controllers/orderController.js:162-181 | starting from non-negative stock, no product's stock becomes negative |
| OrderProperties.PlacedOrderValid | backend/models/Order.js:24-43 | with validated quantities and non-negative prices, the created order meets the schema minimums |
| OrderProperties.PartialDecrementStays | backend/controllers/orderController.js:145-183 | ordering 2 of a product with stock 5 and then an unknown product rejects at item 1 with the stock left at 3 |
| OrderController.OrderDb.UpdateOrderStatus | backend/controllers/orderController.js:219-241 | an invalid status is rejected before the lookup; an unknown id is not found; otherwise only that order changes, to the new status from any status, with the delivery date set only on `delivered` |
| OrderController.SetStatus | backend/controllers/orderController.js:237-241 | the status is set; the delivery date becomes now on `delivered` and is unchanged otherwise; no other field changes |
| OrderController.FindOrder | backend/controllers/orderController.js:92 | the first order with the id, or none iff no order has it |
| OrderController.GetOrderById | backend/controllers/orderController.js:90-107 | the owner check as intended: not found iff no order has the id; forbidden iff a non-admin asks for an order whose owner is someone else; a found order has the id and is the viewer's own unless the viewer is admin; never a server error |
| OrderController.GetOrderByIdAsWritten | backend/controllers/orderController.js:90-107 | the owner check as written over the populated `user`: not found iff no order has the id; an admin is always served; for a non-admin a deleted owner is a server error, and otherwise the order is refused iff the owner document's text differs from the caller's id |
| OrderController.NonAdminNeverServedAsWritten | backend/controllers/orderController.js:102 | as written, a non-admin whose id is an ObjectId text is never served any order |
| OrderController.OwnOrderRefusedAsWritten | backend/controllers/orderController.js:102 | a customer asking for their own order is refused as written and served under the intended check |
| OrderProperties.VisibleOrdersSpec | backend/controllers/orderController.js:14-34 | the visible orders are exactly as many as the stored orders passing the visibility rule, and each is a stored order passing it |
| OrderController.GetOrders | backend/controllers/orderController.js:14-57 | the `getOrders` handler: visible orders newest first, paginated; stated by VisibleOrdersSpec, OrdersVisibleToViewer, AdminCountsAll and NewestFirstSorted |
| OrderProperties.OrdersVisibleToViewer | backend/controllers/orderController.js:14-48 | at most `limit` orders, `ceil(total/limit)` pages, each listed order stored, owned by a non-admin viewer, and of the requested status |
| OrderProperties.AdminCountsAll | backend/controllers/orderController.js:21-27 | an admin with no status filter counts every order |
| OrderProperties.NewestFirstSorted | backend/controllers/orderController.js:34 | listing a creation-ordered store newest first gives strictly decreasing creation times |
| OrderController.GetUserOrders | backend/controllers/orderController.js:64-83 | the `getUserOrders` handler: the caller's orders newest first; stated by UserOrdersAreOwnOrders |
| OrderProperties.UserOrdersAreOwnOrders | backend/controllers/orderController.js:64-67 | the caller's order list is the `getOrders` visibility rule for a non-admin caller |
| OrderModel.ParseStatus | backend/models/Order.js:44-48 | a status parses iff it is one of the six enum values, and back to the same string |
| OrderModel.ParsePaymentStatus | backend/models/Order.js:49-53 | a payment status parses iff it is one of the four enum values |
| OrderModel.ParsePaymentMethod | backend/models/Order.js:54-58 | a payment method parses iff it is one of the four enum values |
| OrderModel.ParseStatusName | backend/models/Order.js:44-48 | every status's name parses back to it |
| OrderModel.Pad4 | backend/models/Order.js:89 | `padStart(4, '0')` has length max(4, digits), all digits, numeric value n, and ends with n's digits |
| OrderModel.OrderNumberInjective | backend/models/Order.js:89 | equal order numbers come from equal timestamps and equal counts |
| OrderModel.OrderNumber | backend/models/Order.js:88-89 | the `CC-<timestamp>-<padded count>` number; stated by OrderNumberParts, OrderNumberInjective and Pad4 |
| OrderModel.OrderNumberParts | backend/models/Order.js:89 | an order number is `CC-` followed by the timestamp and the padded count separated by one hyphen |
| OrderModel.PreSave | backend/models/Order.js:86-92 | a number is assigned only to a new order; re-saving leaves the order as it was |
| OrderModel.ResaveKeepsNumber | backend/models/Order.js:87-90 | re-saving an order keeps its number whatever the later clock and count |
| OrderModel.NewOrder | backend/models/Order.js:39-58 | a new order is pending, payment pending, payment method defaulting to cash, numbered, with the given items and total and no delivery date |
| Validators.RegistrationErrors | backend/utils/validators.js:9-30 | no error iff the trimmed name length is in [2,100], the e-mail passes, the password has ≥ 6 characters plus a lowercase letter, an uppercase letter and a digit, and a given phone passes |
| Validators.PasswordRulesReportedSeparately | backend/utils/validators.js:20-24 | a short password missing a class gets both password errors, length first |
| Validators.ThreeClassesAccepted | backend/utils/validators.js:23 | a password on one line with a lowercase letter, an uppercase letter and a digit (such as `Abc123`) passes the class rule |
| Validators.MissingUpperRejected | backend/utils/validators.js:23 | a password with no uppercase letter (such as `abc123`) fails the class rule |
| Validators.SecondLineIgnored | backend/utils/validators.js:23 | the lookaheads do not cross a line break: classes on the second line do not count |
| Validators.LoginErrors | backend/utils/validators.js:33-42 | no error iff the e-mail passes and the password is non-empty |
| Validators.ProductErrors | backend/utils/validators.js:45-75 | no error iff trimmed name in [2,100], trimmed description in [10,1000], price passes, stock is an integer ≥ 0, ids pass, unit in the enum |
| Validators.ValidatorImpliesSchema | backend/utils/validators.js:45-75 | a body the product validator accepts also passes the schema checks |
| Validators.IntTextOfNat | backend/utils/validators.js:61 | the decimal rendering of a natural is an integer text of that value |
| Validators.NegativeStockRejected | backend/utils/validators.js:61 | `-1` fails `isInt({min: 0})` while `+0` and `007` pass |
| Validators.CategoryErrors | backend/utils/validators.js:78-95 | no error iff the trimmed name length is in [2,50] and a given description trims to ≤ 200 |
| Validators.ProducerErrors | backend/utils/validators.js:98-124 | no error iff trimmed name in [2,100], a given e-mail passes, the phone is non-empty after trim, the location id passes, a given description trims to ≤ 500 |
| Validators.LocationErrors | backend/utils/validators.js:127-143 | no error iff trimmed city and department lengths are in [2,100] and a given country trims to ≤ 100 |
| Validators.ItemErrors | backend/utils/validators.js:151-157 | no wildcard error iff every item satisfies the rule |
| Validators.OrderItemsErrors | backend/utils/validators.js:147-157 | no item error iff there is at least one item, each with a valid product id and an integer quantity ≥ 1 |
| Validators.AddressErrors | backend/utils/validators.js:159-177 | no address error iff street, city, department and phone are non-empty after trim |
| Validators.OrderErrors | backend/utils/validators.js:146-189 | no error iff the item, address, payment method (optional, one of four) and notes (≤ 500) rules all hold |
| Validators.AcceptedPaymentMethodParses | backend/utils/validators.js:179-182 | an accepted payment method is one the order schema accepts |
| Validators.HandleValidationErrors | backend/utils/validators.js:192-204 | responds 400 with exactly the errors iff there are any, and otherwise passes through |
| UserController.UserDb.UpdateUserRole | backend/controllers/userController.js:131-152 | a role other than user/admin is rejected before the lookup; an unknown id changes nothing; otherwise only that user's role changes |
| UserController.UserDb.DeleteUser | backend/controllers/userController.js:176-195 | an unknown id changes nothing; deleting oneself is refused and the user stays; otherwise exactly that user is removed |
| UserController.FindUser | backend/controllers/userController.js:142 | the first user with the id, or none iff no user has it |
| UserController.ByRoleSpec | backend/controllers/userController.js:17-20 | the role selection has as many users as the role counts (all users without a role), each a stored user of that role |
| UserController.GetUsers | backend/controllers/userController.js:13-51 | the `getUsers` handler: users of the role newest first, paginated; stated by GetUsersSpec, ByRoleSpec and DefaultPage |
| UserController.GetUsersSpec | backend/controllers/userController.js:13-42 | at most `limit` users, `currentPage = page`, total = the users of the role (all users when none is given), `ceil(total/limit)` pages, each listed user stored and of that role |
| UserController.DefaultPage | backend/controllers/userController.js:15 | with no parameters the page is the first ten users, newest first |
| UserManager.FilteredUsers | frontend/src/components/admin/UserManager.jsx:70-77 | an order-preserving subsequence holding a user iff the role matches exactly (or none chosen) and the name or e-mail contains the search text ignoring case |
| UserManager.NoFiltersShowAll | frontend/src/components/admin/UserManager.jsx:70-77 | with no role and no search every user is shown |
| UserManager.SearchIgnoresCase | frontend/src/components/admin/UserManager.jsx:73-75 | searching `ana` finds a user named `ANA` |
| UserManager.ValidateForm | frontend/src/components/admin/UserManager.jsx:116-133 | accepts iff the trimmed name is non-empty and the e-mail matches the pattern; a blank name is reported first |
| EmailPattern.EmailFormat | frontend/src/components/admin/UserManager.jsx:127 | the e-mail regular expression as a predicate; stated by FormatIsTrimmed, FormatEnds, FormatOfParts, BlankRejected, LeadingSpaceRejected and the concrete examples |
| EmailPattern.FormatIsTrimmed | frontend/src/components/admin/UserManager.jsx:127 | an address matching the pattern is non-empty and has no surrounding blanks, so the separate blank check is implied |
| EmailPattern.DottedAddressAccepted | frontend/src/components/admin/UserManager.jsx:127 | `ana.perez@correo.com.co` matches |
| EmailPattern.MissingTopDomainRejected | frontend/src/components/admin/UserManager.jsx:127 | `ana@correo` does not match |
| EmailPattern.LeadingSpaceRejected | frontend/src/components/admin/UserManager.jsx:127 | the pattern is tested untrimmed: any value starting with whitespace, such as ` ana@correo.com`, does not match |
| EmailPattern.FormatOfParts | frontend/src/components/admin/UserManager.jsx:127 | a valid local part, `@` and a valid domain make a matching address |
| EmailPattern.BlankRejected | frontend/src/components/admin/UserManager.jsx:122-130 | a value that trims to nothing never matches the pattern, so the blank check and the format check never disagree about it |
| EmailPattern.FormatEnds | frontend/src/components/admin/UserManager.jsx:127 | a matching address starts and ends with a word character |
| UserManager.SubmitData | frontend/src/components/admin/UserManager.jsx:149-155 | the payload has name, e-mail and phone trimmed, the active flag and the address as entered |
| UserManager.EditForm | frontend/src/components/admin/UserManager.jsx:177-195 | the edit form copies name, e-mail and role; it is active unless the user is explicitly inactive |
| UserManager.EditSubmitRoundTrip | frontend/src/components/admin/UserManager.jsx:149-195 | editing a trimmed user and submitting sends back its name, e-mail and phone, and the form is accepted iff the name is non-empty and the e-mail matches |
| UserManager.EmptyFormRejected | frontend/src/components/admin/UserManager.jsx:269-286 | the reset form is rejected for its missing name |
| UserManager.ReplaceById | frontend/src/components/admin/UserManager.jsx:160-162 | same length; entries with the id become the update, all others unchanged |
| UserManager.RemoveById | frontend/src/components/admin/UserManager.jsx:256 | no entry with the id remains; every other entry remains, in order |
| UserManager.UserManager.HandleSubmit | frontend/src/components/admin/UserManager.jsx:138-172 | a rejected form sends nothing and changes nothing; with no user selected it records the null-access error and changes nothing else; otherwise it sends the update, on success replaces the user, resets the form and hides it, and on failure keeps the rows, form, selection and visibility and records the message |
| UserManager.UserManager.SendUpdate | frontend/src/components/admin/UserManager.jsx:145-171 | with no user selected the `editingUser._id` access fails and its message is recorded with nothing sent; otherwise the trimmed update is sent, success replaces the user by id and resets the form, failure keeps the state and records the message |
| UserManager.UserManager.HandleRoleChange | frontend/src/components/admin/UserManager.jsx:200-231 | lowering one's own role, or not confirming, sends nothing and changes nothing; otherwise the role request is sent and the reply replaces that user or records the error |
| UserManager.UserManager.HandleDelete | frontend/src/components/admin/UserManager.jsx:236-264 | deleting oneself, or not confirming, sends nothing and changes nothing; otherwise the delete is sent and success removes that user |
| UserManager.UserManager.HandleEdit | frontend/src/components/admin/UserManager.jsx:177-195 | the chosen user is being edited with its edit form, and the edit form is shown |
| UserManager.UserManager.ResetForm | frontend/src/components/admin/UserManager.jsx:269-286 | the form returns to its defaults, nothing is being edited and the edit form is hidden |
| CategoryManager.ValidateForm | frontend/src/components/admin/CategoryManager.jsx:81-98 | accepts iff the trimmed name length is in [2,50]; blank, short and long names get their own messages |
| CategoryManager.SubmitData | frontend/src/components/admin/CategoryManager.jsx:114-118 | name and description are trimmed; the icon is sent as chosen |
| CategoryManager.EditForm | frontend/src/components/admin/CategoryManager.jsx:149-159 | a missing or empty description becomes `''` and a missing icon `fas fa-tag` |
| CategoryManager.AcceptedFormOnServer | frontend/src/components/admin/CategoryManager.jsx:81-118 | a form the screen accepts passes the server's category rules iff its trimmed description has at most 200 characters |
| CategoryManager.EditSubmitRoundTrip | frontend/src/components/admin/CategoryManager.jsx:114-159 | editing a trimmed category and submitting sends its name, its description or `''`, and its icon or the default |
| CategoryManager.EmptyFormRejected | frontend/src/components/admin/CategoryManager.jsx:191-200 | the reset form is rejected for its missing name |
| CategoryManager.ReplaceById | frontend/src/components/admin/CategoryManager.jsx:124-126 | same length; only entries with the id are replaced |
| CategoryManager.RemoveById | frontend/src/components/admin/CategoryManager.jsx:178 | no entry with the id remains; the others remain in order |
| CategoryManager.CategoryManager.HandleSubmit | frontend/src/components/admin/CategoryManager.jsx:103-144 | a rejected form sends nothing; otherwise update or create is sent with the trimmed data, success replaces the edited entry or appends the new one at the end and resets, failure keeps the rows, form, selection and visibility and records the message |
| CategoryManager.CategoryManager.HandleDelete | frontend/src/components/admin/CategoryManager.jsx:164-186 | not confirming sends nothing; otherwise the delete is sent and success removes that category |
| CategoryManager.CategoryManager.HandleEdit | frontend/src/components/admin/CategoryManager.jsx:149-159 | the chosen category is being edited with its defaults filled in, and the form is shown |
| CategoryManager.CategoryManager.ResetForm | frontend/src/components/admin/CategoryManager.jsx:191-200 | the form returns to its defaults, nothing is being edited and the form is hidden |
| LocationManager.ValidateForm | frontend/src/components/admin/LocationManager.jsx:91-100 | city and department checks: a blank city is reported, then a blank department; accepts iff both are non-blank |
| LocationManager.ServerAcceptedFormAccepted | frontend/src/components/admin/LocationManager.jsx:91-100 | a form whose payload the server accepts is accepted by the screen |
| LocationManager.OneLetterCityOnlyPassesForm | frontend/src/components/admin/LocationManager.jsx:91-100 | a one-letter city passes the screen but fails the server's length rule |
| LocationManager.SubmitData | frontend/src/components/admin/LocationManager.jsx:137-140 | city, department and country are trimmed |
| LocationManager.EditForm | frontend/src/components/admin/LocationManager.jsx:181-195 | a missing or empty country becomes `Colombia` |
| LocationManager.EditSubmitRoundTrip | frontend/src/components/admin/LocationManager.jsx:137-195 | editing a trimmed location and submitting sends its city, department and its country or `Colombia` |
| LocationManager.EmptyFormRejected | frontend/src/components/admin/LocationManager.jsx:227-240 | the reset form is rejected for its missing city |
| LocationManager.ReplaceById | frontend/src/components/admin/LocationManager.jsx:156-158 | same length; only entries with the id are replaced |
| LocationManager.RemoveById | frontend/src/components/admin/LocationManager.jsx:214 | no entry with the id remains; the others remain in order |
| LocationManager.LocationManager.HandleSubmit | frontend/src/components/admin/LocationManager.jsx:126-176 | a rejected form sends nothing; otherwise update or create is sent with the trimmed data, success replaces or appends at the end and resets, failure keeps the rows, form, selection and visibility and records the message |
| LocationManager.LocationManager.Send | frontend/src/components/admin/LocationManager.jsx:133-172 | update (when editing) or create is sent with the trimmed data; success replaces by id or appends at the end and resets the form; failure keeps the rows, form, selection and visibility and records the message |
| LocationManager.LocationManager.HandleDelete | frontend/src/components/admin/LocationManager.jsx:200-222 | not confirming sends nothing; otherwise the delete is sent and success removes that location |
| LocationManager.LocationManager.HandleEdit | frontend/src/components/admin/LocationManager.jsx:181-195 | the chosen location is being edited with country defaulted, and the form is shown |
| LocationManager.LocationManager.ResetForm | frontend/src/components/admin/LocationManager.jsx:227-240 | the form returns to empty fields with country `Colombia`, nothing is being edited and the form is hidden |
| Uploads.FileFilter | backend/config/multer.js:39-49 | accepts iff the lowercased extension and the mimetype as given both contain one of jpeg, jpg, png, gif, webp; otherwise rejects with the fixed message |
| Uploads.UppercaseMimetypeRejected | backend/config/multer.js:42 | the mimetype is not lowercased: one with no lowercase letters is rejected |
| Uploads.NoExtensionRejected | backend/config/multer.js:41 | a name without an extension is rejected |
| Uploads.UnanchoredExtensionAccepted | backend/config/multer.js:40-41 | the extension is lowercased and the test unanchored: any plain stem with `.JPGX` and a mimetype containing `jpeg` is accepted |
| Uploads.DotFileRejected | backend/config/multer.js:41 | `.png` has no extension in the `path.extname` sense and is rejected |
| Uploads.ExtName | backend/config/multer.js:33 | the extension is empty or a dot followed by no dot or slash, and empty when the last segment has no dot |
| Uploads.ExtNameOfJoin | backend/config/multer.js:33 | a dot-free stem followed by an extension has exactly that extension |
| Uploads.StoredName | backend/config/multer.js:30-35 | the stored name starts with `product-` |
| Uploads.StoredNameKeepsExtension | backend/config/multer.js:30-35 | the stored name's extension is the original's, verbatim |
| Uploads.Admitted | backend/config/multer.js:39-58 | what multer lets through: at most five files, each within 5 MB and accepted by the filter; stated by AdmittedNamesPassFilter |
| Uploads.AdmittedNamesPassFilter | backend/config/multer.js:30-57 | admitted files get one stored name each, in order; each keeps its file's extension, which the filter accepts |
| CleanupImages.CollectUsed | backend/scripts/cleanup-images.js:15-26 | the nested loops build exactly the set of non-empty image filenames over all products |
| CleanupImages.ImageNames | backend/scripts/cleanup-images.js:20-24 | a name is used by a product iff one of its images has that non-empty filename |
| CleanupImages.UsedNames | backend/scripts/cleanup-images.js:16-26 | a name is used iff some product uses it |
| CleanupImages.UploadDir.CleanupOrphanedImages | backend/scripts/cleanup-images.js:7-46 | the directory keeps exactly the entries in the used set and the count is the number of entries outside it |
| CleanupImages.UploadDir.DeleteOrphans | backend/scripts/cleanup-images.js:29-37 | the deletion loop removes every listed entry outside the used set and counts them |
| CleanupImages.OrphansOfListing | backend/scripts/cleanup-images.js:30-31 | the orphans of a listing of the directory are its entries outside the used set |
| CleanupImages.AsWrittenUploadsAreOrphans | backend/models/Product.js:36-43 | with the schema as declared, a created product's images keep no filename, so its uploads are not in the used set |
| CleanupImages.AsWrittenCleanupDeletesUploads | backend/scripts/cleanup-images.js:29-37 | with the schema as declared, the cleanup deletes every entry, including the product's uploads |
| CleanupImages.CreatedUploadsAreKept | backend/scripts/cleanup-images.js:16-31 | with filename kept, every upload of a stored product is in the used set and survives cleanup |

## Left out

- Database execution:
  - `find`, `countDocuments`, `populate` and the `$text` ranking are not modelled.
  - The collections are sequences and maps; text search is an opaque predicate.
  - Sorting is not executed. The listing pages the matches in stored order, and `SortDirection` computes the direction the sort would use.
  - Newest-first (`createdAt: -1`) on a store kept in creation order is modelled as `Collections.Reverse`.
  - Ties between equal timestamps are not modelled.
- Floating point: prices are integers. `parseFloat` of the price bounds and `parseInt` of page and limit are not modelled. Page and limit arrive parsed, as naturals ≥ 1. `isFloat` is an opaque predicate.
- Validator library predicates: `isEmail`, `normalizeEmail`, `isMobilePhone('es-CO')`, `isMongoId` and `isFloat` are opaque predicates. The icon rule of the category chain is not modelled.
- Unicode: `toLowerCase` folds ASCII letters only, and `trim` removes an ASCII blank set.
- Express and React plumbing:
  - Status codes are error constructors. Response bodies, the `catch → 500` branches and JSX rendering are not modelled.
  - `alert` is not modelled.
  - `window.confirm` is a boolean, and an API reply is a `Result`.
- Clock, randomness and ordering:
  - `Date.now()` and `Math.random()` are parameters.
  - The race between `countDocuments` and the save that the order number depends on is not modelled.
  - The order of multer's own checks (size, count, then the filter) is not modelled; `Uploads.Admitted` states the combined condition.
- Filesystem: the upload directory is a set of names, and `readdirSync` a listing of it. A listed name is assumed to be an entry. Existence checks before `unlinkSync` are not modelled, and neither are deletion failures.
- The error path of `createProduct` that unlinks uploads after a failed `Product.create` is not modelled. `findByIdAndUpdate`'s merge of the update into the stored document is not modelled either: only the image fields of an update are.
- `getProductById`, `getFeaturedProducts`, `deleteOrder`, `getUserById`, `updateUser` and the other CRUD handlers are not part of this model.
- `getPublicProfile` is not modelled: User.js is not part of this model, and a user record here is the public fields.
- Location coordinates: the latitude and longitude parsing, the range checks and the submit steps that attach or delete them (LocationManager.jsx:102-117 and 142-150) involve floating point and are not modelled.
- LocationManager.ValidateForm: states only the city and department checks, because the coordinate checks are left out as above.
- Uploads.ExtName: names ending in `/` are not modelled as `path.extname` treats them. Only the last `/`-separated segment is examined.
- Uploads.StoredName: states the prefix and, through `StoredNameKeepsExtension`, the extension. The timestamp and random parts are `NatToString` of the given naturals.
- UserManager.UserManager.HandleRoleChange: the current user's id is a constant of the component (`me`). How `currentUser.id` relates to the record's `_id` is not modelled.
- UserManager.UserManager.HandleDelete: the same `me` constant of the component stands for `currentUser.id`.
- OrderController.OrderDb.CreateOrder: item quantities are not rechecked. The route runs the order validator first, which demands integer quantities ≥ 1, and the controller itself has no quantity check.
- Order items are not populated, and `trackingNumber`, `zipCode` and `notes` are not modelled beyond being carried.

## Findings

| source | as written | input that shows it | evidently intended | confidence | as-written member | corrected member |
|---|---|---|---|---|---|---|
| backend/models/Product.js:36-43 | the image sub-schema declares `url`, `alt` and `isPrimary` but not `filename`, so Mongoose's strict mode drops the `filename` that `createProduct` and `updateProduct` set; the cleanup script then finds no used names and deletes every uploaded image, and update and delete unlink nothing | create a product with one upload `product-1-2.jpg`, then run the cleanup with that file in the directory: it is deleted | `filename` declared in the sub-schema and kept, so uploads referenced by a product survive cleanup | not executed | CleanupImages.AsWrittenUploadsAreOrphans, CleanupImages.AsWrittenCleanupDeletesUploads (over ProductModel.CastImageAsWritten) | CleanupImages.CreatedUploadsAreKept (over ProductModel.CastImage, used by ProductModel.Create) |
| backend/controllers/orderController.js:102 | the owner check compares `order.user.toString()` with the caller's id, but the `pre(/^find/)` hook of `backend/models/Order.js:95-99` has populated `order.user` with the owner's document, whose `toString()` is its inspect text and never an ObjectId string; a deleted owner populates to null and `.toString()` throws | a customer (role `user`) requests one of their own orders by id: the response is 403, and 500 if their account was deleted | compare the owner's id (`order.user._id.toString()`), so a customer can read their own order | not executed | OrderController.GetOrderByIdAsWritten, OrderController.NonAdminNeverServedAsWritten, OrderController.OwnOrderRefusedAsWritten | OrderController.GetOrderById |
