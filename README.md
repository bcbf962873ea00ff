# Campus food ordering: a verified model of the ordering rules

This project models the business rules of a campus food-ordering service. Students browse the menus of campus vendors and fill a cart. They then place orders, either directly or by checking out the cart. Vendors maintain their menu and shop profile and move each order through its statuses. Each order carries a delivery code that is shown at pickup.

In the source, these rules live in Express route handlers over Mongoose documents. A few small decision functions live in the React client. The model replaces the database with in-memory maps keyed by document id:

- users;
- menu items;
- orders.

Each handler becomes a function from its inputs to a `Response`. A response is either `Ok(value)` or `Err(status, messages)`, where the status is the HTTP code of the failure. Where a handler changes a document in place, there is also a method on a class that owns the collection or the embedded cart. Each such method is proved against the function.

One module per source file:

| module | models |
|---|---|
| `Common` | ids, `Option`, `Response`, the handlers' messages, and the JavaScript string operations they rely on (`trim`, ASCII `toLowerCase`/`toUpperCase`, `includes`) |
| `MenuItemSchema` | the menu item document: category enum, bounds, defaults |
| `UserSchema` | the user document and its validators (e-mail by role, phone, student id, shop, schedule times), the embedded cart with `calculateCartTotals`, and the user collection |
| `OrderSchema` | the order document: status and payment enums, bounds, defaults, the delivery-code pre-save hook, and the order collection with its unique index |
| `OrderRoutes` | order creation (pricing, tax, estimate), cancel, the status update with its progression guard, the access checks of the detail and delivery-code lookups, and which GET handler a path reaches |
| `CartRoutes` | the student cart: view, add, update, remove, clear and checkout |
| `MenuRoutes` | the public menu listing and the vendor's create, update, delete and availability toggle |
| `VendorRoutes` | vendor detail and vendor menu with their grouping by category, the dashboard counts, and the profile update |
| `AuthRoutes` | the registration checks and the account they build, and login (password comparison as a parameter) |
| `AuthContext` | the client's authentication reducer and `hasRole` |
| `ProtectedRoute` | the client's route guard |
| `VendorsPage` | the client's vendor search and "open only" filter |

The order status guard is modelled exactly as the code writes it. A target is refused only when its index in `pending, confirmed, preparing, ready, completed` is not greater than the current one. `ready` is exempt from that test. So the guard accepts pending to preparing, pending to completed, and completed to ready. A described design with a strict one-step progression and terminal completed orders would refuse those. The model follows the code, and `OrderRoutes.TransitionAsWritten` states the differences.

## Model

| member | source | states |
|---|---|---|
| MenuItemSchema.ParseCategory | backend/models/MenuItem.js:28-35 | the category check accepts a string only when it names the category it returns |
| MenuItemSchema.CategoryRoundTrip | backend/models/MenuItem.js:31-34 | each of the six categories is accepted under its own name and under no other string |
| MenuItemSchema.NewMenuItem | backend/models/MenuItem.js:9-43 | a new item is available by default and stores its name and description trimmed |
| MenuItemSchema.NewMenuItemSchema | backend/models/MenuItem.js:9-49 | a new item passes the schema exactly when its trimmed name is 2..100, its trimmed description 1..500, its price 1..10000 and its preparation time 5..120 |
| MenuItemSchema.SchemaErrors | backend/models/MenuItem.js:9-49 | the validators report nothing exactly when every bound holds, which for trimmed strings is the schema predicate |
| MenuItemSchema.SchemaValid | backend/models/MenuItem.js:9-49 | the schema as a predicate: trimmed name 2..100, trimmed description 1..500, price 1..10000, preparation time 5..120 (a definition; `SchemaErrors` and `NewMenuItemSchema` relate it to the validators and to a new item) |
| UserSchema.ParseRole | backend/models/User.js:36-43 | only "student" and "vendor" are roles |
| UserSchema.ValidateEmail | backend/routes/auth.js:9-12 | the check accepts exactly the language of `^[^\s@]+@[^\s@]+\.[^\s@]+$` |
| UserSchema.ValidateCUETEmail | backend/routes/auth.js:14-16 | `/^[a-zA-Z0-9._%+-]+@cuet\.ac\.bd$/` as a predicate: a non-empty local part from that class followed by the exact domain (a definition; `CuetEmailIsEmail` and `CuetEmailCaseSensitive` are about it) |
| UserSchema.ValidatePhone | backend/routes/auth.js:18-20 | the phone pattern as a predicate: eleven digits starting 013..019, or the same after "+88" (a definition; `PhoneCountryCode` and `PhoneNoSpace` are about it) |
| UserSchema.ValidatePassword | backend/routes/auth.js:22-24 | at least six characters (a definition) |
| UserSchema.ValidTime | backend/models/User.js:140-142 | the schedule time pattern as a predicate (a definition; `TimeLanguage` proves it equal to the clock readings) |
| UserSchema.SchemaValid | backend/models/User.js:4-165 | the user schema as a predicate: name, e-mail by role, password, phone, student id for students, and the shop constraints for vendors (a definition; `AuthRoutes.AccountSchemaErrors` relates it to the validators) |
| UserSchema.CuetEmailIsEmail | backend/routes/auth.js:9-16 | every address accepted as a CUET address is also a valid address in the general sense |
| UserSchema.CuetEmailCaseSensitive | backend/routes/auth.js:14-16 | the domain match is case-sensitive: `@cuet.ac.bd` is accepted and `@CUET.AC.BD` is refused |
| UserSchema.LowerKeepsCuetEmail | backend/models/User.js:16-23 | the schema's lower-casing keeps a valid student address valid |
| UserSchema.LowerKeepsEmail | backend/models/User.js:16-25 | the schema's lower-casing keeps a valid vendor address valid |
| UserSchema.EmailNoSpace | backend/models/User.js:12-25 | a valid address contains no white space, so trimming leaves it unchanged |
| UserSchema.PhoneNoSpace | backend/routes/auth.js:18-20 | a valid phone number contains no white space, so `phone.trim()` leaves it unchanged |
| UserSchema.PhoneCountryCode | backend/models/User.js:48-50 | "+88" in front of a valid local number gives a valid number, and every valid number starting with "+88" arises that way |
| UserSchema.TimeLanguage | backend/models/User.js:140-142 | the schedule pattern accepts exactly the clock readings 0:00..23:59, written with a two-digit hour or, below ten, a one-digit hour |
| UserSchema.TimeExamples | backend/models/User.js:135-155 | the defaults 09:00 and 22:00 are accepted; 24:00, 12:60 and 123:00 are refused |
| UserSchema.ShopChange | backend/models/User.js:118-161 | a valid vendor account stays valid with a new shop exactly when that shop satisfies the vendor-info constraints |
| UserSchema.InsertKeepsIndexes | backend/models/User.js:12-58 | adding an account whose e-mail and student id are unused keeps both unique indexes |
| UserSchema.ReplaceKeepsIndexes | backend/models/User.js:12-58 | replacing an account by one with the same e-mail and student id keeps both unique indexes |
| UserSchema.StoreKeepsAccountsValid | backend/models/User.js:4-165 | storing an account that satisfies the schema keeps every stored account valid |
| UserSchema.Directory.constructor | backend/models/User.js:12-58 | the empty user collection satisfies the schema and both unique indexes |
| UserSchema.TotalsAppend | backend/models/User.js:176-180 | both cart totals distribute over concatenation of lines |
| UserSchema.TotalsReplace | backend/models/User.js:176-180 | replacing one line moves each total by the difference of that line's terms |
| UserSchema.TotalsRemove | backend/models/User.js:176-180 | removing one line takes its terms out of both totals |
| UserSchema.TotalQuantityBounds | backend/models/User.js:88-93 | lines with quantities in 1..50 hold at least one and at most fifty units per line in total |
| UserSchema.LineValid | backend/models/User.js:88-97 | a cart line's schema: quantity 1..50 and instructions of at most 200 characters (a definition) |
| UserSchema.CartInvariant | backend/routes/cart.js:121-155 | what the add handler keeps: valid lines, all from one vendor, one line per menu item, distinct line ids (a definition; `CartRoutes.AddKeepsInvariant`, `UpdateKeepsInvariant`, `SpliceKeepsInvariant` and `LiveLinesKeepInvariant` prove it is kept) |
| UserSchema.Cart.constructor | backend/models/User.js:104-115 | a new cart has no lines and zero totals |
| UserSchema.Cart.CalculateTotals | backend/models/User.js:176-180 | the lines are kept, totalItems becomes Σ quantity, totalAmount becomes Σ price × quantity, and the time is stamped |
| OrderSchema.ParseStatus | backend/models/Order.js:41-48 | the status enum accepts a string only when it names the status returned |
| OrderSchema.StatusRoundTrip | backend/models/Order.js:41-48 | each of the six statuses is accepted under its own name and under no other |
| OrderSchema.ParsePaymentStatus | backend/models/Order.js:49-56 | the payment enum accepts a string only when it names the payment status returned |
| OrderSchema.PaymentStatusRoundTrip | backend/models/Order.js:49-56 | each payment status is accepted under its own name and under no other |
| OrderSchema.SchemaValid | backend/models/Order.js:14-75 | the order schema as a predicate: every line has a name, quantity 1..50 and a price ≥ 0, the total is at least 1, the estimate 5..120 and the notes at most 500 (a definition; `OrderBook.Insert`/`Save` check it before storing) |
| OrderSchema.NewOrder | backend/models/Order.js:41-75 | a new order is pending, payment pending, has an estimate of 30 unless one is given, and has no delivery code yet |
| OrderSchema.AssignCode | backend/models/Order.js:87-92 | only a new order without a code gets one, the generated code upper-cased; nothing else in the order changes |
| OrderSchema.InsertOutcome | backend/models/Order.js:14-92 | the first save succeeds exactly when the order passes the schema and its assigned code is unused; it then stores the coded order, otherwise 500 |
| OrderSchema.OrderBook.Insert | backend/models/Order.js:71-92 | saving a new order stores it under its id with its code and keeps schema validity and code uniqueness, or changes nothing |
| OrderSchema.OrderBook.Save | backend/models/Order.js:14-70 | re-saving an order replaces it exactly when the schema accepts it, otherwise 500 and nothing changes |
| OrderRoutes.Tax | backend/routes/orders.js:82 | the tax is the whole number nearest to 5% of the subtotal (20·t within [-10, 10) of the subtotal) |
| OrderRoutes.TaxBounds | backend/routes/orders.js:82 | the tax of a non-negative subtotal is non-negative and never exceeds a positive subtotal |
| OrderRoutes.SubtotalPositive | backend/routes/orders.js:69-84 | lines with positive prices and quantities have a subtotal of at least their number |
| OrderRoutes.LinesSubtotal | backend/routes/orders.js:69-78 | Σ price × quantity over the lines, accumulated in order (a definition; `PriceItems` and `CartRoutes.CheckoutMatchesCartTotal` are proved against it) |
| OrderRoutes.EstimatedTime | backend/routes/orders.js:96 | the estimate is the larger of 15 and 10 + 3 × the number of units |
| OrderRoutes.EstimateWithinSchema | backend/routes/orders.js:96 | the estimate lies in the schema's 5..120 exactly when the order has at most 36 units |
| OrderRoutes.SeedOrderTotals | backend/utils/seedDatabase.js:267-270 | the sample order's 2 × 60 + 1 × 120 gives subtotal 240, tax 12 and total 252 |
| OrderRoutes.PricedLine | backend/routes/orders.js:69-78 | an order line takes the requested item and quantity with the menu item's current name and price |
| OrderRoutes.ProcessItems | backend/routes/orders.js:53-79 | the items succeed exactly when every request names an available item of the vendor with quantity ≥ 1; the lines are then those requests priced, in order; otherwise 400 |
| OrderRoutes.FirstFailureDecides | backend/routes/orders.js:53-67 | once a prefix of the requests fails, the whole list fails with the same answer |
| OrderRoutes.PriceItems | backend/routes/orders.js:50-79 | the loop computes the item processing and accumulates the subtotal Σ price × quantity of the resulting lines |
| OrderRoutes.CreateErrors | backend/routes/orders.js:20-32 | no error exactly when a vendor id is given and the item list is non-empty |
| OrderRoutes.CreateOutcome | backend/routes/orders.js:15-97 | 422 exactly for failed request checks; then 404 for a vendor that is not an active vendor, 400 for a closed one, and otherwise an order exactly when every item request is priceable, the item check's own 400 being passed through; a built order has lines priced from the menu, subtotal = Σ price × quantity, tax = round(5%), delivery fee 0, total = subtotal + tax, the unit-based estimate, and pending status |
| OrderRoutes.CreateTooManyUnitsFails | backend/routes/orders.js:96-99 | a direct order with 37 or more units cannot be saved, because its estimate exceeds 120 minutes |
| OrderRoutes.CreateWithinLimitsIsValid | backend/routes/orders.js:86-99 | an order built from valid menu items, with at most 36 units, per-line quantities ≤ 50 and notes ≤ 500, passes the order schema |
| OrderRoutes.CreateOrder | backend/routes/orders.js:15-113 | the order is stored under the new id exactly when building and saving succeed, a failed save answers 500, and otherwise the collection is unchanged |
| OrderRoutes.CancelOutcome | backend/routes/orders.js:195-204 | 404 without the order, 400 for an order that is neither pending nor confirmed; success exactly from pending or confirmed, changing only the status (to cancelled) and the reason (default "Cancelled by student") |
| OrderRoutes.PartyOrder | backend/routes/orders.js:190-193 | the lookup by id and caller (student for cancel, vendor for the status update, orders.js:289-292) finds the order exactly when it exists and the caller is party to it |
| OrderRoutes.Cancel | backend/routes/orders.js:186-219 | cancelling stores the cancelled order in place of the student's own order, or changes nothing |
| OrderRoutes.StatusIndex | backend/routes/orders.js:303-305 | positions 0..4 in the progression, and -1 exactly for cancelled |
| OrderRoutes.TransitionAllowed | backend/routes/orders.js:303-309 | the guard as written: refused when the target's index is not above the current one and the target is not ready (a definition; `TransitionCharacterized` and `TransitionAsWritten` are about it) |
| OrderRoutes.TransitionAsWritten | backend/routes/orders.js:303-309 | the guard accepts pending→preparing, pending→completed, completed→ready and ready→ready, and refuses completed→completed and backward steps to confirmed |
| OrderRoutes.TransitionCharacterized | backend/routes/orders.js:303-309 | a target is accepted exactly when it is `ready` or strictly later in the progression than the current status |
| OrderRoutes.StatusUpdateOutcome | backend/routes/orders.js:278-323 | each answer in the handler's order: 400 StatusRequired for an empty status, 400 InvalidStatus for a target outside confirmed/preparing/ready/completed, 404 when the vendor has no such order, 400 for a cancelled order, 400 InvalidProgression when the guard refuses, else success or the save's 500; a success changes only status, estimate (only when a non-zero one is supplied) and completion time (stamped on completed), and satisfies the schema |
| OrderRoutes.StatusUpdateSaveFails | backend/routes/orders.js:315-323 | for a stored order and an allowed target, the save fails exactly when a non-zero estimate outside 5..120 is supplied |
| OrderRoutes.UpdateStatus | backend/routes/orders.js:276-342 | the updated order replaces the vendor's order and the collection stays valid, or nothing changes |
| OrderRoutes.AccessOutcome | backend/routes/orders.js:162-173 | an order is returned exactly when it exists and the caller is its student or its vendor; otherwise 404 with the lookup's own not-found message, else 403 "Access denied" |
| OrderRoutes.ViewOrder | backend/routes/orders.js:155-181 | the detail answers with the stored order exactly when the caller is party to it |
| OrderRoutes.OrderWithCode | backend/routes/orders.js:502-504 | the lookup finds an order exactly when some stored order has the code, and that order has it |
| OrderRoutes.SearchOutcome | backend/routes/orders.js:494-520 | 400 without a code, 404 "not found with this delivery code" when no order has the upper-cased code; success exactly when one does and the caller is party to it, and the order returned is stored and has that code |
| OrderRoutes.Search | backend/routes/orders.js:494-527 | the scan computes the code lookup, and any order found has the upper-cased code and the caller as a party |
| OrderRoutes.Dispatch | backend/routes/orders.js:115-155 | the first registered route whose pattern matches the path handles it; no handler exactly when none matches (literal segments match in any letter case, as `express.Router()` does by default) |
| OrderRoutes.DispatchIgnoresCase | backend/routes/orders.js:3 | two paths whose segments differ only in letter case reach the same handler in any route table, so `MY-ORDERS` is the order list |
| OrderRoutes.SearchPath | backend/routes/orders.js:494 | the `/search` route matches exactly the one-segment paths reading `search` in any letter case, `SEARCH` included |
| OrderRoutes.SearchShadowed | backend/routes/orders.js:155-494 | as registered, `GET /search` reaches the `/:id` detail handler and no path, in any letter case, reaches the code lookup |
| OrderRoutes.SearchPathToDetails | backend/routes/orders.js:155-494 | as registered, every letter-case variant of `search` reaches the `/:id` detail handler |
| OrderRoutes.SearchReachable | backend/routes/orders.js:494-527 | with `/search` registered first, every letter-case variant of `search` reaches the lookup and every other path keeps its handler |
| CartRoutes.IndexOfItem | backend/routes/cart.js:130-132 | the index of the first line for the item, or -1 when no line has it |
| CartRoutes.IndexOfLine | backend/routes/cart.js:187-189 | the index of the first line with the line id, or -1 when none has it |
| CartRoutes.FindItem | backend/routes/cart.js:130-132 | the `findIndex` loop returns the first matching line for the item |
| CartRoutes.FindLine | backend/routes/cart.js:228-230 | the `findIndex` loop returns the first line with the line id |
| CartRoutes.AddOutcome | backend/routes/cart.js:89-159 | each check in the handler's order: 400 without an item id, 400 for a quantity (1 when absent) outside 1..50, 404 for an unknown item, 400 for an unavailable one, 500 when its vendor cannot be read, 400 for a closed vendor and for a cart holding another vendor's lines; once all pass, the answer is the merge outcome; a success passes the line schema |
| CartRoutes.MergeOutcome | backend/routes/cart.js:134-159 | 400 when the merged quantity would pass 50, otherwise only the save's 500 can fail it; on valid lines with a quantity in 1..50 and no overflow, it succeeds exactly when the instructions are at most 200 characters; the merged or appended lines pass the line schema |
| CartRoutes.Merge | backend/routes/cart.js:130-155 | the `findIndex` and merge steps compute the merge outcome |
| CartRoutes.AddKeepsInvariant | backend/routes/cart.js:121-155 | after a successful add all lines come from the item's vendor, and the cart keeps one line per item, distinct line ids and quantities in 1..50 |
| CartRoutes.MergeKeepsInvariant | backend/routes/cart.js:130-158 | merging into the item's line or appending a new one, on a cart holding only that vendor's lines, keeps the cart invariant with every line from that vendor |
| CartRoutes.AddMergesOrAppends | backend/routes/cart.js:130-155 | an item already in the cart grows its line's quantity, replaces its instructions and adds no line; otherwise one line at the current price is appended |
| CartRoutes.AddTotals | backend/routes/cart.js:134-158 | adding q units raises the unit total by exactly q |
| CartRoutes.AddOtherVendorRejected | backend/routes/cart.js:121-127 | an item of another vendor is refused while the cart holds lines, with 400 "other vendor" whenever the earlier checks pass |
| CartRoutes.AddSucceeds | backend/routes/cart.js:89-159 | on a valid cart, once every check passes (quantity 1..50, item present and available, vendor open, cart empty or of that vendor, merged quantity within 50), the add succeeds exactly when the instructions fit 200 characters (backend/models/User.js:94-98) |
| CartRoutes.Add | backend/routes/cart.js:89-173 | the cart takes the new lines with recomputed totals, or it is left exactly as it was |
| CartRoutes.UpdateOutcome | backend/routes/cart.js:180-206 | 400 for a supplied non-zero quantity outside 1..50, 404 for an unknown line; for a known line the update succeeds exactly when the line with the supplied fields passes the line schema (else 500), and only that line changes, only in the supplied fields |
| CartRoutes.UpdateZeroQuantity | backend/routes/cart.js:182-206 | quantity 0 slips past the route's guard and fails at the save with 500 |
| CartRoutes.UpdateKeepsInvariant | backend/routes/cart.js:195-205 | an update keeps the cart invariant and moves the unit total by the line's change |
| CartRoutes.Update | backend/routes/cart.js:178-219 | the cart takes the updated lines with recomputed totals, or it is left exactly as it was |
| CartRoutes.RemoveOutcome | backend/routes/cart.js:228-237 | the remove succeeds exactly when some line has the id, with one line fewer; otherwise 404 CartItemNotFound |
| CartRoutes.SpliceKeepsInvariant | backend/routes/cart.js:237 | splicing one line out keeps the cart invariant |
| CartRoutes.RemoveExact | backend/routes/cart.js:228-240 | removing keeps the other lines in order, leaves no line with the id, keeps the invariant and takes the line's terms out of the totals |
| CartRoutes.Remove | backend/routes/cart.js:224-255 | the cart takes the spliced lines with recomputed totals, or it is left exactly as it was |
| CartRoutes.Clear | backend/routes/cart.js:260-277 | any cart ends with no lines and zero totals |
| CartRoutes.LiveLines | backend/routes/cart.js:23-28 | the view keeps exactly the lines whose item is available and whose vendor is open |
| CartRoutes.LiveLinesAppend | backend/routes/cart.js:23-28 | the filter of a concatenation is the concatenation of the filters, so the kept lines stay in their order |
| CartRoutes.LiveLinesKeepsAll | backend/routes/cart.js:30-35 | the filter keeps every line exactly when it keeps as many lines as there were |
| CartRoutes.LiveLinesKeepInvariant | backend/routes/cart.js:23-35 | the filtered lines keep the cart invariant |
| CartRoutes.View | backend/routes/cart.js:12-84 | the view answers with the live lines and writes the cart back only when a line was dropped; it succeeds exactly when no line's filter throws, and a filter that throws answers 500 and changes nothing |
| CartRoutes.CheckoutLines | backend/routes/cart.js:312-318 | each order line takes the menu item's current name and price and the cart line's quantity and instructions (the order schema does not keep the instructions; see below) |
| CartRoutes.CheckoutEstimate | backend/routes/cart.js:327-344 | the estimate is a tenth of the preparation work rounded half up, but at least 15, and is 15 exactly when the work is below 155 |
| CartRoutes.CheckoutOutcome | backend/routes/cart.js:284-345 | checkout builds an order exactly when the cart is non-empty and every line is live, else 400 CartEmpty for an empty cart, 500 PlaceOrderFailed when a live item's vendor cannot be read, 400 CartItemsUnavailable otherwise; the order has the first line's vendor, current prices, subtotal, 5% tax, total and the work-based estimate |
| CartRoutes.CheckoutMatchesCartTotal | backend/routes/cart.js:312-321 | when no price changed since the lines were added, the order's subtotal equals the cart's total |
| CartRoutes.CheckoutTooMuchWorkFails | backend/routes/cart.js:327-347 | a cart with more than 1204 minute-units of work gets an estimate over 120, so the order's save fails |
| CartRoutes.Checkout | backend/routes/cart.js:282-371 | either the order is saved and then the cart is emptied with zero totals, or neither the orders nor the cart change |
| MenuRoutes.Listing | backend/routes/menu.js:11-51 | the listing keeps at most the given items |
| MenuRoutes.ListingMembers | backend/routes/menu.js:13-46 | an item is listed exactly when it matches the query (availability, category, vendor, case-insensitive search, inclusive price bounds applied whenever supplied, `0` included) and its vendor is open |
| MenuRoutes.LowMaxPriceListsNothing | backend/routes/menu.js:33-36 | a supplied upper price bound below the least schema price, `maxPrice=0` among them, lists nothing |
| MenuRoutes.ListingAppend | backend/routes/menu.js:44-46 | the filter keeps the given order |
| MenuRoutes.Listed | backend/routes/menu.js:13-46 | the query and the closed-vendor filter for one item: availability ("true" by default), category, vendor, search in name or description, inclusive price bounds whenever a non-empty bound is supplied, open vendor (a definition; `ListingMembers` ties it to `Listing`) |
| MenuRoutes.MatchesIgnoringCase | backend/routes/menu.js:28-29 | the `$regex` search with option `i`, as a case-insensitive substring test (a definition; see Left out) |
| MenuRoutes.DefaultListing | backend/routes/menu.js:13-46 | without filters, the listing shows exactly the available items of open vendors |
| MenuRoutes.ListedItemCanBeAdded | backend/routes/menu.js:16-46 | an item the default listing shows can be added to an empty cart |
| MenuRoutes.CreateErrors | backend/routes/menu.js:137-165 | no error exactly when the trimmed name is ≥ 2, the trimmed description ≥ 10, the price 1..10000, the category one of six, and a given preparation time 5..120 |
| MenuRoutes.UpdateErrors | backend/routes/menu.js:227-251 | no error exactly when each supplied field passes its check |
| MenuRoutes.NameTaken | backend/routes/menu.js:167-175 | another item of the same vendor has the name, ignoring case, the item being updated excluded (a definition; `CreateKeepsNamesUnique`, `UpdateKeepsNamesUnique` and `UpdateDuplicateRefused` are about it) |
| MenuRoutes.CreateNeedsName | backend/routes/menu.js:139-141 | a create without a name is refused by the checks |
| MenuRoutes.CreateOutcome | backend/routes/menu.js:132-207 | failed checks give 422 with exactly their messages; a name the vendor already uses (ignoring case) gives 400 DuplicateItemName, the only 400; otherwise the answer is the built item (trimmed, available, preparation time 15 by default) when it passes the schema and 422 with the schema's messages when not |
| MenuRoutes.CreateDefaults | backend/routes/menu.js:178-186 | a created item is available, has the trimmed description, the requested price, category and image ("" when absent), and a preparation time of 15 when none was given |
| MenuRoutes.CreateAccepted | backend/routes/menu.js:163-203 | a create succeeds exactly when the checks pass, the name is new for the vendor and the trimmed strings fit the schema's maximum lengths |
| MenuRoutes.ApplyUpdate | backend/routes/menu.js:266-273 | an update never changes an item's vendor |
| MenuRoutes.ApplyUpdateFields | backend/routes/menu.js:266-273 | each field becomes the supplied value (strings trimmed), or keeps the stored one when left out |
| MenuRoutes.UpdateOutcome | backend/routes/menu.js:212-283 | 404 unless the vendor owns the item; for an owned item, failed checks give 422 with exactly their messages and a supplied name another of the vendor's items uses gives 400 DuplicateItemName; a success passed the checks, has no name clash, and passes the schema |
| MenuRoutes.UpdateApplies | backend/routes/menu.js:253-275 | a success stores the request applied to the item; an owned item with passing checks and a free name is refused only by the schema |
| MenuRoutes.DeleteOutcome | backend/routes/menu.js:288-313 | a delete succeeds exactly when the vendor owns the item and no pending, confirmed or preparing order contains it; otherwise 404 or 400 |
| MenuRoutes.Active | backend/routes/menu.js:300-305 | the statuses that block a delete: pending, confirmed and preparing (a definition; `VendorRoutes.PendingCountsBlockingOrders` relates it to the dashboard) |
| MenuRoutes.Catalog.Create | backend/routes/menu.js:132-207 | the created item is stored under the new id and every stored item stays valid, or nothing changes |
| MenuRoutes.Catalog.Update | backend/routes/menu.js:212-283 | the updated item replaces the stored one and every stored item stays valid, or nothing changes |
| MenuRoutes.Catalog.Delete | backend/routes/menu.js:288-319 | the item is removed exactly when the delete is allowed, and nothing else changes |
| MenuRoutes.Catalog.ToggleAvailability | backend/routes/menu.js:324-350 | the vendor's own item has its availability flipped and nothing else changes; otherwise 404 and nothing changes |
| MenuRoutes.CreateKeepsNamesUnique | backend/routes/menu.js:167-175 | after a create, no vendor has two items whose names differ only in case |
| MenuRoutes.UpdateKeepsNamesUnique | backend/routes/menu.js:253-264 | after an update, no vendor has two items whose names differ only in case |
| MenuRoutes.EmptyUpdateChangesNothing | backend/routes/menu.js:266-275 | an update that supplies nothing returns the stored item unchanged |
| MenuRoutes.UpdateDuplicateRefused | backend/routes/menu.js:253-264 | a supplied name that another item of the vendor uses, in any case, is refused with 400 |
| MenuRoutes.ToggleTwice | backend/routes/menu.js:335 | toggling twice restores the item |
| MenuRoutes.DeletedItemUnused | backend/routes/menu.js:300-311 | after a delete, no pending, confirmed or preparing order refers to the item |
| VendorRoutes.VendorMenu | backend/routes/vendors.js:136-150 | the vendor menu query keeps at most the given items |
| VendorRoutes.VendorMenuMembers | backend/routes/vendors.js:139-150 | an item is found exactly when it belongs to the vendor and matches the given category and availability |
| VendorRoutes.GroupIsFilter | backend/routes/vendors.js:95-108 | the grouping has a list exactly for the categories that occur, and each list is that category's items in order |
| VendorRoutes.GroupPlacesEachItem | backend/routes/vendors.js:95-108 | each item lies in the list of its own category, and each list holds only items of that category |
| VendorRoutes.GroupSizesAddUp | backend/routes/vendors.js:95-119 | the sizes of the six category lists add up to the number of items |
| VendorRoutes.OfCategory | backend/routes/vendors.js:95-108 | the items of one category, in order, at most as many as given |
| VendorRoutes.GroupByCategory | backend/routes/vendors.js:95-108 | the `reduce` that groups items by category (a definition; `GroupIsFilter`, `GroupPlacesEachItem` and `GroupSizesAddUp` are about it) |
| VendorRoutes.VendorDetailOutcome | backend/routes/vendors.js:76-129 | an id that is not an active vendor gets 404; a detail comes back exactly for an active vendor with a shop, and carries the shop's name and open flag and the number of the vendor's available items |
| VendorRoutes.DetailShowsAvailableItems | backend/routes/vendors.js:88-119 | the detail lists each available item of the vendor in its category's list and nothing else, and the lists add up to the total |
| VendorRoutes.VendorMenuOutcome | backend/routes/vendors.js:134-171 | the page lists exactly the matching items, counts them, and places each in its category's group |
| VendorRoutes.DashboardCounts | backend/routes/vendors.js:186-265 | the inactive count is the number of hidden items, active ≤ total, and in-progress plus completed orders ≤ total |
| VendorRoutes.PendingCountsBlockingOrders | backend/routes/vendors.js:203 | an order counts as "pending" exactly when it is pending, confirmed or preparing, the statuses that block deleting its items |
| VendorRoutes.ProfileErrors | backend/routes/vendors.js:294-317 | no error exactly when a given shop name trims to ≥ 2, a given description is ≤ 500, and given times match HH:MM |
| VendorRoutes.ApplyProfile | backend/routes/vendors.js:319-327 | the field writes of the profile update (a definition; `ProfileChangesOnlySupplied`, `EmptyProfileChangesNothing` and `ProfileIdempotent` are about it) |
| VendorRoutes.EmptyProfileChangesNothing | backend/routes/vendors.js:319-327 | a request that supplies nothing changes nothing |
| VendorRoutes.ProfileChangesOnlySupplied | backend/routes/vendors.js:319-327 | each supplied field takes the request's value (strings trimmed) and each field left out keeps its stored value |
| VendorRoutes.ProfileIdempotent | backend/routes/vendors.js:319-327 | applying the same request twice has the effect of applying it once |
| VendorRoutes.ProfileOutcome | backend/routes/vendors.js:285-345 | 404 for an unknown account, 422 with the messages for failed checks; a success is the request applied to the stored shop, and the account still passes the schema |
| VendorRoutes.ProfileSaveFailsOnlyForLongShopName | backend/routes/vendors.js:294-329 | for a valid stored vendor and passing checks, the save fails exactly when the trimmed shop name exceeds 100 characters |
| VendorRoutes.UpdateProfile | backend/routes/vendors.js:285-345 | the vendor's shop is replaced by the updated one and the collection stays valid, or nothing changes |
| AuthRoutes.RegisterErrors | backend/routes/auth.js:33-75 | no error exactly when every check holds: name, e-mail, password, role and phone, plus the student's CUET address and student id or the vendor's shop name |
| AuthRoutes.NormalEmail | backend/routes/auth.js:79 | the looked-up and stored address is lower-case and trimmed |
| AuthRoutes.NewShop | backend/routes/auth.js:106-115 | a new shop is open unless told otherwise, with 09:00 and 22:00 for absent times |
| AuthRoutes.NewAccount | backend/routes/auth.js:93-116 | the built account is active, has the normalised e-mail, a student id exactly for students, and a shop exactly for vendors that sent one |
| AuthRoutes.AccountSchemaErrors | backend/models/User.js:4-165 | on trimmed and lower-cased fields, the user schema reports nothing exactly when the schema predicate holds |
| AuthRoutes.RegisterOutcome | backend/routes/auth.js:29-163 | failed checks give 422 with all their messages; then an e-mail in use (after lower-casing and trimming) gives 400 EmailInUse and a student's student id in use 400 StudentIdInUse, the only 400s; a registered account passed the checks, uses an unused e-mail and student id, satisfies the schema and is the built account |
| AuthRoutes.NewAccountSchema | backend/routes/auth.js:93-120 | for a request passing the checks, the built account satisfies the schema exactly when its name is ≤ 50 and, for a vendor, its shop is valid |
| AuthRoutes.RegisterSchemaGaps | backend/routes/auth.js:118-154 | a request with passing checks and no duplicate fails exactly for a trimmed name over 50 or an invalid vendor shop |
| AuthRoutes.Register | backend/routes/auth.js:29-163 | the new account is stored under a fresh id and the collection stays valid, or nothing changes |
| AuthRoutes.AccountWithEmail | backend/routes/auth.js:182-184 | the lookup finds an account exactly when one is stored with the address, and that account has it |
| AuthRoutes.FindByEmail | backend/routes/auth.js:182-184 | the scan returns the account stored with the address, if any |
| AuthRoutes.LoginOutcome | backend/routes/auth.js:168-199 | 400 InvalidEmail for a malformed address, 400 PasswordRequired for an empty password, 401 InvalidCredentials for an unknown address, 401 AccountDeactivated for an inactive account, 401 InvalidCredentials for a wrong password, and the stored account exactly when it is active and the password matches |
| AuthRoutes.Login | backend/routes/auth.js:168-225 | the handler over the collection computes the login outcome |
| AuthRoutes.LoginFindsStored | backend/routes/auth.js:182-199 | a stored active account with a unique address is what login with that address and a matching password returns |
| AuthRoutes.LoginAfterRegister | backend/routes/auth.js:93-199 | whoever registers can log in with the same address and password |
| AuthContext.InitialState | frontend/src/context/AuthContext.jsx:15-21 | the client starts loading, signed out, without user or error, with the stored token |
| AuthContext.Reduce | frontend/src/context/AuthContext.jsx:24-68 | `authReducer`, one case per action type (a definition; `NarrowActions`, `ErrorKeepsSession`, `SignInAndOut`, `LogoutIdempotent` and `ReduceKeepsConsistent` state what each action does) |
| AuthContext.Run | frontend/src/context/AuthContext.jsx:24-68 | the state after dispatching a sequence of actions in order (a definition; `RunKeepsConsistent` is about it) |
| AuthContext.NarrowActions | frontend/src/context/AuthContext.jsx:26-67 | SET_LOADING changes only isLoading, CLEAR_ERROR only error, and an unknown action nothing |
| AuthContext.ErrorKeepsSession | frontend/src/context/AuthContext.jsx:42-47 | SET_ERROR records the message and stops loading, keeping user, token and the authenticated flag |
| AuthContext.SignInAndOut | frontend/src/context/AuthContext.jsx:32-57 | after SET_USER the client is signed in as that user; after LOGOUT it is signed out with no user, token or error |
| AuthContext.LogoutIdempotent | frontend/src/context/AuthContext.jsx:49-57 | logging out twice is logging out once |
| AuthContext.ReduceKeepsConsistent | frontend/src/context/AuthContext.jsx:24-68 | every action keeps "authenticated exactly when a user is present" |
| AuthContext.RunKeepsConsistent | frontend/src/context/AuthContext.jsx:24-68 | every sequence of actions keeps that link |
| AuthContext.ReachableConsistent | frontend/src/context/AuthContext.jsx:15-68 | every state reached from start-up has that link |
| AuthContext.HasRole | frontend/src/context/AuthContext.jsx:183 | `state.user?.role === role` (a definition; `HasRoleAfterActions` and `ProtectedRoute.GuardMatchesHasRole` are about it) |
| AuthContext.HasRoleAfterActions | frontend/src/context/AuthContext.jsx:183 | a signed-out client has no role, and a signed-in one has exactly its user's role |
| ProtectedRoute.Guard | frontend/src/components/routing/ProtectedRoute.jsx:6-34 | a spinner exactly while loading; the login page, remembering the path, exactly when signed out; the page exactly when signed in with the required role or none required |
| ProtectedRoute.MismatchRedirect | frontend/src/components/routing/ProtectedRoute.jsx:28-31 | a role mismatch sends vendors to /vendor/dashboard and everyone else to /dashboard |
| ProtectedRoute.GuardMatchesHasRole | frontend/src/components/routing/ProtectedRoute.jsx:28-33 | without a required role every signed-in client gets the page; with one, exactly those for whom `hasRole` holds |
| ProtectedRoute.ReachableGuardNeedsRole | frontend/src/components/routing/ProtectedRoute.jsx:28-33 | in any state reached from start-up, a page that needs a role is shown only to a user with it |
| VendorsPage.FilterVendors | frontend/src/pages/student/VendorsPage.jsx:31-39 | the filter keeps at most the given vendors |
| VendorsPage.FilterMembers | frontend/src/pages/student/VendorsPage.jsx:31-39 | a vendor is shown exactly when it is in the list and passes both the search and the open test |
| VendorsPage.FilterAppend | frontend/src/pages/student/VendorsPage.jsx:31-39 | the filter keeps the original order |
| VendorsPage.FilterSingle | frontend/src/pages/student/VendorsPage.jsx:31-38 | one vendor is kept exactly when it passes both tests |
| VendorsPage.EmptySearchKeepsAll | frontend/src/pages/student/VendorsPage.jsx:32 | with an empty search and "open only" off, every vendor is shown |
| VendorsPage.OnlyOpenShown | frontend/src/pages/student/VendorsPage.jsx:36 | with "open only" on, every shown vendor is open |
| VendorsPage.SearchIgnoresCase | frontend/src/pages/student/VendorsPage.jsx:33-34 | a term and its lower-cased form find the same vendors |

## Left out

- Persistence: MongoDB, `populate`, `countDocuments`, `findById` and the aggregation pipelines are modelled as maps and set sizes. The revenue aggregation of the dashboard (backend/routes/vendors.js:208-250) and the vendor statistics route of the orders router are not modelled.
- Clock: `new Date()` is a parameter. The dashboard's today, week and month order counts depend on calendar arithmetic and are not modelled.
- Randomness: the delivery code from `Math.random` is a parameter of the save. The model checks it against the unique index, as the database would; nothing retries.
- Credentials: bcrypt hashing, `comparePassword`, JWT issue and verification and the auth middleware are not modelled. The stored password is the submitted one, and the comparison is a parameter of login. Role checks such as `isStudent`/`isVendor` are assumed to have passed before each handler.
- Concurrency: every request is one sequential step. Races between simultaneous requests, and the duplicate-key error 11000 they would produce at registration, are not modelled.
- Messages: a constructor of `Message` stands for each error text. Texts that embed a value (the item id at backend/routes/orders.js:66) drop it. A save the order collection refuses answers `OrderRejected`, where the route's catch block would answer with its own text. The texts themselves, the success messages and the response envelope are not modelled.
- Sorting and pagination: the listing, vendor menu and vendor detail sort by category and name. The model keeps the order in which the items are given. Pagination and the `my-items`, `categories`, `my-orders` and `vendor/incoming` queries are not modelled, and neither is the latter's grouping by status.
- The cart view's grouping of lines by vendor for display (backend/routes/cart.js:38-68) is not modelled; the model returns the live lines.
- The vendor list route `GET /api/vendors`, with its regular-expression search and per-vendor item count, is not modelled. The client-side filter in `VendorsPage` is.
- OrderRoutes.Tax: `subtotal * 0.05` is a floating-point product. The model takes it as exact and rounds half up (the whole number t with 20·t within [-10, 10) of the subtotal). The two can differ where the product's binary error crosses .5.
- CartRoutes.CheckoutEstimate: the source adds `preparationTime * quantity / 10` in floating point before rounding. The model rounds the exact tenth of the integer work Σ preparationTime × quantity half up.
- MenuRoutes.NameTaken: the duplicate-name query builds an anchored case-insensitive regular expression from the unescaped name. The model compares names for ASCII case-insensitive equality. The two differ for names with regular-expression metacharacters, such as "C++" or "Tea (hot)".
- MenuRoutes.MatchesIgnoringCase: the listing's `$regex` search is modelled as a case-insensitive substring test, with the same caveat for metacharacters.
- Numbers: JavaScript numbers are modelled as integers. `Number(price)` at backend/routes/menu.js:182 would store a price such as 12.5, and a quantity of 1.5 passes the checks at backend/routes/cart.js:98 and backend/routes/orders.js:54; the model has no fractional prices, quantities or times. A non-numeric query bound (`Number` giving NaN) is not modelled either.
- String length: `.length` counts UTF-16 code units, while the model counts characters. A character outside the Basic Multilingual Plane counts 2 in the source and 1 in the model, so a one-emoji name passes the source's trimmed-length-2 check at backend/routes/menu.js:139 but not the model's, and every minimum and maximum length bound shifts the same way for such text.
- Ids: document ids are modelled as numbers compared by value. backend/routes/cart.js:130-132 compares `item.menuItemId.toString()` with the request's id as strings, so a request naming an existing item by an upper-case hexadecimal id, which `findById` accepts, would miss the existing line and append a second line for the same item. The model's one-line-per-item cart invariant does not cover that spelling.
- Case mapping: `toLowerCase`/`toUpperCase` are modelled on ASCII letters only. White space for `trim` is the ASCII and common Unicode space characters listed in `Common.IsSpace`.
- Order documents: the schema declares no `subtotal`, `tax`, `deliveryFee`, `cancelReason` or `actualCompletionTime` paths, and no `specialInstructions` on order lines (backend/models/Order.js:14-35). Mongoose's strict mode would drop them on save. The model keeps them on the order value, as the handlers set them.
- User schema: vendor-info constraints are checked only for vendor accounts. Mongoose's nested defaults, which give every account an empty shop sub-document, are not modelled, and neither is the avatar. So the model has accounts without a shop. These 500 answers for an existing account without a shop have no counterpart in the source, where such a shop always exists: `CartRoutes.View` and `CartRoutes.AddOutcome` (`AddToCartFailed`), `CartRoutes.CheckoutOutcome` (`PlaceOrderFailed`), `VendorRoutes.VendorDetailOutcome`, and `VendorRoutes.ProfileOutcome` (`UpdateProfileFailed`). The 500 of the cart routes for a vendor account that no longer exists does have one: the populated reference is null and reading its shop throws.
- MenuRoutes.Catalog.Update, OrderRoutes.UpdateStatus, OrderRoutes.Cancel and VendorRoutes.UpdateProfile: `save()` validates the whole document, and the model checks the candidate against the schema predicate. The stored document is assumed to satisfy the schema already; this is the collection's invariant.
- VendorRoutes.DashboardCounts: the menu and order counts are sizes of sets of ids. Its contract states their relations, not the individual counts against the database.
- UI effects: toasts, `localStorage`, navigation side effects and the API wrappers of the client are not modelled. `AuthContext` covers only the reducer and `hasRole`.
- Other routes of the same routers (profile, password and logout routes of the auth router; the `my-orders` and statistics routes of the orders router) are outside this model. So are the payment stub, the server and database set-up, and the seed script, apart from its sample order totals.

## Findings

| source | as written | input that shows it | evidently intended | confidence | as-written member | corrected member |
|---|---|---|---|---|---|---|
| backend/routes/orders.js:155-494 | `GET /search` is registered after `GET /:id`, so Express hands `/api/orders/search?code=…` to the order-detail handler, which cannot read "search" as an order id and answers with an error; the delivery-code lookup is unreachable | the path `search` | register `/search` before `/:id`, so the code lookup answers it (in any letter case) and every other path keeps its handler | not executed | OrderRoutes.SearchShadowed | OrderRoutes.SearchReachable |
