# EcomJobs storefront core, modelled in Dafny

This project models the client-side logic of the EcomJobs storefront, a Next.js shop with a seller back office:

- **Local cart store** (`CartApi.ts`). A list of line items keyed by `productId`, kept under the `ecom_cart` key. It offers load, save, add, update (increment/decrement), delete and clear. Every write recomputes `totalItems` and `totalPrice`.
- **Cart page** (`cart/page.tsx`):
  - the rule that turns a quantity change into a delete or an update;
  - the recomputed, displayed and final totals.
- **Auth slice** (`AuthSlice.ts`). Four reducers over `{user, isAuthenticated, loading}`.
- **Checkout schema** (`zodValidation.ts`). Whitespace stripping and digit and length rules for the phone number, plus minimum lengths for the other fields.
- **Seller order page** (`admin-seller/orders/page.tsx`):
  - the CSV export: cell texts, quoting, header and row lines;
  - the optimistic status change with restore;
  - order deletion.
- **Seller product, category and shipping pages.** The local `data` list is appended to, merged into by id and filtered by id, with snapshot restore on failure. The shipping page keeps counting statistics and guards the price and selection handlers.
- **Product forms** (`CreateProductUi.tsx`, `UpdateProductUi.tsx`):
  - toggling sizes;
  - duplicate-free colour lists;
  - removal by index;
  - three image slots;
  - reset;
  - loading a product into the form;
  - the FormData assembled on submit.
- **Product table row** (`ProductRow.tsx`). The case-insensitive name filter, the status label and the menu callbacks.

Form of the model:
- Where the source changes state in place, the model is a class whose methods state the new state. This covers the cart store, the auth slice, the seller pages and the forms.
- Where the source computes values, the model is datatypes, functions and lemmas.
- Prices are integers, with the unit fixed per entity:
  - product prices and shipping prices are whole dinars, so `String(price)` and `toString` render their decimal digits;
  - order costs are hundredths of a dinar, so `toFixed(2)` renders them with two decimals;
  - cart prices are in one unit throughout, and the totals are in that unit;
  - the shipping price request carries the real number `parseFloat` read.
- Server answers and parsed numbers are method parameters: an `Option` for a returned value, a `bool` for accepted or refused.
- Browser storage is an abstract cell, `Blob`.

## Model

| member | source | states |
|---|---|---|
| CartStore.WithTotals | Client/src/app/Redux/Services/CartApi.ts:38-42 | the cart built from a list of items carries those items, `totalItems` = Σ quantity and `totalPrice` = Σ price×quantity |
| CartStore.FindIndex | Client/src/app/Redux/Services/CartApi.ts:61-63 | `findIndex`: −1 exactly when no line has the product; otherwise the first line whose productId matches |
| CartStore.RequestedQuantity | Client/src/app/Redux/Services/CartApi.ts:66 | `newItem.quantity \|\| 1`: a present non-zero quantity is taken as it is (negative ones included); otherwise 1; never 0 |
| CartStore.CartStorage.constructor | Client/src/app/Redux/Services/CartApi.ts:5 | the store starts from the given browser flag and stored value |
| CartStore.CartStorage.GetCartFromStorage | Client/src/app/Redux/Services/CartApi.ts:16-29 | outside a browser, with nothing stored or with unparseable text the empty cart; otherwise the stored cart as it is, totals not recomputed |
| CartStore.CartStorage.SaveCartToStorage | Client/src/app/Redux/Services/CartApi.ts:32-36 | in a browser the cart is stored; outside one nothing changes |
| CartStore.CartStorage.AddToCart | Client/src/app/Redux/Services/CartApi.ts:58-77 | the result is the loaded items with the new item added (`Added`), with recomputed totals, and it is what gets stored |
| CartStore.CartStorage.UpdateCartItem | Client/src/app/Redux/Services/CartApi.ts:79-101 | the result is the loaded items updated by the action (`Updated`), with recomputed totals, and it is stored |
| CartStore.CartStorage.DeleteCartItem | Client/src/app/Redux/Services/CartApi.ts:103-114 | the result is the loaded items without the product's lines (`Deleted`), with recomputed totals, and it is stored |
| CartStore.CartStorage.ClearCart | Client/src/app/Redux/Services/CartApi.ts:116-123 | whatever the prior state, the result and (in a browser) the stored cart are empty with zero totals |
| CartStore.AddExisting | Client/src/app/Redux/Services/CartApi.ts:61-66 | adding a present product keeps the number of lines, adds the requested quantity to the first matching line and leaves every other line untouched |
| CartStore.AddExistingTotals | Client/src/app/Redux/Services/CartApi.ts:65-72 | adding a present product moves totalItems by the requested quantity and totalPrice by that quantity at the stored line's price |
| CartStore.AddNew | Client/src/app/Redux/Services/CartApi.ts:67-72 | adding a new product appends exactly one line at the end with the requested quantity; the totals grow by that line's share |
| CartStore.AddKeepsUnique | Client/src/app/Redux/Services/CartApi.ts:61-69 | productIds stay unique under add, and the product always has a line afterwards |
| CartStore.RepeatedAddAccumulates | Client/src/app/Redux/Services/CartApi.ts:58-77 | adding one new product several times leaves a single line for it at the end whose quantity is the sum of the requested quantities |
| CartStore.AddToExistingAccumulates | Client/src/app/Redux/Services/CartApi.ts:61-66 | repeated adds of a product whose first line is at `i` add their quantities to that line and leave the rest unchanged |
| CartStore.UpdateIncrement | Client/src/app/Redux/Services/CartApi.ts:84-86 | "increment" adds exactly 1 to the matching line and changes nothing else |
| CartStore.UpdateIncrementTotals | Client/src/app/Redux/Services/CartApi.ts:85-96 | "increment" raises totalItems by 1 and totalPrice by the line's unit price |
| CartStore.UpdateDecrementKeeps | Client/src/app/Redux/Services/CartApi.ts:87-91 | "decrement" on a quantity above 1 subtracts 1 in place; the totals drop by one unit |
| CartStore.UpdateDecrementRemoves | Client/src/app/Redux/Services/CartApi.ts:87-91 | "decrement" on a quantity of 1 or less splices the line out; with unique ids no line for the product is left |
| CartStore.UpdateNoop | Client/src/app/Redux/Services/CartApi.ts:82-84 | an absent product, or any action other than "increment"/"decrement", leaves the items unchanged |
| CartStore.UpdateKeepsUnique | Client/src/app/Redux/Services/CartApi.ts:79-93 | productIds stay unique under update |
| CartStore.DeleteFilters | Client/src/app/Redux/Services/CartApi.ts:106 | delete keeps exactly the lines of other products, no line of the product is left, and an absent product changes nothing |
| CartStore.DeleteUnique | Client/src/app/Redux/Services/CartApi.ts:106-109 | with unique ids, deleting a present product splices out exactly its line and takes its share off both totals |
| CartStore.DeleteKeepsUnique | Client/src/app/Redux/Services/CartApi.ts:106 | productIds stay unique under delete |
| CartStore.AddKeepsPositive | Client/src/app/Redux/Services/CartApi.ts:65-69 | positive quantities stay positive under add when the requested quantity is not negative |
| CartStore.UpdateKeepsPositive | Client/src/app/Redux/Services/CartApi.ts:84-93 | positive quantities stay positive under update: a line reaching 0 is removed |
| CartStore.DeleteKeepsPositive | Client/src/app/Redux/Services/CartApi.ts:106 | positive quantities stay positive under delete |
| CartStore.NegativeRequestStored | Client/src/app/Redux/Services/CartApi.ts:66-68 | a requested quantity of −3 is stored as a line of quantity −3, so the cart can hold a non-positive quantity |
| CartStore.SaveLoadRoundTrip | Client/src/app/Redux/Services/CartApi.ts:16-36 | in a browser, loading what was saved gives the same cart and re-saving it changes nothing; outside a browser loading always gives the empty cart |
| CartPage.QuantityRequest | Client/src/app/cart/page.tsx:40-55 | below 1 a delete of that product; otherwise an update with "increase" exactly when the new value exceeds the current one, else "decrease" |
| CartPage.PageUpdateNeverChangesQuantities | Client/src/app/cart/page.tsx:47-48 | every update the page sends leaves the store's items unchanged, because the store knows only "increment"/"decrement" |
| CartPage.PageRemovesBelowOne | Client/src/app/cart/page.tsx:43-44 | a new value below 1 deletes the product's lines; this branch sends no update |
| CartPage.CorrectedQuantityRequest | Client/src/app/cart/page.tsx:40-55 | the same dispatch rule with the action names the store accepts |
| CartPage.CorrectedRequestMovesQuantity | Client/src/app/cart/page.tsx:47-48 | with those names a raise adds exactly 1 and a lowering takes 1 off or removes a line of quantity 1 |
| CartPage.PropertyOf | Client/src/app/cart/page.tsx:30-33 | a property of the store's result exists exactly for the keys `items`, `totalItems`, `totalPrice` |
| CartPage.PageView | Client/src/app/cart/page.tsx:30-36 | recomputed total = Σ price×quantity over the shown items; displayed total is the server total when > 0, else the recomputed one; final total = displayed total − savings (0) |
| CartPage.PageSeesNoItems | Client/src/app/cart/page.tsx:30-36 | reading `cartItems`/`total`, which the store never returns, the page shows no items and totals of 0 |
| CartPage.CorrectedCartPageView | Client/src/app/cart/page.tsx:30-36 | the page's totals read from `items`/`totalPrice` |
| CartPage.CorrectedPageShowsItemTotal | Client/src/app/cart/page.tsx:30-36 | reading `items`/`totalPrice`, the page shows the cart's items, and both its displayed and final totals are Σ price×quantity |
| CartPage.PageTotalExample | Client/src/app/cart/page.tsx:30-36 | one line of price 10 and quantity 2 displays 20 with the store's field names and 0 as written |
| AuthSlice.AuthState.constructor | Client/src/app/Redux/slices/AuthSlice.ts:10-14 | initial state: no user, not authenticated, loading |
| AuthSlice.AuthState.SetCredentials | Client/src/app/Redux/slices/AuthSlice.ts:20-24 | user set to the payload, authenticated, not loading |
| AuthSlice.AuthState.SetLoading | Client/src/app/Redux/slices/AuthSlice.ts:25-27 | only `loading` changes |
| AuthSlice.AuthState.Logout | Client/src/app/Redux/slices/AuthSlice.ts:28-32 | no user, not authenticated, not loading |
| AuthSlice.AuthState.UpdateUser | Client/src/app/Redux/slices/AuthSlice.ts:33-35 | only `user` changes; "authenticated exactly when a user is held" then holds exactly when the state was authenticated |
| AuthSlice.UpdateAfterLogout | Client/src/app/Redux/slices/AuthSlice.ts:28-35 | updateUser after logout holds a user while not authenticated |
| AuthSlice.RunWithoutUpdateUser | Client/src/app/Redux/slices/AuthSlice.ts:20-32 | any sequence of setCredentials, setLoading and logout, in any order and from any state where "authenticated exactly when a user is held", keeps that property; it ends authenticated exactly when the last setCredentials came after the last logout |
| CheckoutValidation.StripWhitespace | Client/src/app/lib/zodValidation.ts:8 | the result holds exactly the non-whitespace characters of the input and no whitespace |
| CheckoutValidation.StripIdempotent | Client/src/app/lib/zodValidation.ts:8 | stripping twice is stripping once |
| CheckoutValidation.StripAppend | Client/src/app/lib/zodValidation.ts:8 | stripping a concatenation strips each part |
| CheckoutValidation.Issues | Client/src/app/lib/zodValidation.ts:3-18 | at most six issues, and none exactly when every rule holds |
| CheckoutValidation.IssuesReportEachFailure | Client/src/app/lib/zodValidation.ts:4-16 | each of the six issues is reported exactly when its rule fails: names under 2, stripped phone not all digits or empty, stripped phone under 10, city under 2, state under 1 |
| CheckoutValidation.ReportMembership | Client/src/app/lib/zodValidation.ts:3-18 | a rule's issue is in the report exactly when the rule fails |
| CheckoutValidation.Validate | Client/src/app/lib/zodValidation.ts:3-18 | accepted exactly when every rule holds, and then the form comes back with the stripped phone; otherwise the non-empty list of issues |
| CheckoutValidation.ValidateIdempotent | Client/src/app/lib/zodValidation.ts:8-14 | validating an accepted, normalised form accepts it unchanged |
| CheckoutValidation.NoteIgnored | Client/src/app/lib/zodValidation.ts:17 | the optional note never decides acceptance |
| CheckoutValidation.EmptyPhoneFailsBoth | Client/src/app/lib/zodValidation.ts:9-14 | a phone that strips to nothing is rejected with both phone issues |
| CheckoutValidation.SpacedPhoneJudgedOnDigits | Client/src/app/lib/zodValidation.ts:8-14 | two digit groups separated by a space are validated as the digits alone |
| OrdersAdmin.OrElse | Client/src/app/admin-seller/orders/page.tsx:93-97 | `value \|\| "N/A"`: a present non-empty text is kept; a missing or empty one becomes the fallback |
| OrdersAdmin.ProductsText | Client/src/app/admin-seller/orders/page.tsx:101-108 | "N/A" when the list is missing or empty; otherwise the product lines' texts joined by " \| " (never the fallback, since each line's text is non-empty); a single line is its own text |
| OrdersAdmin.Fixed2 | Client/src/app/admin-seller/orders/page.tsx:110-112 | a two-decimal rendering of an amount in hundredths: a minus sign exactly for negative amounts, then digits with a point before the last two, where the whole part reads as the amount divided by 100 and the last two digits as its remainder |
| OrdersAdmin.CapitalizeKeepsLower | Client/src/app/admin-seller/orders/page.tsx:114-116 | capitalising changes letters only in case: lower-cased, it is the lower-cased status |
| OrdersAdmin.StatusText | Client/src/app/admin-seller/orders/page.tsx:114-116 | a missing or empty status gives "N/A"; otherwise the first character is upper-cased and the rest lower-cased |
| OrdersAdmin.Cells | Client/src/app/admin-seller/orders/page.tsx:91-117 | one cell per header, twelve in all |
| OrdersAdmin.DoubleQuotes | Client/src/app/admin-seller/orders/page.tsx:130 | doubling the quotes adds no new character |
| OrdersAdmin.Field | Client/src/app/admin-seller/orders/page.tsx:128-131 | a text holding "," or a double quote is wrapped in quotes; any other text is written as it is |
| OrdersAdmin.Rows | Client/src/app/admin-seller/orders/page.tsx:123-134 | one row line per order, in order |
| OrdersAdmin.ExportCsv | Client/src/app/admin-seller/orders/page.tsx:84-135 | no CSV exactly when there are no orders |
| OrdersAdmin.ReadQuotedBack | Client/src/app/admin-seller/orders/page.tsx:130 | reading a quoted field gives back the text before quoting; the inverse of the doubling |
| OrdersAdmin.ReadRawBack | Client/src/app/admin-seller/orders/page.tsx:128-131 | an unquoted field reads back as it was written |
| OrdersAdmin.FieldReadsBack | Client/src/app/admin-seller/orders/page.tsx:128-131 | every written field reads back as its cell's text |
| OrdersAdmin.RecordReadsBack | Client/src/app/admin-seller/orders/page.tsx:124-133 | fields joined by "," read back as the cells' texts, one per cell |
| OrdersAdmin.RowReadsBack | Client/src/app/admin-seller/orders/page.tsx:123-134 | each order's row reads back as its twelve cell texts |
| OrdersAdmin.FieldKeepsLineFeeds | Client/src/app/admin-seller/orders/page.tsx:128-131 | a written field holds a line feed exactly when its text does |
| OrdersAdmin.RowLineFeeds | Client/src/app/admin-seller/orders/page.tsx:123-134 | an order whose texts hold no line feed gives a single-line row |
| OrdersAdmin.HeaderHasNoLineFeed | Client/src/app/admin-seller/orders/page.tsx:119-122 | the header line is a single line |
| OrdersAdmin.ExportLineCount | Client/src/app/admin-seller/orders/page.tsx:121-135 | without line feeds in the data, the CSV holds exactly one line feed per order: a header line, then one line per order |
| OrdersAdmin.CityUnquoted | Client/src/app/admin-seller/orders/page.tsx:97 | a city without "," or a quote is written as it is |
| OrdersAdmin.SingleExport | Client/src/app/admin-seller/orders/page.tsx:121-135 | one order exports as the header line, a line feed, and its row |
| OrdersAdmin.LineFeedNotQuoted | Client/src/app/admin-seller/orders/page.tsx:128-131 | a city holding a line feed is written unquoted, so one order's CSV spans more than two lines |
| OrdersAdmin.WithStatus | Client/src/app/admin-seller/orders/page.tsx:58-62 | rows whose id matches take the new status; the others are unchanged |
| OrdersAdmin.WithStatusKeepsIds | Client/src/app/admin-seller/orders/page.tsx:58-62 | the status change keeps every id and is idempotent |
| OrdersAdmin.OrdersPage.constructor | Client/src/app/admin-seller/orders/page.tsx:44-51 | `data` starts as the fetched orders and the dialog is closed |
| OrdersAdmin.OrdersPage.HandleStatusChange | Client/src/app/admin-seller/orders/page.tsx:55-71 | the rows change at once; after a refusal `data` is the `orders` snapshot, not the previous `data` |
| OrdersAdmin.OrdersPage.DeleteOrder | Client/src/app/admin-seller/orders/page.tsx:73-82 | only after success: rows with that id go and the dialog closes; a failure changes nothing |
| OrdersAdmin.RefusedChangeRestoresFetched | Client/src/app/admin-seller/orders/page.tsx:55-82 | after a successful delete of the only order, a refused status change brings the deleted order back, because the snapshot is taken from `orders` |
| ProductsAdmin.MergeFields | Client/src/app/admin-seller/products/page.tsx:89-93 | `{ ...product, ...updated }`: a returned field overrides the row's, an explicit null included, and an absent one keeps it |
| ProductsAdmin.MergeIdempotent | Client/src/app/admin-seller/products/page.tsx:89-93 | merging the same answer twice is merging it once; an empty answer changes nothing |
| ProductsAdmin.MergeRows | Client/src/app/admin-seller/products/page.tsx:89-93 | rows with the id are merged; others unchanged; the length is kept |
| ProductsAdmin.WithAvailable | Client/src/app/admin-seller/products/page.tsx:116-122 | rows with the id get `available` set; the others unchanged |
| ProductsAdmin.AvailableFor | Client/src/app/admin-seller/products/page.tsx:119-127 | the value written and sent is true exactly for "active" |
| ProductsAdmin.WithAvailableIsMerge | Client/src/app/admin-seller/products/page.tsx:89-122 | a status change is the merge of an answer holding only `available` |
| ProductsAdmin.WithAvailableLastWins | Client/src/app/admin-seller/products/page.tsx:116-122 | a second change on the same id overrides the first |
| ProductsAdmin.StatusChangeLeavesLabels | Client/src/app/admin-seller/products/page.tsx:116-122 | the change writes `available` while the status column reads `active`, so no row's label moves |
| ProductsAdmin.WithActive | Client/src/app/admin-seller/products/page.tsx:116-122 | the status change writing `active`: matching rows take the value, others unchanged |
| ProductsAdmin.CorrectedStatusChangeShowsStatus | Client/src/app/admin-seller/products/page.tsx:116-122 | writing `active`, every matching row's label shows the chosen status and the others keep theirs |
| ProductsAdmin.ProductsPage.constructor | Client/src/app/admin-seller/products/page.tsx:59-72 | an empty list, closed dialogs, no selection |
| ProductsAdmin.ProductsPage.HandleCreate | Client/src/app/admin-seller/products/page.tsx:74-83 | on success the product is appended and the dialog closes; a failure changes nothing |
| ProductsAdmin.ProductsPage.HandleUpdate | Client/src/app/admin-seller/products/page.tsx:85-101 | on success the answer is merged into rows with the id, the dialog closes and the selection is dropped; a failure changes nothing |
| ProductsAdmin.ProductsPage.HandleDelete | Client/src/app/admin-seller/products/page.tsx:103-111 | only after success are the rows with that id removed |
| ProductsAdmin.ProductsPage.HandleStatusChange | Client/src/app/admin-seller/products/page.tsx:113-135 | the value sent equals the value written; on success the rows keep the change; on refusal `data` is restored to the snapshot |
| ProductsAdmin.ProductsPage.OnEdit | Client/src/app/admin-seller/products/page.tsx:140-143 | the product becomes the selection and the edit dialog opens |
| CategoriesAdmin.Merge | Client/src/app/admin-seller/categories/page.tsx:124 | each field the answer carries overrides the row's |
| CategoriesAdmin.MergeRows | Client/src/app/admin-seller/categories/page.tsx:122-126 | rows whose id equals the argument are merged; the others unchanged |
| CategoriesAdmin.MergeWithoutIdKeepsRows | Client/src/app/admin-seller/categories/page.tsx:122-126 | an undefined id matches no row: the list is unchanged |
| CategoriesAdmin.CategoriesPage.constructor | Client/src/app/admin-seller/categories/page.tsx:82-88 | `data` starts as the fetched list, the form is empty and nothing is selected or open |
| CategoriesAdmin.CategoriesPage.SyncFetched | Client/src/app/admin-seller/categories/page.tsx:74-78 | fetched content replaces `data` wholesale; no content changes nothing |
| CategoriesAdmin.CategoriesPage.HandleCreate | Client/src/app/admin-seller/categories/page.tsx:95-109 | the request carries the form's title and description; on success the category is appended, the dialog closes and the form clears; a failure changes nothing |
| CategoriesAdmin.CategoriesPage.OnEdit | Client/src/app/admin-seller/categories/page.tsx:224-229 | the category is selected, its name and description fill the form and the edit sheet opens |
| CategoriesAdmin.CategoriesPage.HandleUpdate | Client/src/app/admin-seller/categories/page.tsx:111-138 | nothing without a selection; otherwise the request names the selected category, and on success the answer is merged into rows matching the `id` argument, the form clears and the sheet closes |
| CategoriesAdmin.CategoriesPage.HandleDelete | Client/src/app/admin-seller/categories/page.tsx:140-148 | only after success are rows with that id removed |
| CategoriesAdmin.SubmitEditForm | Client/src/app/admin-seller/categories/page.tsx:111-369 | submitting the edit form, where `id` is undefined: the request goes out and the sheet closes, but every row stays as it was |
| CategoriesAdmin.SubmitEditFormWithId | Client/src/app/admin-seller/categories/page.tsx:111-138 | passing the selected id merges the answer into that category's rows |
| ShippingAdmin.CountAvailable | Client/src/app/admin-seller/shipping/page.tsx:95 | at most the number of states; 0 exactly when none is available; all exactly when every one is |
| ShippingAdmin.StatisticsOf | Client/src/app/admin-seller/shipping/page.tsx:93-99 | total = number of states, 0 ≤ active ≤ total, active + inactive = total |
| ShippingAdmin.StatisticsAdd | Client/src/app/admin-seller/shipping/page.tsx:93-99 | the counts of two lists of states add up |
| ShippingAdmin.SelectedIds | Client/src/app/admin-seller/shipping/page.tsx:129-131 | every key whose flag is set is selected, and only such keys |
| ShippingAdmin.SelectedIdsDistinct | Client/src/app/admin-seller/shipping/page.tsx:129-131 | a selection object holds each key once, so each selected key is sent once |
| ShippingAdmin.SelectedIdsEmpty | Client/src/app/admin-seller/shipping/page.tsx:129-136 | the selection is empty exactly when no flag is set |
| ShippingAdmin.ShippingPage.constructor | Client/src/app/admin-seller/shipping/page.tsx:87-91 | no selection, dialog closed, no state chosen, empty price input |
| ShippingAdmin.ShippingPage.OnEditPrice | Client/src/app/admin-seller/shipping/page.tsx:255-258 | the state is chosen, its price fills the input and the dialog opens |
| ShippingAdmin.ShippingPage.CancelEdit | Client/src/app/admin-seller/shipping/page.tsx:536-539 | the dialog closes, the input empties and the choice is dropped |
| ShippingAdmin.ShippingPage.HandleUpdatePrice | Client/src/app/admin-seller/shipping/page.tsx:101-126 | nothing without a chosen state; a price that is not a number or is negative is refused unsent; otherwise it is sent with the owner id; only success closes and resets the dialog |
| ShippingAdmin.ShippingPage.BulkSetAvailability | Client/src/app/admin-seller/shipping/page.tsx:128-164 | an empty selection sends nothing; otherwise exactly the selected keys are sent as state ids; only success clears the selection |
| ShippingAdmin.ShippingPage.HandleBulkActivate | Client/src/app/admin-seller/shipping/page.tsx:128-145 | activates exactly the selected keys; an empty selection sends nothing; success clears the selection |
| ShippingAdmin.ShippingPage.HandleBulkDeactivate | Client/src/app/admin-seller/shipping/page.tsx:147-164 | deactivates exactly the selected keys; an empty selection sends nothing; success clears the selection |
| ShippingAdmin.ClearedFlagsSendNothing | Client/src/app/admin-seller/shipping/page.tsx:129-136 | a selection whose flags are all cleared sends nothing |
| ShippingAdmin.ZeroPriceSent | Client/src/app/admin-seller/shipping/page.tsx:107-118 | a price of zero is accepted and sent |
| ProductFormLists.Toggled | Client/src/app/components/UpdateProductUi.tsx:167-173 | a present size is filtered out and an absent one is appended at the end; only that size changes membership |
| ProductFormLists.ToggleTwiceMembership | Client/src/app/components/UpdateProductUi.tsx:167-173 | toggling twice restores which sizes are chosen |
| ProductFormLists.ToggleTwiceRestores | Client/src/app/components/CreateProductUi.tsx:125-131 | choosing then unchoosing a new size gives back the very same list |
| ProductFormLists.AddColor | Client/src/app/components/UpdateProductUi.tsx:175-180 | a trimmed, non-empty, new colour is appended and the input cleared; otherwise neither changes |
| ProductFormLists.AddColorKeepsNoDuplicates | Client/src/app/components/CreateProductUi.tsx:133-138 | a duplicate-free colour list stays duplicate-free |
| ProductFormLists.AddedColorIsTrimmed | Client/src/app/components/UpdateProductUi.tsx:175-180 | an added colour is non-empty with no surrounding whitespace, and adding the same input again is refused |
| ProductFormLists.RemoveAt | Client/src/app/components/UpdateProductUi.tsx:182-184 | one element fewer exactly when the index is in range |
| ProductFormLists.RemoveAtSplice | Client/src/app/components/CreateProductUi.tsx:140-142 | within range exactly that position goes and the rest keep their order |
| ProductFormLists.RemoveAtOutOfRange | Client/src/app/components/UpdateProductUi.tsx:182-184 | an index out of range removes nothing |
| UpdateProductUi.PriceText | Client/src/app/components/UpdateProductUi.tsx:84 | zero or a missing price gives the empty text; a positive price digits that read back as the price; a negative one a minus sign followed by digits that read back as its magnitude |
| UpdateProductUi.UpdateProductForm.constructor | Client/src/app/components/UpdateProductUi.tsx:58-75 | the form starts at its defaults with three empty slots |
| UpdateProductUi.UpdateProductForm.ResetForm | Client/src/app/components/UpdateProductUi.tsx:96-112 | every field returns to its default: empty texts and lists, available, no images, three empty slots |
| UpdateProductUi.UpdateProductForm.LoadInitial | Client/src/app/components/UpdateProductUi.tsx:79-92 | when open with a product, its fields are copied in, with '', [], null and true for missing ones; otherwise nothing changes |
| UpdateProductUi.UpdateProductForm.HandleUpdateProduct | Client/src/app/components/UpdateProductUi.tsx:114-158 | nothing is submitted without an id; otherwise the id and the form's values, with the placeholder image names |
| UpdateProductUi.UpdateProductForm.HandleOpenChange | Client/src/app/components/UpdateProductUi.tsx:160-165 | closing resets the form; opening changes nothing |
| UpdateProductUi.UpdateProductForm.ToggleSize | Client/src/app/components/UpdateProductUi.tsx:167-173 | sizes become `Toggled` of the old sizes |
| UpdateProductUi.UpdateProductForm.AddColorFromInput | Client/src/app/components/UpdateProductUi.tsx:175-180 | colours and input become `AddColor` of the old ones |
| UpdateProductUi.UpdateProductForm.RemoveColor | Client/src/app/components/UpdateProductUi.tsx:182-184 | colours become `RemoveAt` of the old ones |
| UpdateProductUi.UpdateProductForm.RemoveMainImage | Client/src/app/components/UpdateProductUi.tsx:219-222 | the chosen main image and its preview go |
| UpdateProductUi.UpdateProductForm.RemoveExtraImage | Client/src/app/components/UpdateProductUi.tsx:224-232 | slot `index` of both lists becomes empty; every other slot and the length are kept |
| UpdateProductUi.LoadThenSubmitWithoutId | Client/src/app/components/UpdateProductUi.tsx:79-117 | a product with neither id nor price loads an empty price and is never submitted |
| CreateProductUi.ExtraImageEntries | Client/src/app/components/CreateProductUi.tsx:103-107 | one `extraImages` entry for each filled slot and no others |
| CreateProductUi.ExtraImageEntriesAppend | Client/src/app/components/CreateProductUi.tsx:103-107 | the entries of two runs of slots follow each other, so slot order is kept |
| CreateProductUi.EmptySlotsAddNothing | Client/src/app/components/CreateProductUi.tsx:103-107 | empty slots add no entry |
| CreateProductUi.AppendExtraImages | Client/src/app/components/CreateProductUi.tsx:103-107 | the `forEach` loop appends exactly `ExtraImageEntries` of the slots |
| CreateProductUi.TextEntries | Client/src/app/components/CreateProductUi.tsx:89-97 | eight text entries, always |
| CreateProductUi.MainImageSentWhenChosen | Client/src/app/components/CreateProductUi.tsx:89-107 | the main image is sent exactly when one is chosen, right after the text entries, and the entry count is 8 + main image + filled slots |
| CreateProductUi.NoExtraImagesWhenSlotsEmpty | Client/src/app/components/CreateProductUi.tsx:103-107 | with every slot empty only the text entries and the main image are sent |
| CreateProductUi.SwitchesNotSent | Client/src/app/components/CreateProductUi.tsx:89-107 | the availability and sponsored switches are never sent |
| CreateProductUi.OuterSlotsSent | Client/src/app/components/CreateProductUi.tsx:99-107 | with only the outer slots filled, exactly those two files follow the text entries, in slot order |
| CreateProductUi.CreateProductForm.constructor | Client/src/app/components/CreateProductUi.tsx:47-67 | the form starts at its defaults with the built-in owner id |
| CreateProductUi.CreateProductForm.ResetForm | Client/src/app/components/CreateProductUi.tsx:69-84 | every field but the owner id returns to its default |
| CreateProductUi.CreateProductForm.HandleCreateProduct | Client/src/app/components/CreateProductUi.tsx:86-116 | the entries sent are `Entries` of the form as it was; then the form is reset and the owner id kept |
| CreateProductUi.CreateProductForm.HandleOpenChange | Client/src/app/components/CreateProductUi.tsx:118-123 | closing resets the form; opening changes nothing; the owner id is never reset |
| CreateProductUi.CreateProductForm.ToggleSize | Client/src/app/components/CreateProductUi.tsx:125-131 | sizes become `Toggled` of the old sizes |
| CreateProductUi.CreateProductForm.AddColorFromInput | Client/src/app/components/CreateProductUi.tsx:133-138 | colours and input become `AddColor` of the old ones |
| CreateProductUi.CreateProductForm.RemoveColor | Client/src/app/components/CreateProductUi.tsx:140-142 | colours become `RemoveAt` of the old ones |
| CreateProductUi.CreateProductForm.RemoveMainImage | Client/src/app/components/CreateProductUi.tsx:177-180 | the chosen main image and its preview go |
| CreateProductUi.CreateProductForm.RemoveExtraImage | Client/src/app/components/CreateProductUi.tsx:182-190 | slot `index` of both lists becomes empty; every other slot and the length are kept |
| CreateProductUi.RemovedSlotNotSent | Client/src/app/components/CreateProductUi.tsx:99-190 | emptying the middle of three filled slots: only the other two files are sent |
| ProductRow.EmptyFilterPassesNamed | Client/src/app/components/ProductRow.tsx:76-81 | an empty filter passes every row that has a name |
| ProductRow.MissingNameFails | Client/src/app/components/ProductRow.tsx:77-79 | a row without a name never passes |
| ProductRow.SubstringPasses | Client/src/app/components/ProductRow.tsx:76-81 | a name containing the filter as typed passes |
| ProductRow.FilterIgnoresCase | Client/src/app/components/ProductRow.tsx:79-80 | upper- or lower-casing the filter changes nothing |
| ProductRow.PassingNameIsLongEnough | Client/src/app/components/ProductRow.tsx:76-81 | a passing name is at least as long as the filter |
| ProductRow.StatusLabel | Client/src/app/components/ProductRow.tsx:99-100 | "pending" exactly when `active` is false; "active" otherwise, a missing field included |
| ProductRow.MenuActions | Client/src/app/components/ProductRow.tsx:120-168 | the status menu passes the row's id with only "active" or "pending"; Edit passes the whole product and Delete its id |
| ListOps.Without | Client/src/app/admin-seller/products/page.tsx:106 | `filter(p => p.id !== id)`: exactly the elements with another id, never more than before |
| ListOps.WithoutAppend | Client/src/app/admin-seller/categories/page.tsx:143 | the filter keeps the order of what it keeps |
| ListOps.WithoutAbsent | Client/src/app/admin-seller/orders/page.tsx:76 | an id no element has removes nothing |
| ListOps.WithoutIdempotent | Client/src/app/admin-seller/products/page.tsx:106 | filtering twice by the same id is filtering once |
| ListOps.WithoutLength | Client/src/app/admin-seller/categories/page.tsx:143 | the length drops by exactly the number of elements with the id |
| Text.Lower | Client/src/app/components/ProductRow.tsx:79-80 | `toLowerCase`: same length, each character lower-cased |
| Text.LowerIdempotent | Client/src/app/components/ProductRow.tsx:79-80 | lower-casing twice is lower-casing once |
| Text.ContainsIff | Client/src/app/components/ProductRow.tsx:79-80 | `includes` holds exactly when the filter occurs in the name at some position |
| Text.ContainsLower | Client/src/app/components/ProductRow.tsx:79-80 | an occurrence survives lower-casing both sides |
| Text.Trim | Client/src/app/components/UpdateProductUi.tsx:176 | `trim`: the result is one contiguous piece of the input, everything before and after it is whitespace, and neither of its ends is whitespace; empty exactly when the input is all whitespace |
| Text.NatToStringRoundTrip | Client/src/app/components/UpdateProductUi.tsx:84 | the decimal rendering of a number reads back as that number |
| Text.IntToString | Client/src/app/admin-seller/shipping/page.tsx:257 | `toString`: a leading minus exactly for negative numbers, followed by digits that read back as the number's magnitude |
| Text.JoinCount | Client/src/app/admin-seller/orders/page.tsx:121-135 | joining parts without the separator character puts exactly one separator between each pair |

## Left out

- Browser storage and JSON. `localStorage` and `JSON.stringify`/`JSON.parse` are the abstract `Blob` cell: `Missing`, `Corrupt` (text that does not parse) or a stored cart. The `typeof window` test is the store's `browser` flag.
- Caching. The data-fetching library's caching, tag invalidation and endpoint definitions are left out. Mutations are calls on the store or page objects.
- Rendering. JSX, the table library's sorting and pagination, dialogs, toasts, router navigation and console logging are left out. So are the creation of the CSV download (Blob, link, date-stamped file name) and FileReader image previews.
- Numbers:
  - Product and shipping prices are whole dinars, so fractional product and shipping prices are out, and so is floating point.
  - `toFixed(2)` is modelled on cents.
  - `parseFloat` is a parameter: not a number, or a value.
  - The shipping coverage percentage, which divides by zero when there are no states, is not part of this model.
- Text. Case mapping and whitespace are ASCII only, with the whitespace of `\s` restricted to space, tab, line feed, vertical tab, form feed and carriage return. Unicode case folding and Unicode spaces are out. A string is a sequence of characters, whereas zod's `.min` counts UTF-16 code units, so a character outside the Basic Multilingual Plane counts once here and twice in the source.
- Key order. `Object.keys` order is taken as the order of the selection pairs and of the export's object literal.
- Timing. Asynchronous interleaving, React's batching of state updates, several tabs and concurrent mutations are left out. Each handler runs to completion with the server's answer given.
- CartStore.CartStorage.GetCartFromStorage: a stored value is taken to be a well-formed cart. Parsed JSON of another shape is not modelled.
- Orders table: the table on the orders page renders `orders`, not `data`. The model states how `data` changes, but not that those changes are invisible in the table.
- Products table: the table on the products page renders `products`, the query's result (products/page.tsx:62 and 147), never `data`. Every ProductsPage handler's change to `data` is therefore invisible in the table. The server's product rows have no `active` field either (DatabaseTypes.ts:51-63), so the status column reads a field that is always missing.
- Selection keys: the shipping table is given no row id, so the keys of `rowSelection` are the table's row keys (row indices by default). The model sends these keys as the state ids, as the source does, and does not model whether they name real states. `rowSelection` is a sequence of key and flag pairs; `DistinctKeys` states that an object holds each key once, which the sequence does not enforce by itself.
- Product update answers: an explicit null `id` in an update answer is not modelled, because a row's id is always a string. Every other nullable field distinguishes a missing key from an explicit null.
- Product owner: products/page.tsx:192 passes an `ownerId` property to the creation form, but CreateProductUi does not accept it and sends its own built-in seller id. The model sends that built-in id.
- Quantity rule: the description of the cart promises a quantity of at least 1. The code does not enforce it: `NegativeRequestStored` shows a stored line of quantity −3. `AddKeepsPositive` holds only for requests that are not negative.
- OrdersAdmin.LineFeedNotQuoted: fields holding a line feed are not quoted. Section 2 of RFC 4180 requires quoting them. The lemma exhibits the extra line, and no corrected export is modelled.
- UpdateProductUi.UpdateProductForm.RemoveExtraImage: requires the index to be one of the three slots. In the source an index past the end would grow the arrays, but the page only ever passes 0, 1 or 2.
- CreateProductUi.CreateProductForm.RemoveExtraImage: requires the index to be one of the three slots, for the same reason.
- Image changes. handleMainImageChange and handleExtraImageChange are left out: their effect is a file choice plus an asynchronous preview read.

## Findings

| source | as written | input that shows it | evidently intended | confidence | as-written member | corrected member |
|---|---|---|---|---|---|---|
| Client/src/app/cart/page.tsx:47 | the page sends the actions "increase"/"decrease", which the store ignores | any quantity change to a value ≥ 1 | "increment"/"decrement", the actions the store acts on | not executed | CartPage.PageUpdateNeverChangesQuantities | CartPage.CorrectedRequestMovesQuantity |
| Client/src/app/cart/page.tsx:30-33 | the page reads `cartItems` and `total`, which the store's result does not have | a cart holding one line of price 10 and quantity 2 | read `items` and `totalPrice` | not executed | CartPage.PageSeesNoItems | CartPage.CorrectedPageShowsItemTotal |
| Client/src/app/admin-seller/categories/page.tsx:124,369 | `handleUpdate` is the form's onSubmit, so its `id` is undefined and no row is merged | editing any category and submitting the sheet | merge into the selected category's row | not executed | CategoriesAdmin.SubmitEditForm | CategoriesAdmin.SubmitEditFormWithId |
| Client/src/app/admin-seller/products/page.tsx:119 | the status change writes `available`, but the status column reads `active` (ProductRow.tsx:99) | choosing "pending" for an active product | write the field the column reads, on the list the table renders | not executed | ProductsAdmin.StatusChangeLeavesLabels | ProductsAdmin.CorrectedStatusChangeShowsStatus |
