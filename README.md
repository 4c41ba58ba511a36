# Buffet cashier: a verified model of the till, the store and the back office

This project models, in Dafny, the core of a point-of-sale web application for a buffet restaurant. The application is a React client over a hosted database. The model covers:

- **The till** (`Pos`, `Cart`). The cart is a list of product lines. The page adds, changes and removes lines, computes the subtotal and the discounted total, and checks the cash handed over. It then builds the sale header and its lines, records the sale, decrements stock, credits loyalty points, prints the receipt and resets the form.
- **The data-access layer** (`Store`). The stock, customers, sales and sale-lines tables are in-memory maps and a sequence, held by the `Database` class. Stock decrements, loyalty points, sale creation and refunds are methods that change those tables step by step. Each method is proved equal to a function of the old tables, and the lemmas talk about those functions.
- **The back-office pages** (`SalesPage`, `ProductsPage`, `CustomersPage`, `ExpensesPage`, `InventoryPage`, `ReportsPage`, `SettingsPage`, `LoginPage`).
  - Each page with state is a class.
  - Its handlers are methods.
  - Its calls to the backend are a log of requests.
  - Its toasts are a log of notices.
  - An answer from the backend (a list that was read, whether a write succeeded) is a parameter.
- **The receipt** (`Receipt`). `generateThermalReceipt` lays out a document of header lines, item rows and total rows. The HTML and CSS text itself is not modelled.
- **Role gating** (`Routes`, `Guard`, `Layout`). This covers:
  - the route table;
  - the redirect decision of the route guard;
  - the role-filtered navigation of the application shell.
- **Shared pieces** (`Types`, `Common`, `Seqs`, `Text`, `Search`):
  - the record shapes;
  - optional values and number fields;
  - filtering and summing of sequences;
  - substring search, digits and padding;
  - the case-insensitive search that five pages share.

Money is `real` and counts are `int`. Clock readings, random draws, generated ids, the case mapping of `toLowerCase`/`toUpperCase` and date formatting are all parameters.

## Model

| member | source | states |
|---|---|---|
| Cart.Find | src/pages/POSPage.tsx:94 | the index found is the first line for the product; None exactly when no line is for it |
| Cart.AddToCart | src/pages/POSPage.tsx:80-91 | a product not in the cart is appended with quantity 1; afterwards the product is in the cart |
| Cart.AddToCartExisting | src/pages/POSPage.tsx:80-86 | on a valid cart, adding a product already present raises exactly its line by one and leaves every other line as it was |
| Cart.AddToCartValid | src/pages/POSPage.tsx:80-91 | adding keeps the cart invariant: every quantity is at least 1 and product ids are distinct |
| Cart.RemoveFromCart | src/pages/POSPage.tsx:106-108 | after removal no line is for the product, and the cart is no longer |
| Cart.RemoveFromCartSplice | src/pages/POSPage.tsx:106-108 | on a valid cart, removal splices out the product's one line, or changes nothing when the product is absent |
| Cart.RemoveFromCartValid | src/pages/POSPage.tsx:106-108 | removal keeps the cart invariant |
| Cart.UpdateQuantityAbsent | src/pages/POSPage.tsx:93-104 | a quantity change for a product not in the cart leaves the cart unchanged |
| Cart.UpdateQuantityCases | src/pages/POSPage.tsx:93-104 | a line that would reach zero or less is spliced out; otherwise only that line's quantity becomes quantity + change |
| Cart.UpdateQuantityValid | src/pages/POSPage.tsx:93-104 | a quantity change keeps the cart invariant |
| Cart.ClearCart | src/pages/POSPage.tsx:110-112 | clearing leaves no lines |
| Cart.SubtotalCons | src/pages/POSPage.tsx:114-116 | the subtotal is price × quantity of the first line plus the subtotal of the rest |
| Cart.SubtotalAppend | src/pages/POSPage.tsx:114-116 | appending a line adds its price × quantity to the subtotal |
| Cart.AddToCartSubtotal | src/pages/POSPage.tsx:80-91 | adding a product raises the subtotal by one unit price: the price of the line already in the cart, or of the new product |
| Cart.Total | src/pages/POSPage.tsx:118-122 | the total is never negative; it is subtotal − discount when the discount does not exceed the subtotal, else 0 |
| Cart.EmptyDiscount | src/pages/POSPage.tsx:120 | an empty discount field gives the same total as a discount of 0 |
| Pos.PosInvoiceNumberFormat | src/pages/POSPage.tsx:164 | the till's invoice number is `INV-` and the decimal digits of the clock reading; different readings give different numbers |
| Pos.ChosenCustomer | src/pages/POSPage.tsx:154 | a customer id is recorded exactly when the selection is neither '' nor 'none' |
| Pos.Points | src/pages/POSPage.tsx:184 | points are the floor of total / 10: points × 10 ≤ total < (points + 1) × 10, and never negative for a non-negative total |
| Pos.CartLines | src/pages/POSPage.tsx:167-173 | one sale line per cart line, in order, holding a snapshot of the product's id, name and price and the line amount |
| Pos.CartLinesSum | src/pages/POSPage.tsx:153-173 | the line amounts sum to the header's subtotal, and a valid cart gives one line per product |
| Pos.SaleRecordFacts | src/pages/POSPage.tsx:153-165 | the header is completed and untaxed; its total is max(0, subtotal − discount); an accepted cash sale records change ≥ 0 with received = total + change; any other method records received = total and change 0 |
| Pos.DoubleDecrement | src/pages/POSPage.tsx:175-180 | as written, a paid line's stock ends at max(0, max(0, q − n) − n) |
| Pos.DoubleDecrementExample | src/db/api.ts:268-270 | with 10 in stock and 3 sold, as written the stock ends at 4; with one decrement it ends at 7 |
| Pos.SingleDecrement | src/db/api.ts:268-270 | with the page's second loop removed, a paid line's stock ends at max(0, q − n) |
| Pos.SingleDecrementOthers | src/db/api.ts:268-270 | with one decrement, stock of products not in the cart is untouched |
| Pos.PaymentCustomer | src/pages/POSPage.tsx:182-186 | a chosen, existing customer gains the total in purchases and floor(total / 10) in points; no other customer changes |
| Pos.PaymentFailure | src/pages/POSPage.tsx:175 | a failed insert stops the payment: no decrement of the page's own, no points, no lines written |
| Pos.ShownInvoiceIsRecorded | src/pages/POSPage.tsx:188 | the success toast shows the invoice number the till recorded |
| Pos.PosReceiptIsBare | src/pages/POSPage.tsx:197 | the receipt printed after a sale lists no items and shows '-' for the cashier, because it is given the bare inserted header |
| Pos.FilterProductsShows | src/pages/POSPage.tsx:226-229 | a product is listed exactly when its name or its barcode contains the lower-cased term; an empty term lists the whole catalogue |
| Pos.PosPage.constructor | src/pages/POSPage.tsx:18-36 | the page opens with an empty, valid cart, cash, no amount, discount 0, no customer, 88 mm paper and the default store name |
| Pos.PosPage.LoadStoreName | src/pages/POSPage.tsx:44-53 | a truthy `store_name` setting replaces the store name; nothing else changes |
| Pos.PosPage.AddToCart | src/pages/POSPage.tsx:80-91 | the cart field becomes `Cart.AddToCart` of the old cart and still satisfies the cart invariant; the form is unchanged |
| Pos.PosPage.UpdateQuantity | src/pages/POSPage.tsx:93-104 | the cart field becomes `Cart.UpdateQuantity` of the old cart and still satisfies the cart invariant; the form is unchanged |
| Pos.PosPage.RemoveFromCart | src/pages/POSPage.tsx:106-108 | the cart field becomes `Cart.RemoveFromCart` of the old cart and still satisfies the cart invariant; the form is unchanged |
| Pos.PosPage.ClearCart | src/pages/POSPage.tsx:110-112 | the cart becomes empty; the form is unchanged |
| Pos.PosPage.HandleCheckout | src/pages/POSPage.tsx:124-134 | an empty cart only raises the error and the dialog stays as it was; otherwise the payment dialog opens |
| Pos.PosPage.HandlePayment | src/pages/POSPage.tsx:136-224 | as written: too little cash changes nothing; otherwise the tables become the create, then a second decrement per line, then the points; a failed insert keeps the cart and form; a success toasts the invoice, prints the receipt (a print failure only warns) and resets the cart and form |
| Pos.PosPage.DecrementCart | src/pages/POSPage.tsx:178-180 | the page's loop leaves the stock table decremented by each cart line in order, and every other table alone |
| Pos.PosPage.HandlePaymentOnce | src/db/api.ts:268-270 | the same handler with only the create's decrement: the tables become the create, then the points |
| Pos.PosPage.Finish | src/pages/POSPage.tsx:188-213 | the end of a successful payment: the toasts, the receipt handed to the printer for the returned header (a print failure adds only a warning), the emptied cart and the fresh form |
| Store.SetQuantity | src/db/api.ts:119-132 | `updateQuantity` rewrites only the product's quantity and restock time; other records and a missing product are untouched |
| Store.DecrementedEffect | src/db/api.ts:134-140 | a decrement sets the quantity to max(0, q − amount), so the result is never negative; a product without a record changes nothing |
| Store.DecrementAllAt | src/db/api.ts:268-270 | with one line per product, each product's stock drops by its line's quantity, clamped at 0; products without a line are untouched |
| Store.RestoreAllAt | src/db/api.ts:300-307 | the refund loop adds the total quantity of the product's lines back, with no clamp and with its minimum kept |
| Store.WithPoints | src/db/api.ts:196-203 | `addLoyaltyPoints` adds exactly the points to that customer, with no clamp; a missing customer changes nothing |
| Store.PurchaseEffects | src/db/api.ts:272-280 | a sale adds the total to an existing chosen customer's purchases; a refund subtracts it, clamped at 0; neither touches loyalty points or any other customer |
| Store.Tag | src/db/api.ts:257-260 | one item row per input line, in order, each tagged with the new sale's id |
| Store.CreateFailure | src/db/api.ts:249-265 | a failed header insert writes nothing; a failed item insert leaves stock and customers untouched |
| Store.CreateItems | src/db/api.ts:247-283 | a successful create stores the header under the new id, stores exactly the tagged lines for that sale, and leaves other sales' lines alone |
| Store.CreateConsistent | src/db/api.ts:247-283 | every outcome of a create keeps every sale line attached to a stored sale |
| Store.RefundFailure | src/db/api.ts:287-297 | refunding an unknown id fails with 'Sale not found', and a failed status update also fails; both change nothing |
| Store.RefundEffect | src/db/api.ts:285-320 | a refund marks the sale refunded and keeps every other sale and the set of sales; it adds every line's quantity back to existing stock; the sale's customer ends at max(0, purchases − total) and every other customer is unchanged; loyalty points and consistency are kept |
| Store.RefundTwice | src/db/api.ts:285-320 | with no status guard, a second refund of the same sale succeeds and restores the stock a second time |
| Store.SaleThenRefund | src/db/api.ts:247-320 | selling a line then refunding it restores the stock only when the stock covered the sale; an oversold product ends at the sold quantity |
| Store.ViewOf | src/db/api.ts:226-234 | `getById` finds exactly the stored sales and joins their lines |
| Store.InvoiceNumberFormat | src/db/api.ts:322-327 | the number is 17 characters: `INV-`, the eight digits YYYYMMDD of the ISO date, `-`, and four digits that read back as the draw in [0, 9999] |
| Store.Database.GetByProductId | src/db/api.ts:99-107 | returns the stock record of the product, or None exactly when there is none |
| Store.Database.UpdateQuantity | src/db/api.ts:119-132 | the stock table becomes `SetQuantity` of the old one; the call fails exactly when no record exists; other tables are unchanged |
| Store.Database.DecrementQuantity | src/db/api.ts:134-140 | read-then-clamped-write: the stock table becomes `Decremented` of the old one |
| Store.Database.AddLoyaltyPoints | src/db/api.ts:196-203 | read-then-write: the customers table becomes `WithPoints` of the old one |
| Store.Database.CreateSale | src/db/api.ts:247-283 | the tables and the result are those of `CreateSpec` on the old tables |
| Store.Database.Refund | src/db/api.ts:285-320 | the tables and the result are those of `RefundSpec` on the old tables |
| Store.Database.DecrementStock | src/db/api.ts:268-270 | the loop leaves the stock table as `DecrementAll` of the old one |
| Store.Database.RestoreStock | src/db/api.ts:300-307 | the loop leaves the stock table as `RestoreAll` of the old one |
| Store.Database.AddPurchase | src/db/api.ts:272-280 | the customers table becomes `WithPurchase` of the old one |
| Store.Database.RemovePurchase | src/db/api.ts:309-317 | the customers table becomes `WithoutPurchase` of the old one |
| Receipt.StyleNarrowing | src/utils/thermalReceipt.ts:11-14 | the page width is 55mm only for 55 mm paper; every font there is two pixels smaller; the default paper is 88 mm |
| Receipt.PaymentLabels | src/utils/thermalReceipt.ts:156 | cash and card get their own labels; every other method gets the e-wallet label |
| Receipt.ItemRows | src/utils/thermalReceipt.ts:124-130 | one item row per sale line, in order, with its name, quantity and line amount |
| Receipt.TotalsLayout | src/utils/thermalReceipt.ts:133-157 | the totals open with the subtotal, and the grand total is always followed by the payment label |
| Receipt.DiscountShown | src/utils/thermalReceipt.ts:138-143 | a discount row is printed exactly when the discount is positive |
| Receipt.TaxShown | src/utils/thermalReceipt.ts:144-149 | a tax row is printed exactly when the tax is positive |
| Receipt.CashShown | src/utils/thermalReceipt.ts:158-167 | received and change rows are printed exactly for cash with a non-zero received amount, and they close the totals; a missing change prints 0 |
| Receipt.HeaderShown | src/utils/thermalReceipt.ts:109-116 | the header names the store, or the default when none is given; it shows the invoice number, a blank date without creation time and '-' without a cashier; it has a customer line exactly when a customer is joined; the width follows the paper |
| Receipt.ItemsShown | src/utils/thermalReceipt.ts:124-130 | the receipt's item rows match the sale's lines one for one; no lines print no rows |
| Routes.FindRoute | src/routes.tsx:24-99 | the route found has the path asked for; None exactly when no route has that path |
| Routes.PathsDistinct | src/routes.tsx:24-99 | all paths in the table are distinct |
| Routes.RolesDeclared | src/routes.tsx:24-99 | every route declares its roles and every route allows admin |
| Routes.TableMatchesPolicy | src/routes.tsx:24-99 | the listed routes allow exactly the stated policy: / and /sales everyone; six back-office pages admin and manager; /settings and /admin admin only |
| Routes.EntryShape | src/routes.tsx:24-99 | /login and /unauthorized are hidden; the other entries leave `visible` unset; each entry's roles are those of its group |
| Routes.HiddenRoutes | src/routes.tsx:24-38 | exactly the first two routes are hidden from the navigation |
| Guard.MatchPlainPatterns | src/components/common/RouteGuard.tsx:12-20 | on patterns without '*', matching a public route is plain membership |
| Guard.PublicPaths | src/components/common/RouteGuard.tsx:10 | none of the four public patterns contains '*', so a path is public exactly when it is one of them |
| Guard.Decide | src/components/common/RouteGuard.tsx:27-51 | nothing happens while loading; a redirect only ever leads to /login, / or /unauthorized, and only the login redirect remembers the current path |
| Guard.SignedOut | src/components/common/RouteGuard.tsx:33-36 | a signed-out visitor stays on public pages and any other path sends them to /login with `from` set to that path |
| Guard.SignedIn | src/components/common/RouteGuard.tsx:38-50 | signed in with a profile: /login goes to /; a listed private route is let through exactly when the role may open it, else it goes to /unauthorized; unlisted paths are let through |
| Guard.ProfileNotLoaded | src/components/common/RouteGuard.tsx:38-50 | before the profile loads, a signed-in user is moved only off /login |
| Guard.AdminNeverUnauthorized | src/components/common/RouteGuard.tsx:43-49 | an admin is never sent to /unauthorized |
| Guard.RedirectSettles | src/components/common/RouteGuard.tsx:33-50 | redirects do not chain: the target of any redirect is let through for the same session |
| Layout.RouteName | src/components/layouts/AppLayout.tsx:70-84 | the ten navigable paths get their translated labels; any other path is shown as itself |
| Layout.NavItems | src/components/layouts/AppLayout.tsx:93-97 | one link per route kept, in order, named by `getRouteName` and pointing at the route's path |
| Layout.NavigationByRole | src/components/layouts/AppLayout.tsx:86-97 | a cashier sees / and /sales; a manager sees eight links; an admin sees all ten visible routes, in table order; nobody without a profile sees any |
| Layout.NoProfileNoLinks | src/components/layouts/AppLayout.tsx:90 | with no profile the navigation is empty |
| Layout.ShownRoutes | src/components/layouts/AppLayout.tsx:86-92 | the routes kept are exactly the visible ones that declare roles including the profile's role, in table order |
| Layout.NavigationAgreesWithGuard | src/components/layouts/AppLayout.tsx:86-97 | every link a user is shown opens without a redirect from the route guard, and carries a translated label |
| Layout.AtMostOneActive | src/components/layouts/AppLayout.tsx:102 | a link is active when the path equals its href, so at most one link is highlighted |
| Layout.Caption | src/components/layouts/AppLayout.tsx:142 | the admin and manager captions go exactly to those roles; any other case gets the cashier caption |
| Search.SearchShows | src/pages/SalesPage.tsx:98-101 | the search keeps, in order, exactly the records with a field containing the lower-cased term |
| SalesPage.StatusOf | src/pages/SalesPage.tsx:154-155 | the completed badge is shown exactly for status 'completed'; any other status shows the refunded badge |
| SalesPage.PaymentOf | src/pages/SalesPage.tsx:217-218 | cash and card get their labels; any other method shows credit |
| SalesPage.FilteredSalesShows | src/pages/SalesPage.tsx:98-101 | a sale is listed exactly when its invoice number or its customer's name contains the lower-cased term; an empty term lists every loaded sale |
| SalesPage.DialogButtons | src/pages/SalesPage.tsx:272-290 | close is always offered; print and refund exactly for a completed sale |
| SalesPage.RefundOfferedOnce | src/pages/SalesPage.tsx:272-290 | after a successful refund the same sale, opened again, offers no refund button |
| SalesPage.SalesPage.LoadSales | src/pages/SalesPage.tsx:29-43 | a read replaces the list; a failed read keeps it and shows an error |
| SalesPage.SalesPage.ViewDetails | src/pages/SalesPage.tsx:45-57 | the dialog opens on the joined sale; a failed query only shows an error |
| SalesPage.SalesPage.HandleRefund | src/pages/SalesPage.tsx:59-80 | refunding with no sale selected does nothing; otherwise the store refunds the sale; success closes the dialog and reloads the list; failure shows only an error; the busy flag ends cleared |
| ProductsPage.FormFor | src/pages/ProductsPage.tsx:64-76 | editing fills the form from the product with initial stock '0' |
| ProductsPage.Submission | src/pages/ProductsPage.tsx:151-171 | no data without a name or a price; otherwise empty description, barcode, category, image and cost become undefined |
| ProductsPage.BlankRejected | src/pages/ProductsPage.tsx:77-89 | the form for a new product cannot be submitted as it opens |
| ProductsPage.EditRoundTrip | src/pages/ProductsPage.tsx:63-171 | saving a product unchanged sends back its own data |
| ProductsPage.Seed | src/pages/ProductsPage.tsx:182-186 | a new product's stock record has the parsed initial stock, or 0, and a minimum of 10 |
| ProductsPage.SubmitRequests | src/pages/ProductsPage.tsx:150-191 | no call with a required field missing; an edit is only an update; a create is followed by the stock seed only when it succeeds |
| ProductsPage.EditSeedsNothing | src/pages/ProductsPage.tsx:173-179 | editing never creates stock |
| ProductsPage.CheckImage | src/pages/ProductsPage.tsx:99-116 | a file over 1024 × 1024 bytes is refused first; any other file is refused unless its type starts with 'image/' |
| ProductsPage.FilteredProductsShows | src/pages/ProductsPage.tsx:229-233 | a product is listed exactly when its name, barcode or category contains the lower-cased term |
| ProductsPage.ProductsPage.OpenDialog | src/pages/ProductsPage.tsx:63-92 | the dialog opens on the blank form for a new product or the pre-filled form for an edit |
| ProductsPage.ProductsPage.ImageUpload | src/pages/ProductsPage.tsx:94-148 | no file does nothing; a refused file shows its error; an accepted file is uploaded and its URL put in the form only on success |
| ProductsPage.ProductsPage.HandleSubmit | src/pages/ProductsPage.tsx:150-204 | the calls are those of `SubmitRequests`; success closes the dialog and reloads; a missing field or a failed call leaves the dialog and list |
| ProductsPage.ProductsPage.HandleDelete | src/pages/ProductsPage.tsx:206-227 | does nothing with no product selected; otherwise one delete, then a reload on success or an error |
| CustomersPage.FormFor | src/pages/CustomersPage.tsx:55-61 | editing fills the form from the customer, with '' for a missing email or phone |
| CustomersPage.Submission | src/pages/CustomersPage.tsx:74-89 | no data without a name; an empty email or phone becomes undefined |
| CustomersPage.SubmitRequests | src/pages/CustomersPage.tsx:73-107 | no call without a name; an edit updates only the contact columns; a create starts points and purchases at 0 |
| CustomersPage.ApplyUpdate | src/db/api.ts:185-190 | an update writes the name, and the email and phone only when they are sent; an unsent contact, and the loyalty points and purchases, keep their stored values |
| CustomersPage.ClearedContactKept | src/pages/CustomersPage.tsx:85-92 | clearing the email or phone field in the dialog leaves the stored contact as it was, because the cleared field is sent as `undefined` |
| CustomersPage.EditKeepsCounters | src/pages/CustomersPage.tsx:85-92 | an update never writes loyalty points or purchases, and saving an unchanged customer with a name gives it back exactly |
| CustomersPage.FilteredCustomersShows | src/pages/CustomersPage.tsx:145-149 | a customer is listed exactly when the name, email or phone contains the lower-cased term |
| CustomersPage.CustomersPage.HandleSubmit | src/pages/CustomersPage.tsx:73-120 | the calls are those of `SubmitRequests`; success closes the dialog and reloads; otherwise an error |
| CustomersPage.CustomersPage.HandleDelete | src/pages/CustomersPage.tsx:122-143 | does nothing with no customer selected; otherwise one delete, then a reload on success or an error |
| ExpensesPage.FormFor | src/pages/ExpensesPage.tsx:59-66 | editing fills the form from the expense |
| ExpensesPage.Submission | src/pages/ExpensesPage.tsx:80-99 | no data without category, amount and profile; the recorder is the profile; an empty description becomes undefined |
| ExpensesPage.EditRoundTrip | src/pages/ExpensesPage.tsx:58-99 | saving an unchanged expense gives it back, recorded by whoever saved it |
| ExpensesPage.SubmitRequests | src/pages/ExpensesPage.tsx:79-113 | no call with a field missing or no profile; an edit updates the edited id; otherwise a create |
| ExpensesPage.FilteredExpensesShows | src/pages/ExpensesPage.tsx:151-154 | an expense is listed exactly when its category or description contains the lower-cased term |
| ExpensesPage.TotalOfListed | src/pages/ExpensesPage.tsx:156 | the total covers the listed expenses only: with the hidden ones it makes up the sum of all; with an empty term it is that sum |
| ExpensesPage.ExpensesPage.HandleSubmit | src/pages/ExpensesPage.tsx:79-126 | the calls are those of `SubmitRequests`; without a profile nothing at all happens; success closes the dialog and reloads |
| ExpensesPage.ExpensesPage.HandleDelete | src/pages/ExpensesPage.tsx:128-149 | does nothing with no expense selected; otherwise one delete, then a reload on success or an error |
| InventoryPage.LowStockExact | src/pages/InventoryPage.tsx:88 | the alert lists exactly the records with quantity ≤ minimum, and counts them |
| InventoryPage.BadgeOf | src/pages/InventoryPage.tsx:157 | a row is badged low exactly when quantity ≤ minimum |
| InventoryPage.BadgeMatchesAlert | src/pages/InventoryPage.tsx:88-157 | a row carries the low badge exactly when it is in the alert |
| InventoryPage.AlertIffSomeLow | src/pages/InventoryPage.tsx:100 | the alert card is shown exactly when some row is badged low |
| InventoryPage.InventoryPage.OpenDialog | src/pages/InventoryPage.tsx:50-57 | the dialog opens on the record's own numbers |
| InventoryPage.InventoryPage.HandleSubmit | src/pages/InventoryPage.tsx:59-86 | does nothing without an edited record; otherwise one upsert of its product with the form's numbers and the restock time; success closes and reloads |
| ReportsPage.Profit | src/pages/ReportsPage.tsx:51-53 | profit plus total expenses is the revenue |
| ReportsPage.RevenueIncludesRefunds | src/pages/ReportsPage.tsx:51 | revenue is the sum over completed sales plus the sum over refunded ones |
| ReportsPage.Margin | src/pages/ReportsPage.tsx:145 | there is a margin exactly when revenue is positive, and margin × revenue = profit × 100 |
| ReportsPage.Average | src/pages/ReportsPage.tsx:54-158 | there is an average exactly when there are transactions (the number of sales), and average × count = revenue |
| ReportsPage.SalesRange | src/pages/ReportsPage.tsx:30-31 | sales are queried from the start date at T00:00:00 to the end date at T23:59:59 |
| ReportsPage.GroupedLookup | src/pages/ReportsPage.tsx:57-63 | a key's bucket is the sum of the amounts of the elements with that key, and absent when there are none |
| ReportsPage.GroupedSum | src/pages/ReportsPage.tsx:57-63 | the buckets add up to the amounts of the elements that have a key |
| ReportsPage.DailySalesMap | src/pages/ReportsPage.tsx:57-63 | the loop builds the day buckets of the sales, by first appearance, skipping undated sales |
| ReportsPage.PaymentMethodMap | src/pages/ReportsPage.tsx:71-74 | the loop builds one count per payment method, by first appearance |
| ReportsPage.DailySales | src/pages/ReportsPage.tsx:57-63 | days are distinct; a day's bucket is the revenue of that day's sales; the buckets add up to the revenue of the dated sales |
| ReportsPage.PaymentCounts | src/pages/ReportsPage.tsx:71-74 | methods are distinct and each count is the number of sales with that method |
| ReportsPage.PaymentCountsPositive | src/pages/ReportsPage.tsx:71-74 | every count is at least 1 |
| ReportsPage.PaymentCountsSum | src/pages/ReportsPage.tsx:71-74 | the counts add up to the number of sales |
| ReportsPage.Capitalize | src/pages/ReportsPage.tsx:77 | a label is the method with its first character upper-cased and the rest unchanged |
| ReportsPage.Slices | src/pages/ReportsPage.tsx:76-79 | one slice per method, in order, with its label and count |
| ReportsPage.ReportsPage.LoadData | src/pages/ReportsPage.tsx:27-49 | both range queries are made; sales and expenses are replaced only when both succeed, else an error |
| SettingsPage.LoadedKeys | src/pages/SettingsPage.tsx:32-35 | the folded map has exactly the rows' keys |
| SettingsPage.LoadedLast | src/pages/SettingsPage.tsx:32-35 | each key takes the value of its last row, with '' for a missing or empty value |
| SettingsPage.Field | src/pages/SettingsPage.tsx:36-41 | a form field takes its key's value, or '' when the key is absent |
| SettingsPage.SaveRequests | src/pages/SettingsPage.tsx:56-61 | a save writes exactly store_name, tax_rate, currency and receipt_footer with the current field values |
| SettingsPage.UpsertLoaded | src/db/api.ts:402-410 | after an upsert the fold gives the new value under its key and the same values under every other key |
| SettingsPage.SaveThenLoad | src/pages/SettingsPage.tsx:28-61 | saving the form and loading the page again gives the same form, whatever the table held before |
| SettingsPage.SettingsPage.LoadSettings | src/pages/SettingsPage.tsx:28-51 | the loop folds the rows read and the form becomes the fields of the fold; a failed read only shows an error |
| SettingsPage.SettingsPage.HandleSave | src/pages/SettingsPage.tsx:53-76 | the four writes of `SaveRequests` on the current form, then a success or an error notice |
| LoginPage.LoginCheck | src/pages/LoginPage.tsx:28-35 | sign-in is refused exactly when the username or password is empty |
| LoginPage.SignupCheck | src/pages/LoginPage.tsx:58-74 | sign-up is refused for an empty field first; a password of fewer than 6 characters is refused after that |
| LoginPage.LengthRuleOnlyForSignup | src/pages/LoginPage.tsx:67-74 | a short password is refused by sign-up but passes the sign-in check |
| LoginPage.SignupStricter | src/pages/LoginPage.tsx:28-74 | whatever sign-up lets through, sign-in does too; both refuse the same empty fields |
| LoginPage.RedirectTarget | src/pages/LoginPage.tsx:24 | the target is the remembered path when there is one, else '/' |
| LoginPage.BackWhereItCameFrom | src/pages/LoginPage.tsx:24-52 | a visitor sent to the login page from a private path comes back to that path after signing in |
| LoginPage.LoginPage.HandleLogin | src/pages/LoginPage.tsx:26-54 | an empty field shows an error and makes no call; otherwise one sign-in; success navigates to the target, failure shows the message |
| LoginPage.LoginPage.HandleSignup | src/pages/LoginPage.tsx:56-92 | an empty field or a short password shows its error and makes no call; otherwise one sign-up; success or failure never navigates |

## Left out

- The translation tables are not part of this model. Navigation labels are translation keys (`Layout.NavKey`), and page notices are datatype values, not texts.
- Rendering is left out: JSX, icons, toasts as UI, skeletons, loading and busy flags beyond those the handlers set, dialogs as UI.
- AdminPage, EmployeesPage, UnauthorizedPage, App.tsx and the i18n module are UI and routing plumbing outside the core.
- `parseFloat` and `parseInt` are not modelled. A number field is either empty or holds the number it reads as, so `NaN` never arises.
- `toFixed` and all number and date formatting are left out. The receipt's date formatter is a parameter.
- `toLowerCase`, `toUpperCase` and the report's day key (`format(…, 'MMM dd')`) are parameters of type `string -> string`.
- The clock, `Math.random()` and the ids the backend generates are parameters.
- `Guard.Decide`: the regular-expression branch of `matchPublicRoute` is a parameter. The model proves that no public pattern contains '*', so that branch is never taken (`Guard.PublicPaths`).
- The backend calls of the back-office pages are modelled as a log of requests. The page then sees a success flag and a reloaded list. The calls covered are:
  - products, customers and expenses create/update/delete;
  - the stock upsert and the settings upsert;
  - sign-in and sign-up.
- The stock seed after a product create can itself fail. In that case the product exists without a stock record, and the model records only the error notice.
- Image storage is left out. The upload path name, the bucket and the public URL are abstract; the URL is a parameter.
- `Store.ViewOf`: the cashier join needs the profiles table, which this model does not hold. It always returns no cashier.
- The `updated_at` and `created_at` columns are not stored. Stock records keep `last_restocked_at`.
- Settings rows are matched by key, as the upsert on the key-value table does.
- Store.CreateSpec: once both inserts succeed, the stock decrements (src/db/api.ts:268-270) and the customer read and update (src/db/api.ts:272-280) are assumed to succeed. A throw from one of them midway leaves the earlier writes in place, and that is not modelled. `Store.Database.CreateSale` has the same gap.
- Store.RefundSpec: once the status update succeeds, the stock reads and writes (src/db/api.ts:299-307) and the customer update (src/db/api.ts:309-317) are assumed to succeed. A throw midway would leave the sale marked refunded with only the earlier lines restored and the customer not adjusted, while the sales page reports a failure. This partial refund is not modelled: a refund either completes or changes nothing. `Store.Database.Refund` has the same gap.
- Pos.PosPage.HandlePayment: the stock decrements and the loyalty update are assumed to succeed. An exception thrown by one of them midway is not modelled.
- Concurrency is left out:
  - the `Promise.all` of the reports load and of the settings save (a partial save is a failed save here);
  - the read-modify-write race on stock and customer counters;
  - the online/offline listeners and badge of the shell.
- `SalesPage.handlePrint` and the iframe, DOM and timer work of `printThermalReceipt` are left out. The receipt document is what the model prints.
- Logout in the shell and the catch-all route of App.tsx are left out.
- `LoginPage.SignupCheck`: the password length is counted in characters, where JavaScript counts UTF-16 code units.
- The reports page's charts are modelled as the ordered key/value lists of the two `Map`s. The charting library's rendering is left out.

## Findings

| source | as written | input that shows it | evidently intended | confidence | as-written member | corrected member |
|---|---|---|---|---|---|---|
| src/pages/POSPage.tsx:178-180 with src/db/api.ts:268-270 | `handlePayment` calls `salesApi.create`, which already decrements each line's stock, and then decrements each cart line again | a product with 10 in stock and a cart line of 3 ends with 4 in stock instead of 7 | each sold unit leaves stock once: max(0, q − n) | not executed | Pos.PosPage.HandlePayment, Pos.DoubleDecrement, Pos.DoubleDecrementExample | Pos.PosPage.HandlePaymentOnce, Pos.SingleDecrement, Pos.SingleDecrementOthers |
