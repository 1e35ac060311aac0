# Grocer Direct Market — a verified model of the storefront's rules

Grocer Direct Market is a client-side React storefront: buyers browse produce
and keep a cart; farmers manage orders, inventory, notifications, buyer
conversations, reports, a farm profile and product listings; administrators
see a dashboard, paged user and product tables and an image library; and a
small arithmetic game rounds it off. There is no server: every list lives in
component state or in the mock-data module, and it changes only through a
few handlers.

This project models those rules in Dafny and proves what they promise.

- **List state.** Each dashboard whose handlers update a list in place is a
  `class` holding that list as a `seq` field. It has one method per handler,
  and each method states the complete new state. The handlers cover orders,
  inventory, notifications, conversations, reports, images and the cart.
  A pure function on sequences specifies each method:
  - update-by-id: only the matching records change, and length and order are kept;
  - delete-by-id: a subsequence without that id, shorter by the number of records with it;
  - prepend;
  - mark-read and mark-all-read;
  - bulk restock.
- **Derived views.** These are pure functions. Each filtered view states
  which records it lists (membership iff the test holds) and that it keeps
  their order (an order-preserving subsequence). The shared `Seqs.Filter`
  also fixes its length to the number of records that pass, so duplicate
  records are kept. The views are:
  - case-insensitive searches;
  - status and type tabs;
  - stock bands and colours;
  - status counts;
  - the comparator sort of reports;
  - pagination, eight rows per page.
- **Cart arithmetic.** This covers:
  - the line total;
  - the subtotal, equal to the mock service's `getCartTotal`;
  - the 5.99 delivery fee and the total;
  - the +/− controls, which never take a quantity below 1.
- **Forms.** The form rules are modelled as predicates with their submit paths:
  - the product, farm-profile, registration and report schemas;
  - the image-upload checks, in their reporting order;
  - the URL parameters of the products page.
- **Math game.** Three parts are modelled:
  - the question generator, a method with the option loop and its invariants;
  - the game state machine, as a class;
  - the score bands.

The model follows the code. In particular the code has no order-status
transition rules: any status can be set from any other. Stock is never
reserved or decremented by an order, and checkout only shows a message. So
none of these appear here.

Shared pieces:
- `Wrappers` (`Option`), `Text` (ASCII lower-casing, substring search,
  ECMAScript's whitespace set for `trim` and `parseInt`, `localeCompare` as
  code-point order, decimal rendering) and `Seqs`
  (filter, subsequence, update-where) are in `common.dfy`.
- `Models` holds the records of `src/types/models.ts`.
- The users and products tables share `Pagination`.
- The category toggle of the filter sidebar is reused by the farm profile's
  produce-type buttons.

Conventions:
- Money is `real`.
- Timestamps are integer milliseconds, passed in as `now`.
- Each `Math.random()` call is a `real` draw in [0, 1) passed in by the caller.

## Model

| member | source | states |
|---|---|---|
| Models.SumLineTotalsAppend | src/services/mockData.ts:352-354 | the price-times-quantity sum of two concatenated carts is the sum of their sums |
| Models.SumLineTotalsNonNegative | src/components/cart/CartSummary.tsx:11-12 | with non-negative prices and quantities the sum is non-negative |
| Models.SumLineTotalsSplit | src/services/mockData.ts:352-354 | the sum over a cart equals the sum over any prefix plus the sum over the rest |
| MockData.GetProducts | src/services/mockData.ts:317-334 | a product is returned iff it has the requested category (none or 'all' means any) and its name, description or farmer name contains the search case-insensitively; with neither, every product is returned in order |
| MockData.GetProductsIsSubsequence | src/services/mockData.ts:320-331 | the result is an order-preserving subsequence of the catalogue |
| MockData.SearchNarrows | src/services/mockData.ts:324-331 | adding a search term yields a subsequence of the category-only result |
| MockData.GetProductById | src/services/mockData.ts:336-338 | none iff no product has the id; otherwise the first product with that id |
| MockData.GetFeaturedProducts | src/services/mockData.ts:340-342 | exactly the featured products, as a subsequence in catalogue order |
| MockData.GetProductReviews | src/services/mockData.ts:344-346 | exactly the reviews of that product id, in order |
| MockData.GetCartTotal | src/services/mockData.ts:352-354 | 0 for an empty cart, non-negative for non-negative lines, additive over every split of the cart |
| OrdersManagement.FilteredOrders | src/components/farmer/OrdersManagement.tsx:421-430 | an order is listed iff its id, customer name or email contains the term case-insensitively and the status filter is 'all' or its status; an empty term under 'all' lists every order in order |
| OrdersManagement.FilteredOrdersIsSubsequence | src/components/farmer/OrdersManagement.tsx:421-430 | the listing is an order-preserving subsequence |
| OrdersManagement.CancelledOnlyUnderAll | src/components/farmer/OrdersManagement.tsx:524-555 | no tab filters by 'cancelled', so a cancelled order is listed only under the 'all' tab |
| OrdersManagement.StatusCount | src/components/farmer/OrdersManagement.tsx:432-436 | a count is the number of orders with exactly that status, at most the number of orders |
| OrdersManagement.StatusCountsSum | src/components/farmer/OrdersManagement.tsx:432-436 | the five status counts add up to the number of orders |
| OrdersManagement.WithStatus | src/components/farmer/OrdersManagement.tsx:438-443 | orders with the id get the new status and `updatedAt`; every other order, the length and the order are unchanged |
| OrdersManagement.UnknownIdUnchanged | src/components/farmer/OrdersManagement.tsx:438-443 | updating an id no order has leaves the list as it was |
| OrdersManagement.UpdateIdempotent | src/components/farmer/OrdersManagement.tsx:438-443 | repeating an update is the same as doing it once, with the later time |
| OrdersManagement.AnyStatusReachable | src/components/farmer/OrdersManagement.tsx:336-347 | any of the five statuses can be set on any order: there is no transition rule |
| OrdersManagement.EnabledUpdateChangesStatus | src/components/farmer/OrdersManagement.tsx:336-355 | the update button is disabled exactly for the current status, and an enabled update changes that order's status |
| OrdersManagement.OrdersPanel.constructor | src/components/farmer/OrdersManagement.tsx:416-418 | starts with the given orders, an empty search and the 'all' filter |
| OrdersManagement.OrdersPanel.HandleUpdateStatus | src/components/farmer/OrdersManagement.tsx:438-443 | the order list becomes `WithStatus` of the old list; search and filter are kept |
| OrdersManagement.OrdersPanel.SelectTab | src/components/farmer/OrdersManagement.tsx:524-555 | the filter becomes the tab's status; the orders and search are kept |
| OrdersManagement.OrdersPanel.SetSearchTerm | src/components/farmer/OrdersManagement.tsx:417 | only the search term changes |
| InventoryManagement.TrimStart | src/components/farmer/InventoryManagement.tsx:129 | `parseInt` skips exactly the leading whitespace: the result is a suffix, all dropped characters are whitespace, and it starts with a non-space |
| InventoryManagement.LeadingDigits | src/components/farmer/InventoryManagement.tsx:129 | the longest prefix of decimal digits |
| InventoryManagement.LeadingDigitsOfDigits | src/components/farmer/InventoryManagement.tsx:129 | an all-digit string is its own digit prefix |
| InventoryManagement.ParseIntRoundTrip | src/components/farmer/InventoryManagement.tsx:129 | the quantity field reads back every integer written in decimal |
| InventoryManagement.ParseUnsigned | src/components/farmer/InventoryManagement.tsx:129 | a run of digits parses to its decimal value |
| InventoryManagement.ParseSigned | src/components/farmer/InventoryManagement.tsx:129 | a minus sign before digits negates their value |
| InventoryManagement.NonNumericIsZero | src/components/farmer/InventoryManagement.tsx:129 | input with no digits becomes quantity 0 |
| InventoryManagement.FilteredProducts | src/components/farmer/InventoryManagement.tsx:161-164 | a product is listed iff its name or category contains the term case-insensitively, as an order-preserving subsequence; an empty term lists all in order |
| InventoryManagement.LowStockProducts | src/components/farmer/InventoryManagement.tsx:166 | exactly the products with quantity 1 to 5, in catalogue order; the card's count is the number of such products |
| InventoryManagement.OutOfStockProducts | src/components/farmer/InventoryManagement.tsx:167 | exactly the products with quantity 0, in catalogue order; the card's count is the number of such products |
| InventoryManagement.StockCardsDisjoint | src/components/farmer/InventoryManagement.tsx:166-167 | no product is on both the low-stock and the out-of-stock card |
| InventoryManagement.BadgeMatchesCards | src/components/farmer/InventoryManagement.tsx:306-329 | for a non-negative quantity the badge is Out iff out of stock, Low iff low stock, In iff above 5 |
| InventoryManagement.NegativeQuantityInNoCard | src/components/farmer/InventoryManagement.tsx:166-167 | a negative quantity, which the dialog accepts, is badged Low but appears on neither card |
| InventoryManagement.WithInventory | src/components/farmer/InventoryManagement.tsx:169-174 | only the product with the id takes the new quantity, price and time, unvalidated; the rest and the order are unchanged |
| InventoryManagement.Restocked | src/components/farmer/InventoryManagement.tsx:182-189 | every product below 10 gains exactly 50 and the time; the others are untouched |
| InventoryManagement.RestockEmptiesCards | src/components/farmer/InventoryManagement.tsx:182-189 | from non-negative quantities, after a restock every quantity is at least 10 and both stock cards are empty |
| InventoryManagement.RestockTwiceIsOnce | src/components/farmer/InventoryManagement.tsx:182-189 | from non-negative quantities a second restock changes nothing |
| InventoryManagement.InventoryPanel.constructor | src/components/farmer/InventoryManagement.tsx:157-158 | starts with the given products and an empty search |
| InventoryManagement.InventoryPanel.HandleUpdateInventory | src/components/farmer/InventoryManagement.tsx:169-174 | the product list becomes `WithInventory` of the old one; the search is kept |
| InventoryManagement.InventoryPanel.HandleBulkRestock | src/components/farmer/InventoryManagement.tsx:182-189 | the product list becomes `Restocked` of the old one; the search is kept |
| InventoryManagement.InventoryPanel.SetSearchTerm | src/components/farmer/InventoryManagement.tsx:158 | only the search term changes |
| InventoryManagement.InventoryDialog.constructor | src/components/farmer/InventoryManagement.tsx:102-104 | the dialog starts from the product's quantity and price |
| InventoryManagement.InventoryDialog.OnQuantityInput | src/components/farmer/InventoryManagement.tsx:129 | the quantity becomes the parsed input, 0 when it does not parse; the price is kept |
| InventoryManagement.InventoryDialog.OnPriceInput | src/components/farmer/InventoryManagement.tsx:143 | the price becomes the value; the quantity is kept |
| InventoryManagement.InventoryDialog.Submit | src/components/farmer/InventoryManagement.tsx:106-108 | the panel's list becomes `WithInventory` with the dialog's product, quantity and price |
| ProductManagement.GetStockStatus | src/components/farmer/ProductManagement.tsx:46-50 | 0 is "Out of Stock", 1 to 5 "Low Stock", above 5 "In Stock" |
| ProductManagement.ExactlyOneLabel | src/components/farmer/ProductManagement.tsx:46-50 | exactly one label applies to every stock, negative stock falls through to "Low Stock", and each label has its own colour |
| ProductManagement.SameBandsAsInventory | src/components/farmer/ProductManagement.tsx:46-50 | the label bands coincide with the inventory badge bands for every integer |
| NotificationsPanel.UnreadCount | src/components/farmer/NotificationsPanel.tsx:101 | the number of unread notifications; 0 iff every one is read |
| NotificationsPanel.TabFiltered | src/components/farmer/NotificationsPanel.tsx:103-106 | 'all' shows everything; a type tab shows exactly that type, in order |
| NotificationsPanel.MarkedRead | src/components/farmer/NotificationsPanel.tsx:108-112 | only notifications with the id become read; length and order are kept |
| NotificationsPanel.MarkedReadCount | src/components/farmer/NotificationsPanel.tsx:108-112 | the unread count drops by the number of unread notifications with that id, so it never rises |
| NotificationsPanel.AllMarkedRead | src/components/farmer/NotificationsPanel.tsx:114-115 | every notification becomes read with all other fields and the order kept; the unread count is 0 |
| NotificationsPanel.DisabledMarkAllIsNoOp | src/components/farmer/NotificationsPanel.tsx:178 | when the button is disabled (nothing unread) marking all read changes nothing |
| NotificationsPanel.WithoutNotification | src/components/farmer/NotificationsPanel.tsx:122-123 | exactly the notifications with the id are removed (the length drops by their number); the rest keep their order |
| NotificationsPanel.Classify | src/components/farmer/NotificationsPanel.tsx:145-162 | whole days when at least a day has passed, else whole hours, else whole minutes, else "Just now", each count the floor of the elapsed time |
| NotificationsPanel.PluralOnlyAboveOne | src/components/farmer/NotificationsPanel.tsx:154-158 | the unit takes an "s" iff the count is above 1 |
| NotificationsPanel.OnDate | src/components/farmer/NotificationsPanel.tsx:295-303 | a date's group holds exactly that date's notifications, in order |
| NotificationsPanel.FirstDates | src/components/farmer/NotificationsPanel.tsx:295-303 | the group keys are exactly the dates that occur, each once, in order of first occurrence |
| NotificationsPanel.GroupingIsGrouped | src/components/farmer/NotificationsPanel.tsx:295-303 | one push per notification builds keys in first-appearance order (`FirstDates`) and each date's notifications in list order (`OnDate`) |
| NotificationsPanel.GroupByDate | src/components/farmer/NotificationsPanel.tsx:295-303 | the `forEach`/`push` loop builds a map whose keys are `FirstDates` and whose groups are `OnDate` |
| NotificationsPanel.GroupsPartition | src/components/farmer/NotificationsPanel.tsx:295-303 | every notification lies in exactly one group, its own date's, and no group is empty |
| NotificationsPanel.NotificationCentre.constructor | src/components/farmer/NotificationsPanel.tsx:97-98 | starts with the given notifications on the 'all' tab |
| NotificationsPanel.NotificationCentre.MarkAsRead | src/components/farmer/NotificationsPanel.tsx:108-112 | the list becomes `MarkedRead`; the unread count does not rise; the tab is kept |
| NotificationsPanel.NotificationCentre.MarkAllAsRead | src/components/farmer/NotificationsPanel.tsx:114-120 | the list becomes `AllMarkedRead` and the unread count is 0; the tab is kept |
| NotificationsPanel.NotificationCentre.DeleteNotification | src/components/farmer/NotificationsPanel.tsx:122-128 | the list becomes `WithoutNotification`; the tab is kept |
| NotificationsPanel.NotificationCentre.SelectTab | src/components/farmer/NotificationsPanel.tsx:98 | only the tab changes |
| BuyerMessages.FilteredConversations | src/components/farmer/BuyerMessages.tsx:173-176 | a conversation is listed iff the customer's name or email contains the term case-insensitively |
| BuyerMessages.AllRead | src/components/farmer/BuyerMessages.tsx:180-189 | the unread count becomes 0 and every message read; identity, customer and last message are kept |
| BuyerMessages.MarkedRead | src/components/farmer/BuyerMessages.tsx:178-192 | only the conversation with the id is marked read; the rest and the order are kept |
| BuyerMessages.MarkedReadIdempotent | src/components/farmer/BuyerMessages.tsx:178-192 | marking read twice is marking read once |
| BuyerMessages.ReplyMessage | src/components/farmer/BuyerMessages.tsx:202-208 | the reply is sent by the farmer, already read, with the draft text and the time |
| BuyerMessages.WithMessage | src/components/farmer/BuyerMessages.tsx:212-221 | the reply is appended at the end of the messages and becomes the last message; nothing else changes |
| BuyerMessages.Delivered | src/components/farmer/BuyerMessages.tsx:212-221 | only the conversation with the id receives the reply |
| BuyerMessages.SendChangesOneConversation | src/components/farmer/BuyerMessages.tsx:202-221 | a send adds exactly one message to the target conversation only, keeps earlier messages and changes no unread count |
| BuyerMessages.WithoutConversation | src/components/farmer/BuyerMessages.tsx:237-241 | exactly the conversations with the id are removed (the length drops by their number); the others keep their order |
| BuyerMessages.NextActive | src/components/farmer/BuyerMessages.tsx:243-245 | a deleted active conversation is replaced by the first remaining one or none; otherwise the active one is kept |
| BuyerMessages.DeleteKeepsActiveListed | src/components/farmer/BuyerMessages.tsx:237-245 | after a delete the active conversation, if any, is still in the list |
| BuyerMessages.Inbox.constructor | src/components/farmer/BuyerMessages.tsx:167-170 | starts with the given conversations, the first one active (none if empty), empty search and draft |
| BuyerMessages.Inbox.MarkAsRead | src/components/farmer/BuyerMessages.tsx:178-192 | the list becomes `MarkedRead`; the active conversation, search and draft are kept |
| BuyerMessages.Inbox.SelectConversation | src/components/farmer/BuyerMessages.tsx:194-197 | the chosen conversation becomes active and is marked read in the list |
| BuyerMessages.Inbox.SendMessage | src/components/farmer/BuyerMessages.tsx:199-229 | a blank draft or no active conversation changes nothing; otherwise the reply is delivered to the list and to the active copy and the draft is cleared |
| BuyerMessages.Inbox.DeleteConversation | src/components/farmer/BuyerMessages.tsx:237-245 | the list becomes `WithoutConversation` and the active one `NextActive`; it stays listed |
| BuyerMessages.Inbox.SetDraft | src/components/farmer/BuyerMessages.tsx:170 | only the draft changes |
| BuyerMessages.Inbox.SetSearchTerm | src/components/farmer/BuyerMessages.tsx:270-271 | only the search term changes, and the list shows the conversations matching it |
| ReportsDownload.TabFiltered | src/components/farmer/ReportsDownload.tsx:112-115 | 'all' keeps every report; another tab keeps exactly the reports of that type, in order |
| ReportsDownload.CompareFlip | src/components/farmer/ReportsDownload.tsx:118-133 | the comparator is antisymmetric |
| ReportsDownload.CompareTrans | src/components/farmer/ReportsDownload.tsx:118-133 | the comparator's "not after" is transitive, so it is a total preorder |
| ReportsDownload.Insert | src/components/farmer/ReportsDownload.tsx:118 | inserting adds exactly the one report |
| ReportsDownload.Sort | src/components/farmer/ReportsDownload.tsx:118 | the sorted list is a permutation of the filtered list |
| ReportsDownload.InsertSorted | src/components/farmer/ReportsDownload.tsx:118-133 | inserting into a comparator-sorted list keeps it sorted |
| ReportsDownload.SortSorted | src/components/farmer/ReportsDownload.tsx:118-133 | the sort's result is in comparator order and a permutation of its input |
| ReportsDownload.SortedAllPairs | src/components/farmer/ReportsDownload.tsx:118-133 | in a sorted list every earlier report compares not after every later one |
| ReportsDownload.SortByDateMonotone | src/components/farmer/ReportsDownload.tsx:119-122 | by date, creation times are non-increasing for 'desc' and non-decreasing for 'asc' |
| ReportsDownload.SortByNameOrdered | src/components/farmer/ReportsDownload.tsx:123-126 | by name, names are in string order, reversed for 'desc' |
| ReportsDownload.SortByTypeOrdered | src/components/farmer/ReportsDownload.tsx:127-131 | by type, types are in string order, reversed for 'desc' |
| ReportsDownload.InsertTies | src/components/farmer/ReportsDownload.tsx:118-133 | inserting a report puts it ahead of every report it ties with, so the ties of any report keep their order |
| ReportsDownload.SortStable | src/components/farmer/ReportsDownload.tsx:118-133 | the sort is stable: reports that tie under the key (same date, name or type) come out in their input order |
| ReportsDownload.UnknownSortKeepsOrder | src/components/farmer/ReportsDownload.tsx:132 | any other key keeps the filtered order, since the comparator is 0 and the sort is stable |
| ReportsDownload.Toggled | src/components/farmer/ReportsDownload.tsx:135-137 | the direction always flips |
| ReportsDownload.ToggleInvolution | src/components/farmer/ReportsDownload.tsx:135-137 | toggling twice restores the direction |
| ReportsDownload.SizeKb | src/components/farmer/ReportsDownload.tsx:195 | the random size is between 100 and 599 KB |
| ReportsDownload.NewReport | src/components/farmer/ReportsDownload.tsx:186-196 | the new report carries the form's name, type and format, the date range "from - to" and the creation time |
| ReportsDownload.ReportsPanel.constructor | src/components/farmer/ReportsDownload.tsx:105-108 | starts on 'all', sorted by date, descending |
| ReportsDownload.ReportsPanel.Visible | src/components/farmer/ReportsDownload.tsx:118-133 | the shown list is a permutation of the tab's reports, in comparator order |
| ReportsDownload.ReportsPanel.ToggleSortOrder | src/components/farmer/ReportsDownload.tsx:135-137 | only the direction changes, to the other one |
| ReportsDownload.ReportsPanel.SelectTab | src/components/farmer/ReportsDownload.tsx:106 | only the tab changes |
| ReportsDownload.ReportsPanel.SetSortBy | src/components/farmer/ReportsDownload.tsx:107 | only the sort key changes |
| ReportsDownload.ReportsPanel.Submit | src/components/farmer/ReportsDownload.tsx:93-100 | accepted iff the name has at least 2 characters; then the new report is prepended and the old list follows unchanged, otherwise nothing changes |
| AdminDashboard.TotalRevenueAppend | src/pages/AdminDashboard.tsx:29 | revenue is additive over concatenated order lists |
| AdminDashboard.TotalRevenueBounds | src/pages/AdminDashboard.tsx:29 | with non-negative totals the revenue is at least any single order's total |
| AdminDashboard.NonNegativeRevenue | src/pages/AdminDashboard.tsx:29 | with non-negative totals the revenue is non-negative |
| AdminDashboard.Summarise | src/pages/AdminDashboard.tsx:26-59 | revenue is the sum of the order totals, non-negative when no total is negative; totals are the list lengths; pending and processing counts are the orders with exactly that status and together at most the order total; the organic count is at most the product total |
| AdminDashboard.FirstFive | src/pages/AdminDashboard.tsx:139-140 | the recent orders and the top products are the first min(5, n) entries of their lists |
| Pagination.ClampIndex | src/components/admin/UsersTable.tsx:43 | a `slice` bound is clamped into [0, n], counting negatives from the end |
| Pagination.PageRange | src/components/admin/UsersTable.tsx:41-43 | page p holds the entries with index in [(p−1)·8, min(p·8, n)), at most 8 of them, none past the end |
| Pagination.TotalPages | src/components/admin/UsersTable.tsx:45 | the least number of 8-row pages that holds n entries |
| Pagination.EachIndexOnOnePage | src/components/admin/UsersTable.tsx:41-45 | every entry lies on exactly one page, numbered between 1 and the total |
| Pagination.PagedPrefix | src/components/admin/ProductsTable.tsx:41-43 | the first k pages laid end to end are the first min(8k, n) entries |
| Pagination.PagesPartition | src/components/admin/ProductsTable.tsx:45 | the pages 1 to the total partition the list |
| Pagination.PageBeyondTotalIsEmpty | src/components/admin/UsersTable.tsx:43 | a page past the total is empty |
| Pagination.PageLinks | src/components/admin/UsersTable.tsx:144 | the page links are 1 to the total |
| Pagination.Render | src/components/admin/UsersTable.tsx:69-163 | the "no ... found" message iff the page slice is empty; otherwise its rows, with the bar only above one page, Previous only after page 1 and Next only before the last |
| Pagination.RenderInRange | src/components/admin/UsersTable.tsx:69 | on an existing page the rows are shown |
| Pagination.StalePageHidesMatches | src/components/admin/UsersTable.tsx:41-69 | as written: a page beyond the narrowed total renders the message although entries match |
| Pagination.StalePageExample | src/components/admin/UsersTable.tsx:41-69 | nine rows put the user on page 2; one match then renders the message |
| Pagination.ClampedPage | src/components/admin/UsersTable.tsx:30 | the current page pulled back into [1, total], unchanged when already inside |
| Pagination.ClampedRenderShowsMatches | src/components/admin/UsersTable.tsx:41-69 | with the clamped page the message appears iff nothing matches |
| Pagination.PageCursor.constructor | src/components/admin/UsersTable.tsx:30 | the page starts at 1 |
| Pagination.PageCursor.Previous | src/components/admin/UsersTable.tsx:138-142 | shown only after page 1; moves back one page and stays at least 1 |
| Pagination.PageCursor.Next | src/components/admin/UsersTable.tsx:155-159 | shown only before the last page; moves on one page and stays within the total |
| Pagination.PageCursor.GoTo | src/components/admin/UsersTable.tsx:144-153 | a link sets the page to its number |
| UsersTable.FilteredUsers | src/components/admin/UsersTable.tsx:34-38 | a user is kept iff name, email or role contains the query case-insensitively, in order; an empty query keeps all |
| UsersTable.RoleBadge | src/components/admin/UsersTable.tsx:47-57 | purple iff the lower-cased role is 'admin', green iff 'farmer', otherwise blue |
| UsersTable.RoleBadgeIgnoresCase | src/components/admin/UsersTable.tsx:48 | the badge does not depend on letter case |
| UsersTable.RoleBadgeOfRole | src/components/admin/UsersTable.tsx:47-57 | admin users get purple, farmers green, buyers and logistics blue |
| UsersTable.View | src/components/admin/UsersTable.tsx:69-72 | with the page clamped into range (the corrected table), the message appears iff no user matches |
| ProductsTable.FilteredProducts | src/components/admin/ProductsTable.tsx:34-38 | a product is kept iff name, farmer name or category contains the query case-insensitively, in order |
| ProductsTable.StockColourOf | src/components/admin/ProductsTable.tsx:92-96 | green above 20, yellow 6 to 20, red at 5 or below |
| ProductsTable.StockColourMonotone | src/components/admin/ProductsTable.tsx:92-96 | more stock never gives a worse colour |
| ProductsTable.View | src/components/admin/ProductsTable.tsx:57-60 | with the page clamped into range (the corrected table), the message appears iff no product matches |
| AdminImages.FilteredImages | src/pages/AdminImages.tsx:96-99 | an image is shown iff its name or category contains the query case-insensitively, in order; an empty query shows all |
| AdminImages.WithoutImage | src/pages/AdminImages.tsx:61-62 | exactly the images with the id are removed (the length drops by their number); the rest keep their order |
| AdminImages.DeleteUnknownIsNoOp | src/pages/AdminImages.tsx:61-62 | deleting an unknown id changes nothing |
| AdminImages.Edited | src/pages/AdminImages.tsx:69-72 | only images with the id take the new name and category; everything else is kept |
| AdminImages.EditKeepsIds | src/pages/AdminImages.tsx:69-72 | an edit keeps every id and url in place |
| AdminImages.EditIdempotent | src/pages/AdminImages.tsx:69-72 | editing twice with the same values is editing once |
| AdminImages.NewImage | src/pages/AdminImages.tsx:79-89 | the id is the time in decimal; a missing url becomes '/placeholder.svg' and a missing size '0KB' |
| AdminImages.NewImageHasUrlAndSize | src/pages/AdminImages.tsx:79-89 | an added image always has a url and a size |
| AdminImages.AddedImageShownFirst | src/pages/AdminImages.tsx:79-99 | after an add the gallery shows the new image first if it matches, then what it showed before |
| AdminImages.ImageLibrary.constructor | src/pages/AdminImages.tsx:57-58 | starts with the given images and an empty search |
| AdminImages.ImageLibrary.DeleteImage | src/pages/AdminImages.tsx:61-62 | the library becomes `WithoutImage`; the search is kept |
| AdminImages.ImageLibrary.EditImage | src/pages/AdminImages.tsx:69-72 | the library becomes `Edited`; the search is kept |
| AdminImages.ImageLibrary.AddImage | src/pages/AdminImages.tsx:79-89 | the new image is prepended and the old library follows unchanged |
| AdminImages.ImageLibrary.SetSearchQuery | src/pages/AdminImages.tsx:57 | only the search changes |
| ImageUploader.FileStem | src/components/admin/ImageUploader.tsx:66 | the file name up to its last dot, or "" when it has no dot |
| ImageUploader.FileStemOfExtension | src/components/admin/ImageUploader.tsx:66 | a name `stem.ext` with no dot in `ext` gives back `stem` |
| ImageUploader.FormatFileSize | src/components/admin/ImageUploader.tsx:113-117 | B below 1024, KB below 1048576, MB otherwise; the tenths shown are within half a tenth of the exact quotient |
| ImageUploader.AcceptedSizeAtMostFiveMB | src/components/admin/ImageUploader.tsx:56-59 | every accepted file is labelled at most 5.0 MB |
| ImageUploader.Uploader.constructor | src/components/admin/ImageUploader.tsx:15-20 | nothing selected, all fields empty |
| ImageUploader.Uploader.HandleFile | src/components/admin/ImageUploader.tsx:48-68 | a non-image, then a file over 5 MiB, sets its error and keeps the selection; an accepted file (5 MiB exactly included) clears the error, is selected with its preview and names the image after its stem |
| ImageUploader.Uploader.ClearSelection | src/components/admin/ImageUploader.tsx:70-77 | file, preview and name go; category and error stay |
| ImageUploader.Uploader.SetName | src/components/admin/ImageUploader.tsx:18 | only the name changes |
| ImageUploader.Uploader.SetCategory | src/components/admin/ImageUploader.tsx:19 | only the category changes |
| ImageUploader.Uploader.HandleSubmit | src/components/admin/ImageUploader.tsx:79-111 | file, then name, then category are checked and only the first missing one is reported, with nothing sent; otherwise the upload is sent once and file, preview, name and category are cleared |
| CartPage.WithQuantity | src/pages/CartPage.tsx:25-30 | only items with the id take the quantity, with no lower bound; length and order are kept |
| CartPage.UpdateUnknownIsNoOp | src/pages/CartPage.tsx:25-30 | updating an unknown id changes nothing |
| CartPage.WithoutItem | src/pages/CartPage.tsx:39-40 | exactly the items with the id are removed (the length drops by their number); the rest keep their order |
| CartPage.RemoveUnknownIsNoOp | src/pages/CartPage.tsx:40 | removing an unknown id changes nothing |
| CartPage.Cart.constructor | src/pages/CartPage.tsx:14 | starts with the given items |
| CartPage.Cart.UpdateQuantity | src/pages/CartPage.tsx:25-30 | the cart becomes `WithQuantity` |
| CartPage.Cart.RemoveItem | src/pages/CartPage.tsx:39-40 | the cart becomes `WithoutItem` |
| CartPage.Cart.PressPlus | src/components/cart/CartItem.tsx:18-20 | the line's + raises its quantity by one through the page's update; positive quantities stay positive |
| CartPage.Cart.PressMinus | src/components/cart/CartItem.tsx:22-26 | the line's − lowers its quantity by one only above 1, else changes nothing; positive quantities stay positive |
| CartItemControls.IncreaseRequest | src/components/cart/CartItem.tsx:18-20 | + always requests more than the current quantity |
| CartItemControls.DecreaseRequest | src/components/cart/CartItem.tsx:22-26 | − makes a request iff the quantity is above 1 (its button is disabled otherwise), and the request is at least 1 and below the quantity |
| CartItemControls.PressStep | src/components/cart/CartItem.tsx:18-26 | + adds exactly one; − subtracts one above 1 and does nothing at 1 or below |
| CartItemControls.PressesKeepQuantityPositive | src/components/cart/CartItem.tsx:18-26 | using only these controls a quantity starting at 1 or more never drops below 1 |
| CartItemControls.PlusesThenMinuses | src/components/cart/CartItem.tsx:18-26 | n pluses followed by n minuses restore the quantity |
| CartItemControls.LineTotalIsSummed | src/components/cart/CartItem.tsx:83 | the line total shown is the line's share of the cart sum, price × quantity |
| CartSummary.Subtotal | src/components/cart/CartSummary.tsx:11-12 | 0 for an empty cart and non-negative for non-negative lines |
| CartSummary.Total | src/components/cart/CartSummary.tsx:14-15 | exceeds the subtotal by exactly the 5.99 fee, so it is at least 5.99 for non-negative lines |
| CartSummary.AddingItemAddsLineTotal | src/components/cart/CartSummary.tsx:11-15 | adding a line raises subtotal and total by its line total |
| CartSummary.SubtotalIsCartTotal | src/components/cart/CartSummary.tsx:11-12 | the subtotal equals the mock service's cart total |
| ProductsPage.Read | src/pages/ProductsPage.tsx:19-20 | a missing or empty parameter reads as the fallback, otherwise its value |
| ProductsPage.CategoryArgument | src/pages/ProductsPage.tsx:29-32 | category 'all' is passed as no category; any other value is passed on |
| ProductsPage.NoParamsListsAll | src/pages/ProductsPage.tsx:19-32 | without category and search parameters every product is listed |
| ProductsPage.AllMeansNoCategory | src/pages/ProductsPage.tsx:19-32 | category 'all' lists the same products as no category |
| ProductsPage.Catalogue.constructor | src/pages/ProductsPage.tsx:17-26 | the search box starts from the search parameter |
| ProductsPage.Catalogue.HandleFilterChange | src/pages/ProductsPage.tsx:36-47 | a non-empty selection sets the category parameter to its first entry only; an empty one changes nothing |
| ProductsPage.Catalogue.HandleFilterReset | src/pages/ProductsPage.tsx:49-54 | the category parameter is deleted; the search is kept |
| ProductsPage.Catalogue.HandleSearch | src/pages/ProductsPage.tsx:56-66 | a non-empty query sets the search parameter; an empty one deletes it |
| ProductsPage.Catalogue.SetSearchQuery | src/pages/ProductsPage.tsx:17 | only the search box changes |
| ProductsPage.SearchRoundTrip | src/pages/ProductsPage.tsx:56-66 | after a search the page reads back the query as its search parameter and keeps its category |
| ProductsPage.FilterChangeRoundTrip | src/pages/ProductsPage.tsx:36-47 | after a filter change the page reads back the first category and keeps its search |
| ProductsPage.ResetRoundTrip | src/pages/ProductsPage.tsx:49-54 | after a reset the category reads as 'all' and the search is unchanged |
| FilterSidebar.Toggled | src/components/products/FilterSidebar.tsx:33-41 | a present category is removed (every copy, order kept); an absent one is appended at the end |
| FilterSidebar.ToggleKeepsNoDuplicates | src/components/products/FilterSidebar.tsx:33-41 | a toggle keeps a duplicate-free selection duplicate-free |
| FilterSidebar.TogglesKeepNoDuplicates | src/components/products/FilterSidebar.tsx:33-41 | from a duplicate-free start, any series of toggles never creates duplicates |
| FilterSidebar.DoubleToggleRestores | src/components/products/FilterSidebar.tsx:33-41 | toggling twice restores membership, and the exact list when the category was absent |
| FilterSidebar.FilterPanel.constructor | src/components/products/FilterSidebar.tsx:16-18 | price [0, 50], no categories, organic off |
| FilterSidebar.FilterPanel.ToggleCategory | src/components/products/FilterSidebar.tsx:33-41 | the selection becomes `Toggled`; the rest is kept and stays duplicate-free |
| FilterSidebar.FilterPanel.SetPriceRange | src/components/products/FilterSidebar.tsx:43-45 | only the price range changes |
| FilterSidebar.FilterPanel.SetOrganicOnly | src/components/products/FilterSidebar.tsx:18 | only the organic flag changes |
| FilterSidebar.FilterPanel.Apply | src/components/products/FilterSidebar.tsx:47-53 | passes the current price range, categories and organic flag unchanged |
| FilterSidebar.FilterPanel.Reset | src/components/products/FilterSidebar.tsx:55-60 | restores price [0, 50], no categories and organic off |
| FarmerProfile.EachRuleRejects | src/components/farmer/FarmerProfile.tsx:16-23 | farm name and location below 2 characters, a phone below 10 or no produce type each make valid values invalid |
| FarmerProfile.SubmittedAsWritten | src/components/farmer/FarmerProfile.tsx:55-66 | as written: saves iff the form's values are valid, and saves them, whatever the buttons show |
| FarmerProfile.EmptySelectionStillSaves | src/components/farmer/FarmerProfile.tsx:39-87 | as written: with every produce type deselected the defaults still save |
| FarmerProfile.Submitted | src/components/farmer/FarmerProfile.tsx:16-23 | corrected: saves iff the values with the buttons' selection are valid, and saves that selection |
| FarmerProfile.EmptySelectionRejected | src/components/farmer/FarmerProfile.tsx:22 | corrected: an empty selection is never saved, and what is saved carries the selection |
| FarmerProfile.ProfileEditor.constructor | src/components/farmer/FarmerProfile.tsx:39-53 | the default values, and the buttons' initial selection ['vegetables'] |
| FarmerProfile.ProfileEditor.ToggleProduceType | src/components/farmer/FarmerProfile.tsx:79-87 | a selected type is removed, an unselected one appended; duplicates never arise and the form's values are kept |
| FarmerProfile.ProfileEditor.SetValues | src/components/farmer/FarmerProfile.tsx:43-53 | only the form's values change |
| FarmerProfile.ProfileEditor.Submit | src/components/farmer/FarmerProfile.tsx:55-66 | the corrected submit of the current values and selection; an empty selection never saves |
| AddProductForm.ValidationRules | src/components/farmer/AddProductForm.tsx:15-24 | the category is not checked; a price that is not positive, or a quantity that is not a whole number at least 0, is rejected |
| AddProductForm.ValuesOf | src/components/farmer/AddProductForm.tsx:38-47 | the edit form starts from the product's own fields |
| AddProductForm.BuildProduct | src/components/farmer/AddProductForm.tsx:59-81 | an edit keeps the existing id (when non-empty) and `createdAt`; a new product gets the random id and `now`; `updatedAt` is `now`; name, description, price, quantity, unit, category, the organic and featured flags and the images are the form's; the farmer is the fixed one |
| AddProductForm.EditRoundTrip | src/components/farmer/AddProductForm.tsx:38-81 | submitting an unchanged valid edit gives back the product with only the form's fixed farmer and `updatedAt` replaced |
| AddProductForm.WithoutIndex | src/components/farmer/AddProductForm.tsx:95-97 | exactly the image at the index is removed, the others keep their order; an index outside the list changes nothing |
| AddProductForm.AddThenRemoveRestores | src/components/farmer/AddProductForm.tsx:89-97 | removing the image just appended restores the list |
| AddProductForm.ProductForm.constructor | src/components/farmer/AddProductForm.tsx:33 | the images start as the existing product's, or none |
| AddProductForm.ProductForm.AddImage | src/components/farmer/AddProductForm.tsx:83-93 | the uploaded image is appended at the end |
| AddProductForm.ProductForm.RemoveImage | src/components/farmer/AddProductForm.tsx:95-97 | the images become `WithoutIndex`, one shorter for a valid index |
| AddProductForm.ProductForm.Submit | src/components/farmer/AddProductForm.tsx:59-81 | a product is produced iff the values are valid, and it is `BuildProduct` of them |
| RegisterPage.FirstLine | src/pages/RegisterPage.tsx:29-31 | the prefix before the first line terminator, which is where the pattern's `.*` stops |
| RegisterPage.SingleLineChecksWhole | src/pages/RegisterPage.tsx:29-31 | for a one-line password the pattern demands a lower-case letter, an upper-case letter and a digit |
| RegisterPage.EachRuleRejects | src/pages/RegisterPage.tsx:24-35 | a name below 2 characters, a password below 8, a missing character class or unaccepted terms each reject |
| RegisterPage.SampleAccepted | src/pages/RegisterPage.tsx:24-35 | a form meeting every rule is accepted, so the rules are satisfiable |
| QuestionGenerator.Range | src/components/games/useQuestionGenerator.tsx:13-29 | medium 20, hard 50, easy and anything else 10 |
| QuestionGenerator.Pool | src/components/games/useQuestionGenerator.tsx:13-29 | easy and unknown {+, −}, medium adds ×, hard all four; ÷ only on hard |
| QuestionGenerator.DrawIndex | src/components/games/useQuestionGenerator.tsx:31 | a random index is inside the list |
| QuestionGenerator.AttemptAccepted | src/components/games/useQuestionGenerator.tsx:36-55 | one pass already meets the retry condition: the answer is a non-negative integer equal to num1 op num2, subtraction is ordered, division is exact with its answer in [1, range] |
| QuestionGenerator.Offset | src/components/games/useQuestionGenerator.tsx:61-62 | a wrong option's offset is in −5..−1 or 1..4 |
| QuestionGenerator.Shuffle | src/components/games/useQuestionGenerator.tsx:71 | the shuffled options are a permutation of the generated ones |
| QuestionGenerator.ShuffleKeepsGoodOptions | src/components/games/useQuestionGenerator.tsx:71 | shuffling keeps four distinct non-negative options including the answer |
| QuestionGenerator.WrongOptions | src/components/games/useQuestionGenerator.tsx:57-68 | the options start with the answer and stay distinct and non-negative, every other one offset by −5..−1 or 1..4; at four they are good options, and three suitable draws suffice |
| QuestionGenerator.GenerateQuestion | src/components/games/useQuestionGenerator.tsx:7-80 | the operation is from the difficulty's pool; the answer is a non-negative integer equal to num1 op num2; subtraction has num1 ≥ num2; division has num1 = answer·num2 with the answer in [1, range]; num2 is in [1, range], and so is num1 for +, − and ×; the options are four distinct non-negative numbers including the answer, the others offset by −5..−1 or 1..4 |
| GameScore.Percentage | src/components/games/GameScore.tsx:13 | score/total·100 rounded half-up, between 0 and 100 when score ≤ total; with a zero total, `Infinity` for a positive score and `NaN` for a zero score |
| GameScore.Message | src/components/games/GameScore.tsx:15-20 | ≥ 90 or `Infinity` Excellent, 70–89 Great job, 50–69 Good effort, below 50 or `NaN` Practice makes perfect |
| GameScore.TenQuestionBands | src/components/games/GameScore.tsx:13-20 | out of ten the percentage is ten times the score, and 9–10, 7–8, 5–6 and below 5 fall in the four bands |
| GameScore.PercentageMonotone | src/components/games/GameScore.tsx:13 | a higher score never gives a lower percentage |
| MathGame.Game.constructor | src/components/games/MathGame.tsx:12-17 | score 0, no question, not started, not over, easy |
| MathGame.Game.StartGame | src/components/games/MathGame.tsx:40-47 | score 0, question count 1, game over cleared, a fresh question |
| MathGame.Game.HandleOptionClick | src/components/games/MathGame.tsx:21-38 | no question: nothing happens; a right answer adds exactly 1; at count 10 the game ends, before it the count rises by 1 with a new question; score ≤ count ≤ 10 is kept |
| MathGame.Game.ChangeDifficulty | src/components/games/MathGame.tsx:53-58 | the difficulty changes, and a started game restarts |
| MathGame.Game.EndGame | src/components/games/MathGame.tsx:81 | the game is over; nothing else changes |
| MathGame.Game.FinalMessage | src/components/games/MathGame.tsx:71 | the score screen rates the score out of 10, and a perfect game is Excellent |
| MathGame.TenAnswersEndGame | src/components/games/MathGame.tsx:32-47 | from a fresh start, any ten clicks end the game; the first question and the next nine generated ones are shown in turn, and the score is the number answered right, at most 10 |

## Left out

- Rendering is not modelled: JSX, dialogs, Tailwind classes beyond the threshold rules, toasts, icons and navigation. Neither are the charts and the fixed numbers of the sales and analytics dashboards, nor the static pages.
- Browser APIs are parameters: `FileReader` results and `URL.createObjectURL` previews are strings handed to the handlers, and revoking a preview URL is not modelled. The `setTimeout` delays that simulate saving in the product and profile forms are not modelled either.
- Time and randomness are parameters:
  - `Date.now()` and `new Date()` are a `now` argument.
  - `Math.random()` draws are `real` arguments in [0, 1).
  - The random product id is a `randomId` argument.
- QuestionGenerator.WrongOptions: the loop stops when the supplied draws run out, so it may return fewer than four options, where the source keeps drawing.
- QuestionGenerator.GenerateQuestion: the option loop consumes a finite list of draws and returns no question when they run out before four options exist, where the source keeps drawing.
- QuestionGenerator.GenerateQuestion: the `do … while` retry loop is one pass, justified by `AttemptAccepted`, which proves its condition false after every first pass.
- QuestionGenerator.Shuffle: `sort` with a random comparator is modelled as some permutation chosen by the draws; which permutations the engine's sort can produce is not modelled.
- Floating point is not modelled:
  - money and percentages are exact `real`s;
  - `toFixed` and `toLocaleString` rendering is left out;
  - `formatFileSize` is modelled by its unit and its rounded tenths.
  - GameScore.Percentage is the exact half-up rounding; binary rounding of `score / total * 100` is not modelled.
- The date key of notification grouping (`toLocaleDateString`) is a function argument; locale formatting is not modelled.
- Library behaviour is approximated:
  - Case folding is ASCII only.
  - `localeCompare` is code-point order.
  - `parseInt` is decimal only; hexadecimal prefixes are not modelled.
  - zod's e-mail check is left out: FarmerProfile.FormValid and RegisterPage.FormValid do not check the e-mail field.
- AddProductForm.FormValid, FarmerProfile.FormValid, RegisterPage.FormValid and ReportsDownload.FormValid count the characters of a string, where zod's `.min(n)` counts UTF-16 code units. The two differ only for characters outside the Basic Multilingual Plane, such as emoji, which count as one character here and as two code units in the source.
- InventoryManagement.InventoryDialog.OnPriceInput: `parseFloat(text) || 0` is not parsed; the price arrives as a `real`.
- ProductsPage.Catalogue.constructor: the effect that copies the search parameter into the search box is modelled only at mount, not on later parameter changes.
- The products page's clear-search button is not modelled.
- The link from the sidebar's Reset to the page's `handleFilterReset` is not modelled as one call. The two are modelled separately, as `FilterSidebar.FilterPanel.Reset` and `ProductsPage.Catalogue.HandleFilterReset`.
- FilterSidebar.FilterPanel.SetPriceRange stores the slider value as a sequence of integers; slider bounds and steps are not modelled.
- AddProductForm.ProductForm.Submit: the `isSubmitting` flag and the delayed callback are not modelled; the product is returned directly.
- MathGame.Game.ChangeDifficulty: the restart uses the generator made for the difficulty before the change, so the caller passes a question generated for the old difficulty. The model does not tie `next` to a difficulty.
- The login page is not modelled: its only rule of its own is a 6-character password minimum.
- Order-status transitions, stock reservation and all-or-nothing checkout are not modelled because the code has none. Checkout (src/pages/CartPage.tsx:49-56) only shows a message.

## Findings

| source | as written | input that shows it | evidently intended | confidence | as-written member | corrected member |
|---|---|---|---|---|---|---|
| src/components/admin/UsersTable.tsx:41-69 (and src/components/admin/ProductsTable.tsx:41-60) | `currentPage` is kept when the search narrows the list; a page past the new total has an empty slice, which renders the "no ... found" message and hides the pagination bar | nine users, go to page 2, then search for a term matching one user | show the matches, i.e. clamp the page into [1, totalPages] (or reset it on search) | not executed | Pagination.StalePageHidesMatches | Pagination.ClampedRenderShowsMatches |
| src/components/farmer/FarmerProfile.tsx:39-87 | the produce-type buttons toggle a separate list that is never put into the form values, so the schema's "at least one produce type" checks the default ['vegetables', 'fruits'] | deselect every produce type and save: the profile saves with ['vegetables', 'fruits'] | validate and save the selection the buttons show | not executed | FarmerProfile.EmptySelectionStillSaves | FarmerProfile.EmptySelectionRejected |
