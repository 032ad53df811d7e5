# Storefront rules, modelled in Dafny

This project models the deterministic rules inside a small online store: an
Express/Mongo backend and a React frontend that sell products in Vietnamese
đồng (VND). It covers the backend's client order controller, which validates
and stores orders, lists them per user and overwrites their status. On the
client side it covers:

- the shopping cart;
- the delivery-details and payment-choice pages that place an order;
- the order detail and order history pages;
- the two product listings with their category walk, filters, sorts and pagination;
- the stand-alone mock product list and the admin product table;
- the header search box with its keyboard state machine;
- the product detail page with its quantity selector and its two buttons;
- the sign-in, sign-up and profile forms;
- the admin sidebar.

Each source file is one Dafny module (`order_controller.dfy`, `cart.dfy`, …).
Two more modules hold what they share:

- `Common`: optional values, the JavaScript string operations the code
  relies on, sequence filters and sums;
- `Sorting`: the stable sort that `Array.prototype.sort` performs with a key
  comparator.

Pages that keep state are classes. Each class has the page's state variables
as fields and one method per handler. What a handler computes is stated
through functions, and the lemmas beside them prove its properties. Every
call to the backend becomes a parameter that carries the reply: the reply
the call answered with, or the error it threw.

Amounts need no division. A discounted amount
`price * (1 - d/100) * quantity` is kept as
`price * (100 - d) * quantity`, exactly 100 times it.

## Model

| member | source | states |
|---|---|---|
| OrderController.InitialStatus | BE/controllers/client/order.controller.js:30 | `status \|\| 'pending'`: a truthy requested status is kept, anything else becomes `pending`; never empty |
| OrderController.BuildOrder | BE/controllers/client/order.controller.js:28-46 | the saved document: the caller's id, the initial status, the customer's name, phone, address and location as a `Point`, the fixed store origin, the non-empty product list, not deleted |
| OrderController.OriginIndependentOfRequest | BE/controllers/client/order.controller.js:40-43 | every accepted order gets the same two-coordinate store origin, whatever was sent |
| OrderController.SetStatus | BE/controllers/client/order.controller.js:98-103 | `updateOne` changes only the status of the order with that id; other orders and keys are untouched; a missing status writes nothing |
| OrderController.AnyStatusReachable | BE/controllers/client/order.controller.js:95-103 | there is no transition table: any status string can be written over any stored one, deleted orders included, leaving the rest of the order alone |
| OrderController.IdsBelow | BE/controllers/client/order.controller.js:61-63 | the ids of the user's non-deleted orders below a bound, ascending, and exactly those |
| OrderController.ListingIds | BE/controllers/client/order.controller.js:61-64 | the listing contains exactly the user's non-deleted orders |
| OrderController.ListingIdsOrdered | BE/controllers/client/order.controller.js:61-64 | the listing names each order once, newest `createdAt` first |
| OrderController.ListingIdsListed | BE/controllers/client/order.controller.js:61-64 | every id in the listing is a stored order of the user that is not soft-deleted |
| OrderController.ListingIdsDistinct | BE/controllers/client/order.controller.js:61-64 | no order appears twice in the listing |
| OrderController.ListingIdsNewestFirst | BE/controllers/client/order.controller.js:61-64 | the listing is ordered by `createdAt`, largest first |
| OrderController.ListingIdsCount | BE/controllers/client/order.controller.js:61-64 | when every stored id lies below the counter, the listing has exactly one entry per non-deleted order of the user |
| OrderController.LookupMembers | BE/controllers/client/order.controller.js:61-64 | the documents fetched for the listed ids are exactly the user's listed orders |
| OrderController.Lookup | BE/controllers/client/order.controller.js:61-68 | the documents returned are the stored ones, in listing order |
| OrderController.DistinctCount | BE/controllers/client/order.controller.js:61-64 | a strictly ascending id list holds each id at most once (used for the no-duplicates claim) |
| OrderController.UniqueIndices | BE/controllers/client/order.controller.js:61-64 | a list with no repeated value has no two positions holding the same id |
| OrderController.OrderStore.constructor | BE/controllers/client/order.controller.js:1 | the collection starts empty with the id counter at zero |
| OrderController.OrderStore.PostOrder | BE/controllers/client/order.controller.js:4-55 | 400 and nothing saved when a required field is missing or the location does not have two coordinates or the product list is empty; 500 and nothing saved when saving fails; otherwise 201 with `BuildOrder` saved under a fresh id |
| OrderController.OrderStore.View | BE/controllers/client/order.controller.js:58-78 | 200 with every non-deleted order of the user and nothing else, newest first, one entry per such order (the documents of the proved listing, in its order); 500 with nothing when the query fails |
| OrderController.OrderStore.Detail | BE/controllers/client/order.controller.js:81-91 | when the query succeeds, 200 with the stored order for the id (deleted or not) or `null`; when it fails, no reply at all, since the handler has no `try` |
| OrderController.OrderStore.EditStatus | BE/controllers/client/order.controller.js:95-108 | when the update succeeds, 200 and the collection becomes `SetStatus` of the old one, whether or not an order matched; when it fails, nothing is written and no reply is sent |
| Cart.WithTotals | FE/src/client/pages/Cart/Cart.jsx:17-20 | every loaded line gets `price * quantity` as its total; nothing else about a line changes |
| Cart.WithTotalsPriced | FE/src/client/pages/Cart/Cart.jsx:17-24 | re-pricing makes the cart priced, is the identity on a priced cart, and keeps the header count |
| Cart.SumFieldsAgree | FE/src/client/pages/Cart/Cart.jsx:55-56 | carts with the same quantities line by line have the same header count |
| Cart.ComputeLineTotals | FE/src/client/pages/Cart/Cart.jsx:18-20 | the in-place loop over the loaded array leaves it equal to `WithTotals` of the old contents, so every line is priced |
| Cart.SetQuantity | FE/src/client/pages/Cart/Cart.jsx:70-77 | the `map` keeps the number of lines; each line of the product becomes that line with the new quantity and `price * q` as its total, every other field kept; every other line is unchanged |
| Cart.SetQuantityPriced | FE/src/client/pages/Cart/Cart.jsx:72-76 | after a quantity change the cart stays priced; each line of the changed product is the old line with the new quantity and its recomputed total, all other fields kept; the other lines are unchanged |
| Cart.SetQuantityCount | FE/src/client/pages/Cart/Cart.jsx:78-82 | the new header count is the other products' quantities plus the new quantity for each line of the product |
| Cart.Without | FE/src/client/pages/Cart/Cart.jsx:93-96 | removal keeps exactly the lines of the other products |
| Cart.RemovalSubtracts | FE/src/client/pages/Cart/Cart.jsx:93-102 | removal takes the product's quantities off the header count and its line totals off the cart total |
| Cart.WithoutPriced | FE/src/client/pages/Cart/Cart.jsx:93-97 | the lines left after a removal are still priced |
| Cart.FilterSame | FE/src/client/pages/Cart/Cart.jsx:111-112 | two tests that agree on every line filter alike |
| Cart.SelectedLines | FE/src/client/pages/Cart/Cart.jsx:119-121 | the handed-over lines are exactly the lines whose product is ticked |
| Cart.SelectedTotalAtMost | FE/src/client/pages/Cart/Cart.jsx:110-114 | with non-negative line totals the selected subtotal lies between 0 and the whole cart's total |
| Cart.SelectAllSelectsCart | FE/src/client/pages/Cart/Cart.jsx:39-45 | after "select all" the selection is the whole cart and its subtotal the cart total |
| Cart.SelectionBySet | FE/src/client/pages/Cart/Cart.jsx:47-53 | only the set of ticked ids matters: duplicates and order in the selection list do not change the lines selected |
| Cart.Ids | FE/src/client/pages/Cart/Cart.jsx:41 | one id per line, in cart order |
| Cart.CartPage.constructor | FE/src/client/pages/Cart/Cart.jsx:9-11 | before loading: no cart, loading, nothing ticked, the header shows the stored count |
| Cart.CartPage.FetchCart | FE/src/client/pages/Cart/Cart.jsx:13-33 | on code 200 the cart becomes the re-priced loaded cart and the header count its quantity sum; otherwise the cart is kept; loading always ends |
| Cart.CartPage.SelectAll | FE/src/client/pages/Cart/Cart.jsx:39-45 | ticking selects every line's id, clearing selects nothing; nothing else changes |
| Cart.CartPage.SelectItem | FE/src/client/pages/Cart/Cart.jsx:47-53 | ticking appends the id, clearing removes every copy of it; nothing else changes |
| Cart.CartPage.QuantityChange | FE/src/client/pages/Cart/Cart.jsx:62-88 | the quantity is what the buttons pass or `parseInt` of the box, NaN included; the update is sent exactly when it is NaN or at least 1; a number below 1 or a refused call changes nothing; an accepted number makes the lines `SetQuantity` of the old ones, the totals follow and the page stays valid; in every case the other products' lines, the selection and the flags are kept |
| Cart.CartPage.RemoveItem | FE/src/client/pages/Cart/Cart.jsx:90-108 | when the call succeeds the product's lines leave the cart and its id leaves the selection; a refused call changes nothing; no line is ever added |
| Cart.CartPage.Checkout | FE/src/client/pages/Cart/Cart.jsx:116-130 | nothing is handed over exactly when no box is ticked; otherwise the ticked lines in cart order and their subtotal |
| OrderPage.FromCart | FE/src/client/pages/Cart/Cart.jsx:119-128 | a handed-over cart line keeps its product id, price, quantity and discount |
| OrderPage.DiscountOrZero | FE/src/client/pages/Order/Order.jsx:87 | `discountPercentage \|\| 0`: a present non-zero discount is kept, an absent or zero one is sent as 0 |
| OrderPage.PayloadLine | FE/src/client/pages/Order/Order.jsx:84-89 | one payload line carries the product id, price, quantity and the discount-or-zero |
| OrderPage.PayloadLines | FE/src/client/pages/Order/Order.jsx:84-89 | one payload line per selected product, position by position |
| OrderPage.ValidateForm | FE/src/client/pages/Order/Order.jsx:48-66 | the form passes exactly when name, phone and address are not blank and a position was picked; otherwise the first failing check in that order is reported |
| OrderPage.OrderPayload | FE/src/client/pages/Order/Order.jsx:73-90 | the payload: status `pending`, the typed name, phone and address, the position as a `Point`, and the payload lines |
| OrderPage.PaymentMethodIgnored | FE/src/client/pages/Order/Order.jsx:73-90 | the payment method picked on the page has no effect on what is sent |
| OrderPage.ValidFormAccepted | FE/src/client/pages/Order/Order.jsx:68-92 | a form the page accepts, with a two-coordinate position and a signed-in caller, passes the backend's intake check and is stored as `pending` with the payload lines |
| OrderPage.ShortPositionRefused | FE/src/client/pages/Order/Order.jsx:61 | the page only checks that a position exists: every form the page accepts whose position does not have exactly two coordinates is refused by the backend |
| OrderPage.OneCoordinatePassesPage | FE/src/client/pages/Order/Order.jsx:49-64 | a filled-in form with a one-coordinate position passes every check of the page |
| OrderPage.OrderForm.constructor | FE/src/client/pages/Order/Order.jsx:11-21 | empty fields, no position, cash on delivery, typing mode, not loading, and the handed-over selection and total |
| OrderPage.OrderForm.InputChange | FE/src/client/pages/Order/Order.jsx:31-37 | the named field takes the value; any other name changes nothing; the position is never touched |
| OrderPage.OrderForm.MapLocationSelect | FE/src/client/pages/Order/Order.jsx:39-46 | the picked address and position replace the typed ones; nothing else changes |
| OrderPage.OrderForm.ToggleMapMode | FE/src/client/pages/Order/Order.jsx:20 | the map mode flips and the form is kept |
| OrderPage.OrderForm.SubmitOrder | FE/src/client/pages/Order/Order.jsx:68-104 | an invalid form sends nothing and reports its first error; a valid one sends `OrderPayload`; the visitor goes to the order list exactly when the answer has a message, and an error toast shows exactly when the call throws |
| Checkout.ProviderOf | FE/src/client/pages/Checkout/Checkout.jsx:59-98 | `zalopay` and `momo` name their provider, and nothing else names one |
| Checkout.Payload | FE/src/client/pages/Checkout/Checkout.jsx:32-70 | the order posted carries the given status, the handed-over customer block and one payload line per selected product |
| Checkout.SelectedIds | FE/src/client/pages/Checkout/Checkout.jsx:46-76 | the ids removed from the cart are the selected products' ids, in order |
| Checkout.PaymentLink | FE/src/client/pages/Checkout/Checkout.jsx:101-107 | a truthy `paymentUrl` wins, else a truthy `payUrl`, else there is no link |
| Checkout.ConfirmEffects | FE/src/client/pages/Checkout/Checkout.jsx:27-118 | an unknown payment method does nothing at all, and a known one does at most four things; an online order without the customer's details throws when the link request reads the name, after the cart is cleared and before the provider is asked |
| Checkout.ConfirmOrder | FE/src/client/pages/Checkout/Checkout.jsx:27-118 | the awaited calls of `handleConfirmOrder`, made one after another, produce exactly `ConfirmEffects` |
| Checkout.PostsFirst | FE/src/client/pages/Checkout/Checkout.jsx:31-72 | for a known method the first effect posts the order, `pending` for cash and `pending_payment` online, and no order is posted twice |
| Checkout.ClearsOnlyAfterCreate | FE/src/client/pages/Checkout/Checkout.jsx:44-82 | the cart is cleared exactly when the order was created, right after posting it, of exactly the bought product ids |
| Checkout.PaymentMatchesChoice | FE/src/client/pages/Checkout/Checkout.jsx:55-98 | a payment link is requested only from the chosen provider, for exactly the handed-over total; only cash on delivery goes to `/orders` and never redirects |
| Checkout.RedirectFollowsLink | FE/src/client/pages/Checkout/Checkout.jsx:83-107 | the browser is sent to a URL exactly when an online order was created, the customer's details were handed over and the provider answered with that link |
| OrderDetail.FromStored | FE/src/client/pages/OrderDetail/OrderDetail.jsx:50-51 | the client sees the stored order's status, products and customer coordinates |
| OrderDetail.StatusText | FE/src/client/pages/OrderDetail/OrderDetail.jsx:70-79 | the five known statuses get their Vietnamese label; any other status is shown as is |
| OrderDetail.StatusTextDistinct | FE/src/client/pages/OrderDetail/OrderDetail.jsx:70-79 | two different known statuses never share a label |
| OrderDetail.StatusClass | FE/src/client/pages/OrderDetail/OrderDetail.jsx:81-90 | a known status gets the class `status-<status>`, and only a known status gets a non-empty class |
| OrderDetail.OrZero | FE/src/client/pages/OrderDetail/OrderDetail.jsx:95-97 | `x \|\| 0`: a present value is kept, a missing one reads as 0 |
| OrderDetail.MissingFieldAddsNothing | FE/src/client/pages/OrderDetail/OrderDetail.jsx:95-99 | a line without a price or a quantity adds nothing to the total |
| OrderDetail.AmountBounds | FE/src/client/pages/OrderDetail/OrderDetail.jsx:92-101 | with non-negative prices and quantities and discounts from 0 to 100, the total lies between 0 and the undiscounted total |
| OrderDetail.LineBounds | FE/src/client/pages/OrderDetail/OrderDetail.jsx:98-99 | one discounted line lies between 0 and its undiscounted amount |
| OrderDetail.OrderTotal100 | FE/src/client/pages/OrderDetail/OrderDetail.jsx:92-101 | no order or no product list gives 0; otherwise the sum of the discounted lines |
| OrderDetail.DisplayedLineTotal100 | FE/src/client/pages/OrderDetail/OrderDetail.jsx:308 | the per-line amount shown is NaN exactly when the price or the quantity is missing |
| OrderDetail.DisplayedLineIsSummand | FE/src/client/pages/OrderDetail/OrderDetail.jsx:94-99 | a line amount the page shows equals that line's share of the order total |
| OrderDetail.StoredMapIffShipping | FE/src/client/pages/OrderDetail/OrderDetail.jsx:163-196 | for a stored order, which always has coordinates, the tracking map shows exactly while it is shipping |
| OrderDetail.OrderDetailPage.constructor | FE/src/client/pages/OrderDetail/OrderDetail.jsx:11-14 | no order, loading, not cancelling, no driver position |
| OrderDetail.OrderDetailPage.FetchDetail | FE/src/client/pages/OrderDetail/OrderDetail.jsx:46-68 | code 200 stores the answered order and, for a shipping order, the mock driver position; any other code or a throw keeps the order and goes back to the list; loading always ends |
| OrderDetail.OrderDetailPage.CancelOrder | FE/src/client/pages/OrderDetail/OrderDetail.jsx:107-127 | without a confirmation nothing changes; with one, the order's status becomes `cancelled` exactly when the call answers 200, and cancelling ends |
| OrderDetail.CancelIsFinalOnPage | FE/src/client/pages/OrderDetail/OrderDetail.jsx:116-131 | a cancelled order cannot be cancelled again, keeps its total and is labelled as cancelled |
| Orders.CardTotal100 | FE/src/client/pages/Orders/Orders.jsx:59-68 | a missing product list costs 0 |
| Orders.SameTotalAsDetail | FE/src/client/pages/Orders/Orders.jsx:59-68 | the order card shows the same total as the detail page for the same order |
| Orders.FilterOrders | FE/src/client/pages/Orders/Orders.jsx:74-77 | any tab other than `all` keeps exactly the orders with that status; never more orders than loaded |
| Orders.AllTabKeepsEverything | FE/src/client/pages/Orders/Orders.jsx:75 | the `all` tab shows every order in order |
| Orders.TabCount | FE/src/client/pages/Orders/Orders.jsx:162-174 | a tab's count is at most the number of orders |
| Orders.TabCountMatchesList | FE/src/client/pages/Orders/Orders.jsx:156-174 | each tab's count is the length of the list that tab shows, `all` included |
| Orders.TabCountsAtMostAll | FE/src/client/pages/Orders/Orders.jsx:156-174 | the pending, shipping and delivered counts together never exceed the `all` count |
| Orders.Preview | FE/src/client/pages/Orders/Orders.jsx:208 | the first three products, or all of them when there are at most three |
| Orders.MoreCount | FE/src/client/pages/Orders/Orders.jsx:223-225 | the "+n more" note shows exactly when there are more than three products |
| Orders.PreviewAccountsForAll | FE/src/client/pages/Orders/Orders.jsx:208-225 | the preview plus the "+n" count is the number of products, and the preview is a prefix of them |
| Orders.OrdersAfterFetch | FE/src/client/pages/Orders/Orders.jsx:17-35 | code 200 with a list stores that list; anything else, a throw included, leaves the list empty |
| Orders.TestOrderAccepted | FE/src/client/pages/Orders/Orders.jsx:79-113 | the demo order passes the backend's intake check, is stored as `shipping`, shows the tracking map and costs 538 200 |
| Catalog.DiscountedPrice100 | FE/src/client/pages/Products/Product.jsx:101-104 | no or zero discount keeps the price; otherwise the price less that percentage |
| Catalog.DiscountBounds | FE/src/client/pages/Products/Product.jsx:101-104 | with a discount from 0 to 100 the discounted price lies between 0 and the price |
| Catalog.DiscountMonotone | FE/src/client/pages/Products/Product.jsx:101-104 | a larger discount never gives a higher price |
| Catalog.ProductBadge | FE/src/client/pages/Products/Product.jsx:128-134 | a discount of at least 20 % shows that discount; otherwise positions up to 3 are Hot, up to 6 Sale, up to 9 New, and the rest have no badge, each case exactly |
| Catalog.BadgeOfTopPositions | FE/src/client/pages/Products/Product.jsx:130 | without a big discount, any position up to 3 is Hot, whatever the other fields |
| Catalog.BadgeMonotoneInPosition | FE/src/client/pages/Products/Product.jsx:127-134 | moving a product to a smaller position, or giving a position to one without, never makes its badge less prominent (discount, Hot, Sale, New, none) |
| Catalog.SortProducts | FE/src/client/pages/Products/Product.jsx:107-123 | the sort returns a permutation of the filtered products |
| Catalog.SortOrders | FE/src/client/pages/Products/Product.jsx:107-123 | `price-low` orders by discounted price up, `price-high` down, `rating` by rating down (missing as 0), `newest` by date down, and any other mode keeps the list order |
| Catalog.SortKeepsProducts | FE/src/client/pages/Products/Product.jsx:107 | a product is listed after sorting exactly when it was before |
| Catalog.TotalPages | FE/src/client/pages/Products/Product.jsx:135 | `Math.ceil(n / k)`: the least number of pages of size `k` that hold `n` products |
| Catalog.PagesArithmetic | FE/src/client/pages/Products/Product.jsx:135 | the integer form of the ceiling is the least page count that covers the products |
| Catalog.TotalPagesLeast | FE/src/client/pages/Products/Product.jsx:135 | no smaller page count suffices, and there are no pages exactly when there are no products |
| Catalog.MulMonotone | FE/src/client/pages/Products/Product.jsx:136-139 | multiplying by the page size keeps order, so page boundaries grow with the page number; used for the page-count and page-boundary lemmas |
| Catalog.PageSlice | FE/src/client/pages/Products/Product.jsx:136-139 | a page holds at most `k` products, the ones from position `(p-1)k` on, in order, and is empty past the end |
| Catalog.PageBounds | FE/src/client/pages/Products/Product.jsx:137-138 | a page starts at a non-negative position and ends `k` later |
| Catalog.PagesArePrefix | FE/src/client/pages/Products/Product.jsx:136-139 | the first `m` pages put together are the first `m·k` products |
| Catalog.AllPagesShowEverything | FE/src/client/pages/Products/Product.jsx:135-139 | pages 1 to `totalPages` together list every product exactly once, in order |
| Catalog.PageEmptyIffPastLast | FE/src/client/pages/Products/Product.jsx:135-139 | a page is empty exactly when its number is past `totalPages` |
| Catalog.CategoryName | FE/src/client/pages/Products/Product.jsx:53-56 | the title of the first category with that id, or `Unknown` when none has it |
| Catalog.FirstPageShows | FE/src/client/pages/ProductbyCategory/ProductbyCategory.jsx:279-282 | page 1, where a reset leads, shows something whenever something matches and is never past the last page |
| CategoryPage.ChildrenSound | FE/src/client/pages/ProductbyCategory/ProductbyCategory.jsx:92 | every child returned has the given parent and comes from the category list |
| CategoryPage.ChildrenComplete | FE/src/client/pages/ProductbyCategory/ProductbyCategory.jsx:92 | every category with the given parent is among the children |
| CategoryPage.ChildrenMembers | FE/src/client/pages/ProductbyCategory/ProductbyCategory.jsx:92 | the children are exactly the categories with that parent |
| CategoryPage.Subtree | FE/src/client/pages/ProductbyCategory/ProductbyCategory.jsx:91-98 | the id list starts with the parent itself |
| CategoryPage.SubtreeSound | FE/src/client/pages/ProductbyCategory/ProductbyCategory.jsx:91-98 | every id collected descends from the parent through a chain of parents |
| CategoryPage.SubtreesSound | FE/src/client/pages/ProductbyCategory/ProductbyCategory.jsx:94-96 | every id the children's recursive calls add descends from the parent |
| CategoryPage.SubtreesInclude | FE/src/client/pages/ProductbyCategory/ProductbyCategory.jsx:94-96 | the concatenation includes the whole subtree of each child handled so far |
| CategoryPage.SubtreeComplete | FE/src/client/pages/ProductbyCategory/ProductbyCategory.jsx:91-98 | every category from which a chain of parents leads to the parent is collected |
| CategoryPage.SubtreeMembers | FE/src/client/pages/ProductbyCategory/ProductbyCategory.jsx:91-98 | the ids collected are exactly the parent and the categories below it |
| CategoryPage.ChildCategoryIds | FE/src/client/pages/ProductbyCategory/ProductbyCategory.jsx:91-98 | the recursive loop returns the parent first and then exactly the categories below it, given that parent links do not loop |
| CategoryPage.AppendChildIds | FE/src/client/pages/ProductbyCategory/ProductbyCategory.jsx:94-96 | one turn of the loop: after `p` and the subtrees of the first `k` children comes the subtree of child `k` |
| CategoryPage.FilterProducts | FE/src/client/pages/ProductbyCategory/ProductbyCategory.jsx:115-131 | a product is kept exactly when its price is in range and, once a category is chosen, its category is that one or lies below it; nothing is added |
| CategoryPage.NoCategoryFiltersByPriceOnly | FE/src/client/pages/ProductbyCategory/ProductbyCategory.jsx:123 | with no category chosen, only the price range decides |
| CategoryPage.OwnCategoryKept | FE/src/client/pages/ProductbyCategory/ProductbyCategory.jsx:123-127 | a product of the chosen category itself is kept whenever its price is in range |
| CategoryPage.Listing | FE/src/client/pages/ProductbyCategory/ProductbyCategory.jsx:134-150 | sorting keeps the number of filtered products |
| CategoryPage.SliderHidesDearerProducts | FE/src/client/pages/ProductbyCategory/ProductbyCategory.jsx:212-223 | under any upper bound the slider can set (at most 2000), no product dearer than 2000 is kept, whatever the category |
| CategoryPage.IdOfSlug | FE/src/client/pages/ProductbyCategory/ProductbyCategory.jsx:41-42 | the id of a category with that slug, and none exactly when no category has it |
| CategoryPage.SubcategoriesOf | FE/src/client/pages/ProductbyCategory/ProductbyCategory.jsx:45-46 | the sidebar lists exactly the categories whose parent is the current category |
| CategoryPage.CategoryListing.constructor | FE/src/client/pages/ProductbyCategory/ProductbyCategory.jsx:8-21 | empty lists, loading, the initial filters, 6 per page, sort `featured`, page 1 |
| CategoryPage.CategoryListing.Fetch | FE/src/client/pages/ProductbyCategory/ProductbyCategory.jsx:27-55 | a throw changes only the loading flag; otherwise products, categories and the first three products are stored, and with a category list the filter becomes the slug's category id and the sidebar its children; page, size and sort are kept |
| CategoryPage.CategoryListing.QueryCategory | FE/src/client/pages/ProductbyCategory/ProductbyCategory.jsx:58-68 | a non-empty `?category=` replaces the category filter; otherwise nothing changes; the page number is kept |
| CategoryPage.CategoryListing.PriceRangeChange | FE/src/client/pages/ProductbyCategory/ProductbyCategory.jsx:76-81 | the range changes and nothing else, the page number included |
| CategoryPage.CategoryListing.CategoryClick | FE/src/client/pages/ProductbyCategory/ProductbyCategory.jsx:83-89 | the category changes and the listing goes back to page 1 |
| CategoryPage.CategoryListing.ItemsPerPageChange | FE/src/client/pages/ProductbyCategory/ProductbyCategory.jsx:279-282 | the new page size, and back to page 1 |
| CategoryPage.CategoryListing.SortChange | FE/src/client/pages/ProductbyCategory/ProductbyCategory.jsx:294 | the sort mode changes and nothing else |
| CategoryPage.CategoryListing.Prev | FE/src/client/pages/ProductbyCategory/ProductbyCategory.jsx:373 | one page back, never below page 1 |
| CategoryPage.CategoryListing.Next | FE/src/client/pages/ProductbyCategory/ProductbyCategory.jsx:388-391 | one page on, never past the last page |
| CategoryPage.CategoryListing.GoToPage | FE/src/client/pages/ProductbyCategory/ProductbyCategory.jsx:378-382 | a numbered button sets that page, which lies between 1 and the page count |
| ProductsPage.RootCategories | FE/src/client/pages/Products/Product.jsx:40 | the sidebar categories are exactly those whose parent is `""`, each kept once per occurrence |
| ProductsPage.FilterProducts | FE/src/client/pages/Products/Product.jsx:91-97 | a product is kept exactly when its price lies in the range, both ends included |
| ProductsPage.OnlyPriceFilters | FE/src/client/pages/Products/Product.jsx:91-97 | the chosen category and colours never change what is listed; only the price range does |
| ProductsPage.ToggleColor | FE/src/client/pages/Products/Product.jsx:82-89 | a ticked colour is removed entirely, an unticked one is added, and no other colour changes |
| ProductsPage.ToggleTwiceRestores | FE/src/client/pages/Products/Product.jsx:82-89 | ticking an unticked colour and unticking it again gives back the same list |
| ProductsPage.Listing | FE/src/client/pages/Products/Product.jsx:91-123 | the sorted listing holds exactly the products in the price range |
| ProductsPage.SliderHidesDearerProducts | FE/src/client/pages/Products/Product.jsx:216-222 | under any upper bound the slider can set (at most 2000), no product dearer than 2000 is listed |
| ProductsPage.ProductListing.constructor | FE/src/client/pages/Products/Product.jsx:9-23 | empty lists, loading, the initial filters, 6 per page, sort `featured`, page 1 |
| ProductsPage.ProductListing.Fetch | FE/src/client/pages/Products/Product.jsx:26-49 | a throw changes only the loading flag; otherwise products, categories and the first three products are stored, and with a category list the sidebar gets its root categories |
| ProductsPage.ProductListing.ApplyFetched | FE/src/client/pages/Products/Product.jsx:35-39 | the products and categories default to empty lists, the first three products become the new products, the root list is replaced only when a category list came back, and the filters, page size, sort and page are kept |
| ProductsPage.ProductListing.QueryCategory | FE/src/client/pages/Products/Product.jsx:69-79 | a non-empty `?category=` replaces the category filter; otherwise nothing changes |
| ProductsPage.ProductListing.PriceRangeChange | FE/src/client/pages/Products/Product.jsx:59-64 | the range changes and the page number is kept |
| ProductsPage.ProductListing.ColorFilter | FE/src/client/pages/Products/Product.jsx:82-89 | only the colour list changes, by `ToggleColor` |
| ProductsPage.ProductListing.SortChange | FE/src/client/pages/Products/Product.jsx:321-324 | the sort mode changes and nothing else |
| ProductsPage.ProductListing.ItemsPerPageChangeAsWritten | FE/src/client/pages/Products/Product.jsx:307-310 | the page size changes and the page number is kept, as the select is written |
| ProductsPage.ProductListing.ItemsPerPageChange | FE/src/client/pages/ProductbyCategory/ProductbyCategory.jsx:279-282 | the page size changes and the listing goes back to page 1, as the category listing does |
| ProductsPage.ProductListing.PageChange | FE/src/client/pages/Products/Product.jsx:141-145 | a page from 1 to the page count is taken; any other is ignored |
| ProductsPage.PageChangeAcceptsNonEmptyPages | FE/src/client/pages/Products/Product.jsx:141-145 | the guard accepts exactly the pages that show at least one product |
| ProductsPage.ResizeStrandsPage | FE/src/client/pages/Products/Product.jsx:307-310 | with 10 products on page 2 of size 6, switching to 20 per page leaves page 2 empty while there is only one page |
| ProductsPage.ResizeWithResetShowsProducts | FE/src/client/pages/ProductbyCategory/ProductbyCategory.jsx:279-282 | with the reset, any new page size lands on a page that shows something whenever something matches |
| MockCatalog.NumberOf | FE/src/client/pages/Products.jsx:59 | `Number(part)` on a piece of a range: a string of digits has a non-negative value, `""` reads as 0, anything else is NaN |
| MockCatalog.PriceBounds | FE/src/client/pages/Products.jsx:59 | the lower bound is the number before the first `-`; without a second piece the upper bound is missing |
| MockCatalog.PriceRangeRoundTrip | FE/src/client/pages/Products.jsx:31-37 | a range written `a-b` parses back to exactly `a` and `b` |
| MockCatalog.PriceRangeInclusive | FE/src/client/pages/Products.jsx:58-63 | a range `a-b` keeps exactly the prices from `a` to `b`, both included |
| MockCatalog.Shown | FE/src/client/pages/Products.jsx:46-77 | never more products than loaded |
| MockCatalog.ShownIsPermutationOfKept | FE/src/client/pages/Products.jsx:46-77 | the list shown is a permutation of the products passing the search, category and price tests, so a product is shown exactly when it passes all three |
| MockCatalog.ShownOrder | FE/src/client/pages/Products.jsx:66-77 | `price-low` orders by price up, `price-high` down, `rating` by rating down, anything else by name collation |
| MockCatalog.InitialFiltersShowEverything | FE/src/client/pages/Products.jsx:8-13 | with the initial filters and no search term every loaded product is shown |
| MockCatalog.MockProductsPage.constructor | FE/src/client/pages/Products.jsx:6-13 | no products, loading, the initial filter object, no search term |
| MockCatalog.MockProductsPage.Load | FE/src/client/pages/Products.jsx:16-28 | the timer stores the six mock products and ends loading |
| MockCatalog.MockProductsPage.FilterChange | FE/src/client/pages/Products.jsx:39-44 | that one key takes the value, every other key keeps its own, and the key set grows by that key at most |
| MockCatalog.MockProductsPage.SearchChange | FE/src/client/pages/Products.jsx:106 | the search term changes and nothing else |
| MockCatalog.FilterChangeKeepsOtherKeys | FE/src/client/pages/Products.jsx:39-44 | after a change of one key, the other keys read as before and the changed one reads the new value |
| AdminProducts.StatusBadge | FE/src/admin/pages/ProductsManagement.jsx:69-78 | the three known statuses get their own label and class; any other shows its raw text in the default style |
| AdminProducts.DefaultStyleOnlyForUnknown | FE/src/admin/pages/ProductsManagement.jsx:69-78 | the default style is used exactly for unknown statuses |
| AdminProducts.FilterProducts | FE/src/admin/pages/ProductsManagement.jsx:80-86 | a product is kept exactly when its lower-cased name contains the lower-cased term, its category matches (or the select is on all) and its status matches (or none is chosen) |
| AdminProducts.IncludesEmpty | FE/src/admin/pages/ProductsManagement.jsx:81 | every name contains the empty term, which is what lets the unguarded search test pass with no term |
| AdminProducts.NoFiltersShowAll | FE/src/admin/pages/ProductsManagement.jsx:80-86 | with no term and both selects on all, the whole list is shown in order |
| AdminProducts.WithoutId | FE/src/admin/pages/ProductsManagement.jsx:90 | deletion keeps exactly the products with another id, adding none |
| AdminProducts.DeleteAbsentIdChangesNothing | FE/src/admin/pages/ProductsManagement.jsx:90 | deleting an id no product has leaves the list as it was |
| AdminProducts.WithStatus | FE/src/admin/pages/ProductsManagement.jsx:95-97 | same length; products with that id get the new status, the others are unchanged |
| AdminProducts.StatusChangeTouchesOnlyStatus | FE/src/admin/pages/ProductsManagement.jsx:95-97 | a status change alters no field but the status, and afterwards every product with that id has the new status |
| AdminProducts.StatusChangeIdempotent | FE/src/admin/pages/ProductsManagement.jsx:94-98 | applying the same status change twice equals applying it once |
| AdminProducts.DeleteAfterStatusChange | FE/src/admin/pages/ProductsManagement.jsx:88-98 | deleting after a status change of the same id leaves the same list as deleting straight away |
| AdminProducts.ProductsManagementPage.constructor | FE/src/admin/pages/ProductsManagement.jsx:6-10 | no products, loading, no term and both filters empty |
| AdminProducts.ProductsManagementPage.Load | FE/src/admin/pages/ProductsManagement.jsx:14-58 | the timer stores the four mock products and ends loading |
| AdminProducts.ProductsManagementPage.Counts | FE/src/admin/pages/ProductsManagement.jsx:168 | the shown count never exceeds the total, which is the number of products |
| AdminProducts.ProductsManagementPage.Delete | FE/src/admin/pages/ProductsManagement.jsx:88-92 | after a confirmation every product with that id is gone; without one nothing changes |
| AdminProducts.ProductsManagementPage.StatusChange | FE/src/admin/pages/ProductsManagement.jsx:94-98 | the list becomes `WithStatus` of the old one; the filters are kept |
| AdminProducts.ProductsManagementPage.SearchChange | FE/src/admin/pages/ProductsManagement.jsx:132 | the term changes and nothing else |
| AdminProducts.ProductsManagementPage.CategoryChange | FE/src/admin/pages/ProductsManagement.jsx:140 | the category filter changes and nothing else |
| AdminProducts.ProductsManagementPage.StatusFilterChange | FE/src/admin/pages/ProductsManagement.jsx:152 | the status filter changes and nothing else |
| SearchBox.KeywordNeedsTwoCharacters | FE/src/client/components/Search/SearchBox.jsx:29-34 | a keyword is sent exactly when the trimmed term has at least two characters, and it is the trimmed term; a blank or one-character term never sends |
| SearchBox.FilterSuggestions | FE/src/client/components/Search/SearchBox.jsx:60-68 | never more suggestions than answered |
| SearchBox.FilterSuggestionsMembers | FE/src/client/components/Search/SearchBox.jsx:60-68 | a product is suggested exactly when its lower-cased title contains the lower-cased keyword, or does so with accents removed |
| SearchBox.ArrowDownIndex | FE/src/client/components/Search/SearchBox.jsx:99-101 | ArrowDown moves to the next suggestion and wraps from the last to the first |
| SearchBox.ArrowUpIndex | FE/src/client/components/Search/SearchBox.jsx:105-107 | ArrowUp moves to the previous suggestion and wraps from the first (or from none) to the last |
| SearchBox.ArrowsStayInRange | FE/src/client/components/Search/SearchBox.jsx:96-108 | from no selection or any suggestion, both arrows land on a suggestion |
| SearchBox.ArrowsAreInverse | FE/src/client/components/Search/SearchBox.jsx:96-108 | from any suggestion, ArrowUp undoes ArrowDown and ArrowDown undoes ArrowUp |
| SearchBox.ArrowDownTimesAdd | FE/src/client/components/Search/SearchBox.jsx:99-101 | pressing ArrowDown `a + b` times is pressing it `a` times and then `b` times |
| SearchBox.ArrowDownTimesNoWrap | FE/src/client/components/Search/SearchBox.jsx:99-101 | without reaching the end, `n` presses move `n` places down |
| SearchBox.FullCircle | FE/src/client/components/Search/SearchBox.jsx:99-101 | pressing ArrowDown once per suggestion comes back to the starting suggestion |
| SearchBox.MatchIndex | FE/src/client/components/Search/SearchBox.jsx:148-151 | -1 only when neither the plain nor the accent-free lower-cased text contains the term; a plain match is found first and the term occurs there; otherwise the accent-free term occurs at the index in the accent-free text |
| SearchBox.HighlightMatch | FE/src/client/components/Search/SearchBox.jsx:139-158 | an empty term or no match leaves the text plain; a match splits it into three pieces that put together give back the text |
| SearchBox.HighlightMarksTerm | FE/src/client/components/Search/SearchBox.jsx:153-158 | for lower-case text containing the term, the bold piece is the term and starts at its first occurrence |
| SearchBox.SearchBoxState.constructor | FE/src/client/components/Search/SearchBox.jsx:8-13 | empty term, no suggestions, list hidden, not loading, nothing selected |
| SearchBox.SearchBoxState.InputChange | FE/src/client/components/Search/SearchBox.jsx:82-86 | the term takes the value and the selection is cleared |
| SearchBox.SearchBoxState.DebounceFired | FE/src/client/components/Search/SearchBox.jsx:27-38 | the keyword sent is `Keyword` of the term; with none the list is cleared and hidden; an answer with products shows the matching ones, an answer without changes nothing, a throw clears the list |
| SearchBox.SearchBoxState.ApplySuggestReply | FE/src/client/components/Search/SearchBox.jsx:27-80 | given the keyword check's outcome: none clears and hides the list; an answer with products replaces the list by the matching ones, shown exactly when not empty; an answer without products keeps list and visibility; a throw clears and hides the list; loading ends and the term and selection stay |
| SearchBox.SearchBoxState.ClickOutside | FE/src/client/components/Search/SearchBox.jsx:42-47 | the list is hidden and the selection cleared |
| SearchBox.SearchBoxState.Focus | FE/src/client/components/Search/SearchBox.jsx:179-183 | focusing the input shows the list when there are suggestions, and changes nothing else |
| SearchBox.SearchBoxState.Search | FE/src/client/components/Search/SearchBox.jsx:124-130 | a non-blank term goes to the search page for the encoded trimmed term and hides the list; a blank one does nothing |
| SearchBox.SearchBoxState.SuggestionClick | FE/src/client/components/Search/SearchBox.jsx:132-137 | goes to the product's page, empties the term, hides the list and clears the selection |
| SearchBox.SearchBoxState.KeyDown | FE/src/client/components/Search/SearchBox.jsx:88-122 | with no list shown only Enter acts (as a search); otherwise ArrowDown and ArrowUp move the selection with wrap-around, Escape hides the list, Enter opens the selected suggestion or searches; any other key changes nothing |
| DetailProduct.LeadingDigits | FE/src/client/pages/DetailProduct/detailProduct.jsx:236 | the longest run of digits at the start of the text, stopping at the first non-digit |
| DetailProduct.ParseInt | FE/src/client/pages/DetailProduct/detailProduct.jsx:236 | `parseInt` is NaN exactly when, after leading blanks and one sign, no digit follows |
| DetailProduct.LeadingDigitsOfNumeral | FE/src/client/pages/DetailProduct/detailProduct.jsx:236 | a numeral followed by a non-digit is read up to its end |
| DetailProduct.ParseIntReadsNumeral | FE/src/client/pages/DetailProduct/detailProduct.jsx:236 | `parseInt` reads back any written non-negative number, whatever non-digit text follows it |
| DetailProduct.QuantityFromInput | FE/src/client/pages/DetailProduct/detailProduct.jsx:236 | `parseInt(value) \|\| 1`: NaN and 0 become 1, any other number is kept; never 0 |
| DetailProduct.EmptyInputReadsAsOne | FE/src/client/pages/DetailProduct/detailProduct.jsx:236 | an emptied or non-numeric input reads as quantity 1 |
| DetailProduct.FirstBlock | FE/src/client/pages/DetailProduct/detailProduct.jsx:37-49 | the guards in order: not signed in, then no product id, then more than in stock; none applies exactly when the action may proceed |
| DetailProduct.AddToCart | FE/src/client/pages/DetailProduct/detailProduct.jsx:35-67 | blocked exactly by `FirstBlock`; otherwise the product id and quantity are posted, success is code 200 or a `success` flag, and a throw is reported as a failure |
| DetailProduct.BuyNow | FE/src/client/pages/DetailProduct/detailProduct.jsx:70-107 | blocked exactly by `FirstBlock`; otherwise one selected line with the product and quantity goes to the order page with total `price * quantity` |
| DetailProduct.ButtonsBlockAlike | FE/src/client/pages/DetailProduct/detailProduct.jsx:37-49 | "Add to cart" and "Buy now" are blocked in the same cases and for the same reason |
| DetailProduct.BuyNowTotalIgnoresDiscount | FE/src/client/pages/DetailProduct/detailProduct.jsx:87-98 | the total handed to the order page is price times quantity without the discount: it is never below the discounted amount of the line sent with it, and equals it exactly when the discount is 0 |
| DetailProduct.DiscountScales | FE/src/client/pages/DetailProduct/detailProduct.jsx:94-98 | a discounted amount is at most the full amount, with equality exactly at discount 0 |
| DetailProduct.DetailProductPage.constructor | FE/src/client/pages/DetailProduct/detailProduct.jsx:11-15 | no product, quantity 1, loading |
| DetailProduct.DetailProductPage.Loaded | FE/src/client/pages/DetailProduct/detailProduct.jsx:19-26 | the fetched product is stored and loading ends; the quantity is kept |
| DetailProduct.DetailProductPage.QuantityChange | FE/src/client/pages/DetailProduct/detailProduct.jsx:28-32 | a quantity from 1 to 99 is taken; any other is ignored |
| DetailProduct.DetailProductPage.QuantityInput | FE/src/client/pages/DetailProduct/detailProduct.jsx:236 | the typed text, read by `QuantityFromInput`, is taken when it lies from 1 to 99 |
| DetailProduct.DetailProductPage.Decrement | FE/src/client/pages/DetailProduct/detailProduct.jsx:232 | the minus button lowers the quantity by one, never below 1 |
| DetailProduct.DetailProductPage.Increment | FE/src/client/pages/DetailProduct/detailProduct.jsx:240 | the plus button raises the quantity by one, never above 99 |
| Forms.EmailLikeShape | FE/src/client/pages/Login/Login.jsx:35 | a text the e-mail pattern accepts contains an `@`, a `.` and at least five characters |
| Forms.EmailExamples | FE/src/client/pages/Login/Login.jsx:35 | the pattern accepts `a@b.c` and refuses the empty text, a text without `@`, one with nothing before the `@`, and one with a space before the dot |
| Forms.ClearError | FE/src/client/pages/Login/Login.jsx:15-28 | after an edit the edited field shows no error; no other entry changes and none is added |
| Forms.ClearErrorIdempotent | FE/src/client/pages/Login/Login.jsx:22-27 | a second edit of the same field changes the error list no further |
| Login.ValidateForm | FE/src/client/pages/Login/Login.jsx:30-47 | e-mail: "required" when empty, "invalid" when the pattern fails, no entry otherwise; password: "required" when empty, "too short" below six characters; nothing else; the form is valid exactly when the list is empty |
| Login.LoginPage.constructor | FE/src/client/pages/Login/Login.jsx:7-12 | empty e-mail and password, no errors, not loading |
| Login.LoginPage.Change | FE/src/client/pages/Login/Login.jsx:15-28 | the named field takes the value and only that field's error is cleared |
| Login.LoginPage.Submit | FE/src/client/pages/Login/Login.jsx:49-69 | an invalid form shows its field errors and sends nothing; a valid one is sent and leads home when answered, or shows the general failure text plus the error when the call throws; loading ends either way |
| Register.ValidateForm | FE/src/client/pages/Register/Register.jsx:32-59 | one entry per failing field (name required; e-mail required or invalid; password required or too short; confirmation required or different), nothing else; valid exactly when the list is empty |
| Register.MismatchRefused | FE/src/client/pages/Register/Register.jsx:51-55 | a confirmation that differs from the password is never accepted |
| Register.RegisterPage.constructor | FE/src/client/pages/Register/Register.jsx:7-14 | the four fields empty, no errors, not loading |
| Register.RegisterPage.Change | FE/src/client/pages/Register/Register.jsx:17-30 | the named field takes the value and only that field's error is cleared |
| Register.RegisterPage.Submit | FE/src/client/pages/Register/Register.jsx:61-77 | an invalid form shows its field errors and sends nothing; a valid one is sent and leads to the sign-in page when answered, or shows the general failure text plus the error when the call throws |
| Profile.EmailLikeNotBlank | FE/src/client/pages/Profile/Profile.jsx:87-91 | an e-mail the pattern accepts is never blank, so for the e-mail field the "required" test only picks the message |
| Profile.ValidateProfileForm | FE/src/client/pages/Profile/Profile.jsx:80-99 | full name: an entry exactly when blank after trimming; e-mail: an entry exactly when the pattern fails, "required" when blank and "invalid" otherwise; phone: an entry exactly when non-empty and not ten or eleven digits; nothing else; valid exactly when the list is empty |
| Profile.ValidatePasswordForm | FE/src/client/pages/Profile/Profile.jsx:101-120 | current password required; new password required, then at least six characters; confirmation compared with the new password in every case; nothing else; valid exactly when the list is empty |
| Profile.UserName | FE/src/client/pages/Profile/Profile.jsx:310 | the shown user name never contains `@`, and is empty without a user |
| Profile.UserNameIsLocalPart | FE/src/client/pages/Profile/Profile.jsx:310 | for `local@domain` the shown name is `local`; an e-mail without `@` is shown whole |
| Profile.MergeUser | FE/src/client/pages/Profile/Profile.jsx:149 | the merged user has the keys of both; the answered fields win and every other stored field is kept |
| Profile.MergeIdempotent | FE/src/client/pages/Profile/Profile.jsx:149 | merging the same answer a second time changes nothing |
| Profile.FormFor | FE/src/client/pages/Profile/Profile.jsx:26-33 | the form filled from a stored user holds its name, e-mail and phone (`''` when missing) and three empty password fields |
| Profile.ProfilePage.constructor | FE/src/client/pages/Profile/Profile.jsx:6-20 | no user, the six fields empty, no errors, no success text, no avatar |
| Profile.ProfilePage.Mount | FE/src/client/pages/Profile/Profile.jsx:22-36 | a stored user fills the form and the avatar preview; without one nothing changes |
| Profile.ProfilePage.InputChange | FE/src/client/pages/Profile/Profile.jsx:38-51 | the named field takes the value and only that field's error is cleared |
| Profile.ProfilePage.AvatarChange | FE/src/client/pages/Profile/Profile.jsx:53-78 | a file over 1 MB only sets the avatar error; a smaller one is kept and its error cleared; no file changes nothing |
| Profile.ProfilePage.AvatarRead | FE/src/client/pages/Profile/Profile.jsx:66-68 | the read file's data URL becomes the preview, nothing else changes |
| Profile.ProfilePage.ProfileSubmit | FE/src/client/pages/Profile/Profile.jsx:122-159 | an invalid form sends nothing and shows exactly its errors; a valid one sends name, e-mail, phone and the picked avatar; an answer merges the answered user and shows the success text, a throw shows the general error |
| Profile.ProfilePage.ApplyProfileReply | FE/src/client/pages/Profile/Profile.jsx:129-159 | once the form has passed: an answer overlays the answered user on the stored one and shows the success text with the error list untouched; a throw keeps the user, clears the success text and shows only the general error (its own text or the fallback); loading ends either way; the form, the picked file and the preview are unchanged |
| Profile.ProfilePage.PasswordSubmit | FE/src/client/pages/Profile/Profile.jsx:161-190 | an invalid form sends nothing and shows exactly its errors; a valid one sends the current and new passwords; an answer empties exactly the three password fields and shows the success text, a throw shows the general error |
| Profile.PasswordResetKeepsProfileFields | FE/src/client/pages/Profile/Profile.jsx:177-182 | resetting the password fields keeps the name, e-mail and phone and empties exactly the three password fields |
| Sidebar.IsActive | FE/src/admin/layouts/Sidebar.jsx:70-75 | an active entry's path is a prefix of the current path; an exact entry is active exactly on its own path |
| Sidebar.ExactImpliesPrefix | FE/src/admin/layouts/Sidebar.jsx:70-75 | an entry active by exact match is also active by prefix |
| Sidebar.HasActiveChild | FE/src/admin/layouts/Sidebar.jsx:80 | a group is highlighted exactly when one of its links is active |
| Sidebar.DashboardOnlyOnItsOwnPath | FE/src/admin/layouts/Sidebar.jsx:8-15 | the dashboard, marked exact, is highlighted on `/admin` and on no other admin path |
| Sidebar.ChildTag | FE/src/admin/layouts/Sidebar.jsx:16-59 | every link of a group carries one of that group's two-letter tags after `/admin/` |
| Sidebar.ActiveGroupTag | FE/src/admin/layouts/Sidebar.jsx:78-80 | a highlighted group means the path carries one of that group's tags |
| Sidebar.AtMostOneEntryActive | FE/src/admin/layouts/Sidebar.jsx:8-59 | whatever the path, no two top-level entries of the menu are highlighted together |
| Sidebar.Toggled | FE/src/admin/layouts/Sidebar.jsx:63-68 | the toggled group flips, every other group keeps its state, and the key is added |
| Sidebar.ToggleTwiceRestores | FE/src/admin/layouts/Sidebar.jsx:63-68 | toggling a group twice restores how every group reads |
| Sidebar.SidebarState.constructor | FE/src/admin/layouts/Sidebar.jsx:61 | every group starts collapsed |
| Sidebar.SidebarState.ToggleExpanded | FE/src/admin/layouts/Sidebar.jsx:63-68 | only the given group changes, and it flips |

## Left out

- The backend's database and the HTTP layer are left out. `find`, `findOne`, `save` and `updateOne` act on a map from order ids to orders, held in a class together with the id counter. Whether a query succeeds is a parameter, and the service wrappers of the frontend become reply parameters.
- OrderController.SetStatus: a request without a status writes nothing because Mongoose leaves an `undefined` field out of the update; the model takes that behaviour of the driver as given.
- Mongo ObjectIds and creation times are plain values supplied by the caller. The clock, `Math.random` and the timers (the debounce, the one-second mock loads, the simulated driver movement) are outside the model: the model has the effect of a timer firing as a method, not the timer itself.
- The Leaflet maps are left out: the order-tracking map, the map picker and their drawing. Only the data they produce or read is modelled: a picked address with its coordinates, and whether the tracking map is shown.
- Coordinates are `real`, but nothing is computed on them. Floating-point arithmetic is left out. Prices are whole VND, ratings are kept in tenths, and discounted amounts are kept 100 times larger as integers. The model states nothing about the JavaScript double results or their rounding by `toLocaleString`.
- `toLowerCase`, the Vietnamese accent stripping, the collation of `localeCompare` and `encodeURIComponent` are function parameters. Their Unicode behaviour is not modelled.
- Login.ValidateForm, Register.ValidateForm, Profile.ValidatePasswordForm, SearchBox.KeywordNeedsTwoCharacters and SearchBox.HighlightMatch count characters as Unicode scalar values, where JavaScript's `length` and `substring` count UTF-16 code units. A character outside the Basic Multilingual Plane (an emoji, say) counts once in the model and twice in the source, so a password of three such characters is refused by the model and accepted by the source.
- `Number(...)` is modelled on digit strings only, with the empty string reading as 0; every other text reads as NaN. `parseInt` is modelled on leading blanks, one sign and decimal digits. Hexadecimal prefixes, exponents and fractional text are not modelled.
- An object key that collides with an `Object.prototype` member (such as `toString` used as a status name) is not modelled. Objects are maps from string keys.
- `FileReader`, `localStorage` and `window.location` are left out. What the browser reads back (the avatar's data URL, the stored user, the origin) is a parameter.
- Toasts, `console` output, CSS classes beyond the status and badge styles, and the rendered markup are left out.
- Cart.CartPage.QuantityChange: after an emptied number box, `parseInt` gives NaN, the guard lets it through and the update is sent; the model states this. If the server accepts, the source stores NaN as that line's quantity and total and as the cart total and header count. The model's integers cannot hold NaN, so the lines of that product, the totals and the page's validity after such a call are left unstated.
- The redirect of the order form to the cart when nothing was selected (FE/src/client/pages/Order/Order.jsx:25-29 and 106-120) is navigation and rendering and is not modelled; the form's methods do not depend on it.
- SearchBox.SearchBoxState.KeyDown requires `Valid()`, an index inside the current list. An index left stale after a reply shrinks the list is therefore not modelled.
- SearchBox.SearchBoxState.DebounceFired promises `Valid()` afterwards only when no suggestion was selected. When one was, a reply may shrink the list below the kept index, as the source allows.
- Sidebar.ToggleTwiceRestores restores the expanded-groups object itself only when it already had an entry for the group. Otherwise the object now holds `false` for the group, which reads the same as the missing entry.
- Profile.ValidateProfileForm tests `Blank(x)` where the source tests `x.trim()` for emptiness. The two are equivalent, which `Common.TrimProperties` proves.
- CategoryPage.Subtree requires a ranking of ids under which every category in the whole list ranks below its parent. The members built on it inherit that requirement. The source's walk needs less: it terminates as long as the categories below the starting one have no cycle, and a cycle elsewhere in the list does not affect it. Lists with such a cycle elsewhere are outside the model, and so is a cycle below the starting category, on which the walk does not terminate.

## Findings

| source | as written | input that shows it | evidently intended | confidence | as-written member | corrected member |
|---|---|---|---|---|---|---|
| FE/src/client/pages/Products/Product.jsx:307-310 | changing the number of products per page keeps the current page number | 10 matching products, page 2 at 6 per page, then 20 per page chosen: page 2 is empty and, with a single page, no page buttons are drawn to leave it | go back to page 1, as the category listing does when the page size changes | not executed | ProductsPage.ProductListing.ItemsPerPageChangeAsWritten | ProductsPage.ProductListing.ItemsPerPageChange |
