# E-commerce backend: route logic and schemas in Dafny

This project models the Express/Mongoose backend `backend-ecommerce`. The backend
keeps five collections: users, products, orders, invoices and reviews. Each one
has a router with a POST handler that validates a request body and inserts (for
reviews, upserts) a record. It also has a GET handler that builds a filter
document from optional query parameters, and a statistics endpoint that runs a
fixed aggregation pipeline. The Mongoose schemas add field constraints, enums,
defaults and the `trim`/`lowercase` setters.

How the model is laid out:

- **Store.** The document store is one class, `Store.Database`. It has a `seq`
  field per collection, kept in insertion order, and a counter that hands out
  fresh record ids. Its `Valid()` invariant collects what the handlers keep true:
  - every record satisfies its schema and ids are distinct;
  - emails are unique and lowercased;
  - every order total is the sum of its items;
  - there is at most one invoice per order, and each invoice copies an existing
    order's user and total;
  - `paidAt` is set exactly on paid invoices;
  - every rating is in [1, 5], with at most one review per (user, product).
- **Handlers.** Each POST handler is a method over the store, with
  `modifies db`. Its result is `Created(x) | BadRequest | NotFound | Conflict |
  ServerError`. `ServerError` is the `catch` branch: here, a record that the
  schema rejects at `Model.create`, or a populated user that is missing.
- **Schemas.** Each schema is a datatype with a `Valid` predicate and a `Cast`
  function. `Cast` applies the setters and defaults, validates, and returns
  `None` exactly when Mongoose would throw.
- **Filters.** Each filter builder is a method that adds keys one at a time, as
  the handler mutates `query`. It is proved to select exactly the records that
  the parameters describe.
- **Pipelines.** Each statistics pipeline is a pure function over a sequence of
  records. The review pipeline is also built stage by stage and interpreted.
- **Units.** Money is integer cents and ratings are reals. A timestamp is an
  `Instant` that carries its (year, month). The clock and the email validator
  are parameters.

Two behaviours of the code that a reader might not expect, and that the model
keeps:

- **Page and limit.** They are not forced to be at least 1. The user route's
  `Number(x) || d` replaces only 0 and NaN, so a negative number stays. The
  product route has no fallback at all.
- **Review comment.** A second review of the same product does not always
  replace the comment. A comment left out of the body is dropped from the
  update, so the stored comment stays.

## Model

| member | source | states |
|---|---|---|
| OrderRoutes.CreateOrder | routes/order.routes.js:14-50 | 400 exactly when userId is missing or items is absent, not an array or empty. 500 exactly when an item or the status fails the schema. On those errors the orders and the id counter are unchanged. On success exactly one order is appended. Its total is the server-side fold, whatever total the client sent. Its items keep the submitted length and order, with product, quantity and price copied. Its status is the one given, or "pending". Every other collection is unchanged |
| OrderRoutes.OrderTotal | routes/order.routes.js:25-29 | the `reduce` over the submitted items: Σ quantity×priceAtOrder, a missing quantity or price counting as 0. OrderTotalAppend and StoredTotal state its properties |
| OrderRoutes.StatusOrDefault | routes/order.routes.js:38 | a supplied status is passed on as sent; otherwise the default is "pending", which the schema's enum accepts as the pending status |
| OrderRoutes.OrderTotalAppend | routes/order.routes.js:25-29 | the order total of a concatenation is the sum of the two totals, so the fold adds item by item |
| OrderRoutes.StoredTotal | routes/order.routes.js:25-37 | once the mapped items pass validation, the computed total equals the subtotal of the stored items, Σ quantity×priceAtOrder |
| OrderRoutes.StoredItems | routes/order.routes.js:33-37 | item validation succeeds exactly when every item has a product, a quantity ≥ 1 and a price ≥ 0. The stored items then match the submitted ones index by index |
| OrderRoutes.MapItems | routes/order.routes.js:33-37 | the projection keeps the number of items |
| OrderRoutes.ListOrders | routes/order.routes.js:56-67 | returns every stored order, in store order |
| OrderRoutes.MonthlyStats | routes/order.routes.js:75-92 | the `$group` by (year, month) of createdAt, with `$sum: 1` and `$sum: "$totalAmount"`, then `$sort` by year and month. MonthlyStatsSpec states what it returns |
| OrderRoutes.MonthlyStatsSpec | routes/order.routes.js:75-92 | one row per (year, month) in which an order was created. Keys are strictly ascending. Each row's count and total are those of that month's orders. The counts add up to the number of orders and the totals to Σ totalAmount |
| OrderModel.ParseStatus | models/order.model.js:33-37 | an order status is accepted exactly when it is one of pending, paid, shipped or cancelled, and its name round-trips |
| OrderModel.ParseStatusName | models/order.model.js:33-37 | every status parses back from its name |
| OrderModel.CastItem | models/order.model.js:4-23 | an item is accepted exactly when product, quantity and priceAtOrder are present, quantity ≥ 1 and priceAtOrder ≥ 0. The stored item copies them |
| OrderModel.CastItems | models/order.model.js:32 | the item array is accepted exactly when every element is, and keeps its length |
| OrderModel.Cast | models/order.model.js:25-45 | an order is accepted exactly when its items and status are and totalAmount ≥ 0. The result is valid and carries the given id, user, items, status and creation time |
| OrderModel.CastStored | models/order.model.js:25-45 | a valid order passes validation unchanged |
| OrderModel.SubtotalNonNegative | models/order.model.js:11-42 | valid items have a non-negative subtotal, so the computed total always meets `min: 0` |
| OrderModel.Subtotal | routes/order.routes.js:25-29 | Σ quantity×priceAtOrder over stored items, the total the store invariant ties to each order. SubtotalNonNegative and StoredTotal state its properties |
| InvoiceRoutes.CreateInvoice | routes/invoice.routes.js:8-48 | checks run in this order: a missing orderId gives 400, an unknown order 404, an existing invoice 409, and a missing user or rejected payment method 500. On any error the invoices and the counter are unchanged. On success exactly one invoice is appended, and afterwards it is the only invoice of its order. It copies the order's id, user and total. Status is paid with paidAt = now exactly when markAsPaid, otherwise unpaid with no paidAt. The payment method is the one given, or "card". Every other collection is unchanged |
| InvoiceRoutes.MethodOrDefault | routes/invoice.routes.js:37 | a supplied payment method is passed on as sent; otherwise the default is "card", which the schema's enum accepts as the card method |
| InvoiceRoutes.IssueInvoice | routes/invoice.routes.js:30-38 | for an order with no invoice: 500 exactly when the populated user is missing or the payment method is not in the enum. On success exactly one invoice is appended, copying the order's id, user and total, paid with paidAt = now exactly when markAsPaid, with the given method or "card". It is then the only invoice of its order. Every other collection is unchanged |
| InvoiceRoutes.OnlyInvoiceOf | routes/invoice.routes.js:23-38 | an invoice appended for an order with no invoice is afterwards that order's only invoice |
| InvoiceRoutes.FindOrder | routes/invoice.routes.js:16-20 | finds a stored order with the id exactly when one exists |
| InvoiceRoutes.BuildInvoiceQuery | routes/invoice.routes.js:53-63 | the user key is present exactly when userId is, and the status key exactly when status is. The issuedAt key is present exactly when startDate or endDate is, and each bound is present exactly when its parameter is. The document matches exactly the invoices the parameters select |
| InvoiceRoutes.ListInvoices | routes/invoice.routes.js:65-69 | returns exactly the stored invoices that the parameters select, in store order |
| InvoiceRoutes.RevenueStats | routes/invoice.routes.js:82-100 | the `$match` of paid invoices, the `$group` by (year, month) of issuedAt with `$sum: 1` and `$sum: "$totalAmount"`, then `$sort` by year and month. RevenueStatsSpec states what it returns |
| InvoiceRoutes.RevenueStatsSpec | routes/invoice.routes.js:82-100 | one row per month in which a paid invoice was issued, strictly ascending. Each row counts and sums that month's paid invoices. The totals add up to the paid revenue |
| InvoiceRoutes.RevenueIgnoresUnpaid | routes/invoice.routes.js:83 | adding an invoice that is not paid leaves the revenue statistics unchanged |
| InvoiceRoutes.RevenueCountsPaid | routes/invoice.routes.js:83-91 | adding a paid invoice raises the revenue of its month by its total and leaves every other month alone |
| InvoiceModel.ParseStatus | models/invoice.model.js:20-24 | a status is accepted exactly when it is unpaid, paid or cancelled, and its name round-trips |
| InvoiceModel.ParseStatusName | models/invoice.model.js:20-24 | every invoice status is accepted under its own name |
| InvoiceModel.ParseMethod | models/invoice.model.js:32-36 | a payment method is accepted exactly when it is card, cash, paypal or bank_transfer, and its name round-trips |
| InvoiceModel.Cast | models/invoice.model.js:3-39 | an invoice is accepted exactly when totalAmount ≥ 0 and the status and payment method are in their enums. The status defaults to unpaid and issuedAt to now. The payment method defaults to card, and a null one is stored as none |
| ReviewRoutes.CreateReview | routes/review.routes.js:12-43 | 400, with the store unchanged, exactly when userId or productId is missing, the rating is null, or the rating is outside [1, 5]. Otherwise the reviews become the upsert of the pair. The counter moves only on an insert. The returned review is stored, is of the pair and has the new rating. Every other collection is unchanged |
| ReviewRoutes.FindPair | routes/review.routes.js:29-33 | finds the first review of the (user, product) pair, or none exactly when the pair has no review |
| ReviewRoutes.FindPairAt | routes/review.routes.js:29-33 | a review of the pair with none of the pair before it is the one found |
| ReviewRoutes.Update | routes/review.routes.js:31 | the updated review keeps its id and pair and takes the new rating. It takes the new comment when one is sent, otherwise it keeps the old one |
| ReviewRoutes.UpsertOnePair | routes/review.routes.js:29-33 | after the upsert the pair has a review with the latest rating (and comment, when sent), and pairs stay distinct, so it is the only one |
| ReviewRoutes.UpsertOthersUnchanged | routes/review.routes.js:29-33 | reviews of other pairs keep their place and content. At most one review is added, it is of the pair, and one is added exactly when the pair had none |
| ReviewRoutes.UpsertIdempotent | routes/review.routes.js:29-33 | sending the same review twice leaves the same store as sending it once |
| ReviewRoutes.Upsert | routes/review.routes.js:29-33 | `findOneAndUpdate` with `upsert: true`: the pair's first review is updated in place, or a new review is appended. UpsertOnePair, UpsertOthersUnchanged and UpsertIdempotent state its properties |
| ReviewRoutes.BuildReviewQuery | routes/review.routes.js:52-62 | the user and product keys are present exactly when their parameters are. The rating key is present exactly when minRating or maxRating is, and each bound exactly when its parameter is. The document matches exactly the reviews the parameters select |
| ReviewRoutes.ListReviews | routes/review.routes.js:64-68 | returns exactly the stored reviews that the parameters select, in store order |
| ReviewRoutes.BuildPipeline | routes/review.routes.js:97-116 | the pipeline has a match stage exactly when productId is given. Run on any reviews, it yields the rating statistics |
| ReviewRoutes.Apply | routes/review.routes.js:99-116 | one stage: `$match` keeps the reviews of the product, `$group` turns reviews into per-product rows, `$sort` orders rows by descending average |
| ReviewRoutes.Run | routes/review.routes.js:118 | `aggregate` runs the stages left to right. RunGroupSort and RunStats state what the handler's stages compute |
| ReviewRoutes.RatingStats | routes/review.routes.js:97-118 | the reference result: the reviews, of the product alone when one is given, grouped by product and sorted by descending average. RunStats ties the pipeline to it and RatingStatsSpec states what it holds |
| ReviewRoutes.RunGroupSort | routes/review.routes.js:103-116 | the group and sort stages compute the sorted per-product rows |
| ReviewRoutes.RunStats | routes/review.routes.js:97-118 | the assembled stages, with or without the match, compute the rating statistics |
| ReviewRoutes.ToRows | routes/review.routes.js:105-111 | one output row per group, in order |
| ReviewRoutes.FilterKeepsProduct | routes/review.routes.js:100 | the match keeps exactly the reviews of the product, and leaves any other product with no row |
| ReviewRoutes.RowOf | routes/review.routes.js:105-111 | a group describing a product gives that product's exact count, min, max and average, with min ≤ avg ≤ max |
| ReviewRoutes.GroupRows | routes/review.routes.js:105-111 | grouping gives one exact row per reviewed product, with distinct products |
| ReviewRoutes.StatsRowsExact | routes/review.routes.js:97-118 | every statistics row has its product's exact figures over all reviews, with min ≤ avg ≤ max, and is of the given product when one is given |
| ReviewRoutes.SortedRowsCover | routes/review.routes.js:103-116 | after grouping and sorting, every reviewed product has a row |
| ReviewRoutes.StatsRowsCover | routes/review.routes.js:97-118 | every reviewed product has a row (only the given one, when productId is supplied) |
| ReviewRoutes.RatingStatsSpec | routes/review.routes.js:97-118 | one row per product reviewed, or only the given product when productId is supplied. Each row has count ≥ 1 and the exact min, max and average ratings, with min ≤ avg ≤ max. Rows are distinct and ordered by non-increasing average |
| RatingGroups.CountForPositive | routes/review.routes.js:110 | a product's review count is positive exactly when it has a review |
| RatingGroups.MinForLeast | routes/review.routes.js:108 | `$min` is at most every rating of the product and is one of them |
| RatingGroups.MaxForGreatest | routes/review.routes.js:109 | `$max` is at least every rating of the product and is one of them |
| RatingGroups.SumForZero | routes/review.routes.js:107 | a product with no reviews sums to 0 |
| RatingGroups.StepLow | routes/review.routes.js:107-108 | one more rating keeps the sum at or above count × minimum |
| RatingGroups.StepHigh | routes/review.routes.js:107-109 | one more rating keeps the sum at or below count × maximum |
| RatingGroups.Between | routes/review.routes.js:107-109 | a sum between count × min and count × max has its mean between min and max |
| RatingGroups.IndexOf | routes/review.routes.js:106 | finds the group of a product exactly when there is one |
| RatingGroups.Merge | routes/review.routes.js:105-111 | folding one rating into a group keeps count × min ≤ sum ≤ count × max |
| RatingGroups.AddTo | routes/review.routes.js:105-111 | adding a review keeps every group bounded, keeps the existing groups' products, and leaves a group for its product |
| RatingGroups.Accumulate | routes/review.routes.js:105-111 | every group the fold produces is bounded |
| RatingGroups.Prepend | routes/review.routes.js:105-111 | one more review changes its own product's count, sum, min and max as `$sum`, `$min` and `$max` do, and no other product's |
| RatingGroups.OtherStill | routes/review.routes.js:105-111 | a review of another product leaves a group's description true |
| RatingGroups.AddNewTracks | routes/review.routes.js:105-111 | a review of a product with no group opens an exact group for it |
| RatingGroups.AddMergeTracks | routes/review.routes.js:105-111 | a review of a grouped product keeps every group exact |
| RatingGroups.AccumulateTracks | routes/review.routes.js:105-111 | the fold yields exactly one exact group per reviewed product |
| ProductRoutes.CreateProduct | routes/product.routes.js:11-36 | 400 exactly when name is falsy or price is null (price 0 passes). 500 exactly when the schema rejects the record. On success exactly one product is appended, with trimmed name, description and category, the given price, and a stock that is 0 when left out, null when sent as null and the given number otherwise. Every other collection is unchanged |
| ProductRoutes.PageNumber | routes/product.routes.js:49-65 | page is 1 when left out, otherwise `Number(page)` as it is, so 0 or a negative number is kept |
| ProductRoutes.LimitNumber | routes/product.routes.js:50-66 | limit is 10 when left out, otherwise `Number(limit)` as it is, so 0 or a negative number is kept |
| ProductRoutes.BuildProductQuery | routes/product.routes.js:53-63 | the category key is present exactly when category is, and the name key exactly when search is. The price key is present exactly when minPrice or maxPrice is, and each inclusive bound exactly when its parameter is. The document matches exactly the products the parameters select |
| ProductRoutes.ListProducts | routes/product.routes.js:42-86 | page and limit default to 1 and 10, and skip is (page-1)×limit. The response echoes page and limit. total counts all the selected products. data is the slice of the selections at skip, every element of it a selected stored product |
| ProductRoutes.Summarize | routes/product.routes.js:94-104 | the accumulated count is the number of products and the sum is the sum of the prices. The min and max are prices that occur and bound all the others |
| ProductRoutes.StepPrice | routes/product.routes.js:98-100 | one more price keeps the sum between count × min and count × max |
| ProductRoutes.BetweenInt | routes/product.routes.js:98-100 | an integer sum between count × min and count × max has its mean between them |
| ProductRoutes.BasicStats | routes/product.routes.js:94-106 | the empty object exactly when there are no products |
| ProductRoutes.BasicStatsSpec | routes/product.routes.js:94-106 | on a non-empty catalogue: count is the number of products, and min and max are prices that occur and bound them all. avg is the mean price, with min ≤ avg ≤ max |
| ProductModel.Cast | models/product.model.js:4-31 | a product is accepted exactly when its trimmed name is non-empty, price ≥ 0 and a given stock is ≥ 0 (a null stock passes `min: 0`). Name, description and category are trimmed. A stock left out is stored as 0, a null one as null, a given one as sent |
| ProductModel.CastStored | models/product.model.js:4-31 | a valid product passes validation unchanged |
| UserRoutes.CreateUser | routes/user.routes.js:12-46 | 400 exactly when firstname, lastname, email or password is falsy, and 409 exactly when the lowercased email is taken. 500 exactly when the schema rejects the record. On those errors the users and the counter are unchanged. On success exactly one user is appended, with trimmed names, a lowercased email, and the given role or customer. Every other collection is unchanged |
| UserRoutes.InsertUser | routes/user.routes.js:30-39 | the insert of a user that passed the schema, under a fresh id and with an email no stored user has: the user is appended, the counter moves by one, the store stays valid and every other collection is unchanged |
| UserRoutes.EmailTaken | routes/user.routes.js:24 | `User.findOne({ email })` finds a user: some stored user has the lowercased email. CreateUser's Conflict case is stated through it |
| UserRoutes.BuildUserQuery | routes/user.routes.js:56-68 | the role key is present exactly when role is, and the `$or` key exactly when search is. The document matches exactly the users whose role is the given one and whose first name, last name or email contains the search text, ignoring case |
| UserRoutes.OrDefault | routes/user.routes.js:70-71 | a page or limit that is absent, zero or not a number falls back to the default, and any other number is kept |
| UserRoutes.ListUsers | routes/user.routes.js:52-91 | page and limit fall back to 1 and 10, and skip is (page-1)×limit. The response echoes page and a non-zero limit. total counts all the selected users. data is the slice of the selections at skip, every element of it a selected stored user |
| UserRoutes.SpendRows | routes/user.routes.js:130-146 | one projected row per user, in order |
| UserRoutes.OrderStats | routes/user.routes.js:128-148 | the `$lookup` of each user's orders, the projection of count and Σ totalAmount, then `$sort` by totalSpent descending. OrderStatsSpec states what it returns |
| UserRoutes.OrderStatsSpec | routes/user.routes.js:128-148 | every user appears exactly once. ordersCount is the number of orders that reference the user, and totalSpent is the sum of their totals (0 when there are none). Rows are ordered by non-increasing totalSpent |
| UserRoutes.NewOrderSpend | routes/user.routes.js:130-146 | a new order changes the count and total of its own user's row alone |
| UserModel.ParseRole | models/user.model.js:24-28 | a role is accepted exactly when it is customer or admin, and its name round-trips |
| UserModel.Cast | models/user.model.js:5-33 | a user is accepted exactly when the trimmed names are non-empty, the email is non-empty and valid once lowercased, the password is at least 6 UTF-16 code units long (a character above U+FFFF counts twice), and the role is in its enum. Names are trimmed, the email is lowercased, and the role defaults to customer |
| UserModel.CastStored | models/user.model.js:5-33 | a valid user with a valid email passes validation unchanged |
| Pagination.Slice | routes/product.routes.js:70 | `skip(n).limit(m)` yields at most m records, namely `s[skip + k]` |
| Pagination.Window | routes/user.routes.js:75 | the page's records are `s[skip + k]`, at most `abs(limit)` of them (limit 0 meaning no limit), with their exact number |
| Pagination.Respond | routes/product.routes.js:67-79 | a server error exactly when the skip is negative. Otherwise the response echoes page and limit, total is the number of matches, and data is the window at skip, no longer than total or the limit |
| Pagination.MatchOnItsPage | routes/product.routes.js:67 | with limit ≥ 1, every match i lies on page i / limit + 1, at position i mod limit |
| Store.Database.constructor | server.js:1-44 | the store starts empty and valid |
| Store.BilledMoreOrders | routes/invoice.routes.js:30-33 | more orders keep every invoice drawn from an existing order |
| Store.StoreOkNextId | routes/order.routes.js:31 | handing out a fresh id keeps the store invariant |
| Store.AddOrderOk | routes/order.routes.js:31-40 | appending a valid order whose total is its subtotal keeps the store invariant |
| Store.AddInvoiceOk | routes/invoice.routes.js:23-38 | appending a valid invoice drawn from a stored order, for an order with no invoice yet, with paidAt set exactly when paid, keeps the store invariant |
| Store.InsertReviewOk | routes/review.routes.js:29-33 | inserting a review of a new pair with a rating in [1, 5] keeps the store invariant |
| Store.UpdateReviewOk | routes/review.routes.js:29-33 | updating a review in place, same id and pair, rating in [1, 5], keeps the store invariant |
| Store.AddUserOk | routes/user.routes.js:24-36 | appending a valid user with a new email keeps the store invariant |
| Store.AddProductOk | routes/product.routes.js:21-27 | appending a valid product keeps the store invariant |
| MonthGroups.Add | routes/order.routes.js:77-84 | adding one record keeps the month rows strictly ascending and positive |
| MonthGroups.Group | routes/order.routes.js:75-92 | the grouping's rows are strictly ascending by (year, month), each with count ≥ 1 |
| MonthGroups.AddLookup | routes/order.routes.js:82-83 | adding a record raises its month's count by 1 and total by its amount, and no other month |
| MonthGroups.AddSums | routes/order.routes.js:82-83 | adding a record raises the overall count by 1 and the overall total by its amount |
| MonthGroups.AbsentBelow | routes/order.routes.js:86-91 | a month before the first row has no row |
| MonthGroups.GroupLookup | routes/order.routes.js:75-92 | each month's count and total are those of the records of that month |
| MonthGroups.GroupSums | routes/order.routes.js:82-83 | the counts add up to the number of records and the totals to their sum |
| MonthGroups.LookupAt | routes/order.routes.js:86-91 | in ascending rows, looking up a row's month finds that row |
| MonthGroups.LookupPresent | routes/order.routes.js:77-84 | a month with a positive count has a row |
| MonthGroups.SumInAppend | routes/order.routes.js:82-83 | a month's count and sum over two runs of records add up |
| MonthGroups.GroupSpec | routes/order.routes.js:75-92 | rows are strictly ascending, one per month that has records, each with that month's exact count and sum. The counts and totals add up to those of all records |
| Sorting.Insert | routes/user.routes.js:147 | inserting into a list sorted descending keeps it sorted, and adds exactly the element |
| Sorting.SortDesc | routes/user.routes.js:147 | the sort yields a permutation of its input, sorted by non-increasing key |
| Sorting.InsertDistinct | routes/review.routes.js:115 | inserting an element with a new key keeps keys distinct |
| Sorting.SortDistinct | routes/review.routes.js:115 | sorting keeps distinct keys distinct |
| Sorting.SortMembers | routes/user.routes.js:147 | an element is in the sorted list exactly when it is in the input |
| Text.TrimStart | models/product.model.js:9 | drops exactly the leading whitespace |
| Text.TrimEnd | models/product.model.js:9 | drops exactly the trailing whitespace |
| Text.Trim | models/product.model.js:9 | the result has neither leading nor trailing whitespace |
| Text.TrimIsSlice | models/product.model.js:9 | the result is a contiguous slice of the input |
| Text.TrimTrimmed | models/product.model.js:9 | a trimmed string is its own trim |
| Text.TrimIdempotent | models/product.model.js:9 | trimming twice is trimming once |
| Text.LowerChar | models/user.model.js:13 | maps A-Z to a-z and leaves every other character alone |
| Text.Lower | models/user.model.js:13 | lowercases each character, keeping the length |
| Text.LowerIdempotent | models/user.model.js:13 | lowercasing twice is lowercasing once |
| Text.Utf16Length | models/user.model.js:19-23 | the length JavaScript gives a string, which `minlength` compares: between the number of characters and twice that |
| Text.Utf16LengthBmp | models/user.model.js:19-23 | for a string inside the Basic Multilingual Plane, the UTF-16 length is the number of characters |
| Common.Filter | routes/invoice.routes.js:65 | `find(query)` returns only matching records, drawn from the collection, and every matching record |
| Common.FilterAgrees | routes/invoice.routes.js:65 | two predicates that agree on every record select the same records |
| Common.FilterAppend | routes/invoice.routes.js:83 | filtering a concatenation is concatenating the filtered parts |
| Common.SumAllAppend | routes/user.routes.js:144 | the sum over a concatenation is the sum of the two sums |
| Common.SumAll | routes/user.routes.js:144 | a `$sum` of an amount over records, 0 for none. SumAllAppend states that it adds up record by record |

## Left out

- I/O and process plumbing: `server.js` start-up, `config/db.js`, the Express request and response objects, `console` logging and the error text of 500 responses. Status codes are constructors of `Response`.
- Concurrency: every handler runs alone. The `Promise.all` of find and count, and the race between the invoice check and its create, are not modelled.
- Routers that are not mounted: `server.js` mounts only the users and orders routers. The product, invoice and review routers are modelled as if they were mounted.
- The bulk import `POST /api/users/import` (routes/user.routes.js:97-119): it reads a file and calls `insertMany`, which is file I/O and store behaviour.
- `validator.isEmail` is a parameter of `UserModel.Cast` and `UserRoutes.CreateUser`.
- The clock: `new Date()` and the `timestamps` option are the parameter `now`.
- ObjectId casting: ids are natural numbers, and an id that is absent, null or empty is `None`. The ObjectId cast in the review stats is the identity.
- `populate` projections: only whether the populated user exists is modelled.
- Date parsing and time zones: a timestamp is an abstract `Instant` carrying its (year, month), ordered lexicographically.
- JS numbers:
  - Money is integer cents and ratings are reals, with no IEEE rounding.
  - `Number(...)` yields a number, nothing at all, or NaN.
  - A NaN minPrice, maxPrice, minRating or maxRating is not modelled.
- ProductRoutes.ListProducts: requires that page and limit are not NaN. Without the `|| 1` fallback, the source would build a NaN skip.
- Pagination.Window: assumes the store's cursor reading of `limit`, where 0 means no limit and a negative limit means its absolute value. A negative skip is the 500 branch.
- `search` becomes a case-insensitive substring test. Regex metacharacters are not interpreted.
- Case folding and trimming cover ASCII only: A-Z, and space, tab, line feed and carriage return as white space.
- Request shapes:
  - `markAsPaid` is taken by its truthiness as a `bool`.
  - A role or comment sent as null is not distinguished from one left out.
  - A product description or category sent as null is stored as no value, like one left out.
  - An item that is not an object is not modelled.
- The review schema file is not part of this model. The only constraints on reviews are the ones the review routes enforce: rating in [1, 5], one review per pair.
- Ties: rows with equal sort keys come out in the order the insertion sort gives. MongoDB does not fix that order.
