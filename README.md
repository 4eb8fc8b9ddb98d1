# baby_shop catalog import and shop handlers, modelled in Dafny

baby_shop is a small children's-goods shop. An importer (`importer.js`) reads a supplier's
XML feed and writes three PostgreSQL tables: `producers`, `brands` and `products`. An
Express server (`server.js`) serves a paginated product listing and lets anyone register.
Authenticated customers can also fill a cart and check it out into an order.

This project models both parts. The database tables become values, the handlers become
functions from the tables before a request to the response and the tables after it, and
classes run those handlers step by step against tables they hold.

- `wrappers.dfy` (`Wrappers`): `Option`, JavaScript's `null` next to a present value.
- `feed.dfy` (`Feed`): the feed as xml2js delivers it (`explicitArray: true`) and everything
  the importer computes from it without the database:
  - `getValue` and the TypeError it throws on an element object without text;
  - `String.prototype.trim`;
  - `parseInt` without a radix, and the VAT string `"23%"`;
  - the space-joined image links;
  - the lookup of the "Producent odpowiedzialny" attribute;
  - one loop iteration's decoded values.
- `catalog.dfy` (`Catalog`): the import.
  - Tables are maps keyed by their UNIQUE natural key (producer name, brand name, SKU). Ids
    come from serial sequences that start at 1.
  - An `INSERT ... ON CONFLICT` draws a sequence value even when it updates, while
    `getOrCreateId` draws one only when it inserts.
  - The import is specified as `Import(db, doc)`. The feed alone decides the list of writes
    and whether the run reaches its end (`PlanProducers`, `PlanProducts`). An exception
    anywhere in a loop body ends the run in the catch block, and the writes before it
    persist.
  - `CatalogStore` runs the same loops imperatively, one statement after another.
- `shop.dfy` (`Shop`): the handlers that write.
  - The handlers are `POST /api/cart`, `DELETE /api/cart/:productId`, `POST /api/orders`
    and `POST /api/auth/register`.
  - The tables are `cart_items`, `orders`, `order_items`, `customers` and product prices.
  - The invariant `Consistent` is kept by every handler. It covers unique cart keys, positive
    quantities, distinct ids drawn from their sequences, distinct e-mails, and every
    order's total equal to the sum over its items.
  - `ShopStore` runs the handlers against tables it holds.
- `listing.dfy` (`Listing`): the pagination arithmetic of `GET /api/products`, and the page
  of rows that `LIMIT`/`OFFSET` returns.

Request values arrive as `Input`:
- `Absent` stands for a missing or falsy value.
- `Int(n)` is a number.
- `Malformed(belowOne)` is a truthy value that an integer column refuses, such as `0.5`,
  `" "` or `[]`. `belowOne` is what JavaScript's `value < 1` gives for it. A quantity for
  which it holds is refused with 400 before the database is reached. Any other `Malformed`
  value reaches the insert or delete, which fails, and the handler answers 500.

Other modelling choices:
- The authenticated customer id is a parameter.
- The bcrypt hash of the password is a parameter.
- Prices are integers in minor units.
- xml2js gives an array only for an element that occurs. A feed without the producer list
  or without `Produkt` therefore has `None` there, and the import throws before any write.
- A producer without an `address` or `contact` element is `None` there, and its iteration
  throws on `[0]`. An empty element is an `Address` or `Contact` whose fields are all missing,
  so its columns are written as null.

## Model

| member | source | states |
|---|---|---|
| `Feed.Trim` | importer.js:25-27 | the result is `s` with leading and trailing JavaScript white space removed, and neither end of it is white space |
| `Feed.TrimmedUnique` | importer.js:25-27 | at most one string is the trimmed form of `s`, so `Trim` is fully determined by its contract |
| `Feed.TrimIdempotent` | importer.js:25-27 | trimming a trimmed value changes nothing |
| `Feed.GetValue` | importer.js:21-30 | no truthy first entry (missing field, empty array, empty string) gives the default; a string entry gives its trimmed text; an element object gives its trimmed `_`, or a TypeError exactly when `_` is missing or empty (`Throws`) |
| `Feed.GetValueOr` | importer.js:21-30 | with a string default the result is never null: the default when nothing is present, the same error cases and the same text as `getValue` otherwise |
| `Feed.ParseIntFormat` | importer.js:128 | `parseInt` reads every decimal rendering of an integer back as that integer |
| `Feed.VatOfPercent` | importer.js:127-128 | a VAT string `"<n>%"` is stored as the integer n |
| `Feed.MissingNumericDefaults` | importer.js:127-163 | a missing VAT (default `"0%"`) and a missing stock (default `"0"`) are both stored as 0 |
| `Feed.SplitJoin` | importer.js:123-125 | splitting the stored `image_urls` at spaces gives back the link list when no link holds a space |
| `Feed.FindProducerTag` | importer.js:113 | `find` returns nothing exactly when no entry is an element whose `name` attribute is "Producent odpowiedzialny", else the index of the first such entry |
| `Feed.ResponsibleProducer` | importer.js:111-117 | null when the product has no `a` list or no producer tag; otherwise a TypeError exactly when the first producer tag has no text, and its trimmed text when it has |
| `Feed.ProducerStepOf` | importer.js:77-100 | an entry is skipped exactly when its name is null or empty; it throws exactly when its name throws, or when it has a name and its address or contact is missing or one of their six fields throws; an upserted producer carries the non-empty name and the six `getValue` results |
| `Feed.ProductRefsOf` | importer.js:108-117 | reading a product's references throws exactly when its brand or its producer tag throws; otherwise they are the brand's `getValue` and the responsible producer's name |
| `Feed.ProductValuesOf` | importer.js:123-172 | building the values throws exactly when one of the thirteen fields read by `getValue` throws; otherwise the SKU, name, EAN, description and category are their `getValue`, the price, suggested price, three dimensions and weight are their `getValue` with default "0" (so "0" when missing), the VAT is `parseInt` of the VAT string with its `%` removed (0 when missing), the stock is `parseInt` of its text (0 when missing), and the image URLs are the space-joined links |
| `Catalog.GetOrCreateIdContract` | importer.js:33-43 | a missing or empty name gives null and changes nothing; an existing name gives its id and changes nothing; a new name gets a fresh id distinct from all others; a second call changes nothing; ids stay unique |
| `Catalog.UpsertProducerContract` | importer.js:80-101 | the producer row for the name holds the new columns and keeps its id when it existed, gets a fresh id otherwise, and no other row changes |
| `Catalog.UpsertProductContract` | importer.js:130-174 | the product row for the SKU holds the new columns and keeps its id when it existed, gets a fresh id otherwise, no other row changes, and repeating the upsert changes no row |
| `Catalog.RunProducersEffect` | importer.js:76-103 | after the producer loop every name written holds the columns of its last entry, existing producers keep their ids, untouched rows are unchanged, and `producerMap` maps every name written to its row's id |
| `Catalog.ProducersIdempotent` | importer.js:80-90 | running the producer writes again over their own result changes no producer row and yields the same `producerMap` |
| `Catalog.RunProductsBrands` | importer.js:107-119 | the product loop adds exactly the non-empty brand names it met to `brands` and changes no existing brand id |
| `Catalog.RunProductsRows` | importer.js:107-175 | the product loop adds exactly the SKUs it wrote, keeps every existing product's id, and leaves the other products unchanged |
| `Catalog.RunProductsEffect` | importer.js:107-175 | every SKU written holds the columns of its last entry, with the brand id of its brand and the producer id of `producerMap` |
| `Catalog.ProductsIdempotent` | importer.js:137-152 | running the product writes again over their own result changes no brand and no product row |
| `Catalog.ImportIdempotent` | importer.js:74-179 | importing the same feed twice leaves every table as importing it once, and the second run ends where the first did |
| `Catalog.RunProducersValid` | importer.js:76-103 | the producer loop keeps ids below their sequence and unique |
| `Catalog.StepProductValid` | importer.js:119-174 | one product iteration keeps ids below their sequence and unique |
| `Catalog.RunProductsValid` | importer.js:107-175 | the product loop keeps ids below their sequence and unique |
| `Catalog.ImportValid` | importer.js:74-179 | a whole import keeps ids below their sequence and unique, whether or not it completes |
| `Catalog.ImportRestPlan` | importer.js:107-175 | running the product loop entry by entry gives the same tables and outcome as running its whole plan of writes |
| `Catalog.CatalogStore.GetOrCreateBrandId` | importer.js:33-43 | the store's tables become `EnsureBrand` of the old ones and the id answered is the brand's id in them, null for no name |
| `Catalog.CatalogStore.UpsertProducer` | importer.js:80-102 | the tables become the producer upsert of the old ones and the id returned is the row's id |
| `Catalog.CatalogStore.UpsertProduct` | importer.js:130-174 | the insert is accepted exactly when the SKU is present and VAT and stock are numbers; then the tables become the product upsert, otherwise they are unchanged |
| `Catalog.CatalogStore.ImportProducers` | importer.js:75-103 | the loop leaves the tables and `producerMap` that `RunProducers` gives for the feed's producer plan, and reports whether it reached the end |
| `Catalog.CatalogStore.ApplyProduct` | importer.js:119-174 | one iteration writes the brand, then the product unless its values throw or are refused, and reports whether the loop goes on |
| `Catalog.CatalogStore.ImportProduct` | importer.js:108-174 | iteration i leaves the tables from which the remaining entries lead to the same outcome, or the final tables when it stops the run |
| `Catalog.CatalogStore.ImportProducts` | importer.js:107-175 | the loop leaves the tables `RunProducts` gives for the feed's product plan, and reports whether it reached the end |
| `Catalog.Import` | importer.js:68-179 | a missing producer or product list throws on `length` before any write and ends the run in the catch block with the tables unchanged; a producer loop that stops ends the run unfinished |
| `Catalog.CatalogStore.ImportData` | importer.js:66-179 | the whole run leaves exactly the tables `Import` specifies, and `completed` is false exactly when the catch block was reached |
| `Shop.UpsertCart` | server.js:197-204 | the upsert keeps the length when the key has a row and adds one row otherwise, keeps every existing row's key in place, and appends the new key last |
| `Shop.UpsertCartSameKey` | server.js:197-204 | after the upsert the key holds its old quantity (0 when new) plus the added quantity |
| `Shop.UpsertCartOtherKey` | server.js:197-204 | the upsert leaves every other key's quantity unchanged |
| `Shop.UpsertCartRows` | server.js:197-204 | every row after the upsert was there before or is the saved row |
| `Shop.UpsertCartUnique` | server.js:197-202 | the upsert keeps the `(customer_id, product_id)` key unique |
| `Shop.UpsertCartPositive` | server.js:194-202 | adding a quantity of at least 1 keeps every cart quantity at least 1 |
| `Shop.AddToCart` | server.js:190-209 | 400 exactly when the product id is missing or 0, or the quantity is missing or below 1 (a non-integer below 1 included); 500 exactly when a remaining value is not an integer; a valid request always saves the row; only a saved row changes the tables; the saved row has the old quantity plus the added one, and every other key is unchanged |
| `Shop.AddToCartConsistent` | server.js:190-209 | adding to the cart keeps the tables consistent |
| `Shop.RemoveRows` | server.js:216-217 | the rows left are exactly the old rows with another key, the key is gone, every other key is unchanged, and unique keys stay unique |
| `Shop.RemoveFromCart` | server.js:212-223 | 204 exactly when the product id is an integer, whether or not a row existed; the key is then gone and the rest of the cart is unchanged; otherwise nothing changes |
| `Shop.RemoveFromCartConsistent` | server.js:212-223 | removing from the cart keeps the tables consistent |
| `Shop.RemoveUndoesAdd` | server.js:197-218 | after removing a product, the cart is the same whether or not it was added just before |
| `Shop.CustomerRows` | server.js:265-266 | the rows selected are exactly the customer's cart rows |
| `Shop.OtherCustomers` | server.js:270 | the rows left are exactly the other customers' rows, with unique keys and positive quantities kept |
| `Shop.ItemsOf` | server.js:263-268 | every inserted item belongs to the new order |
| `Shop.ItemsOfRows` | server.js:263-268 | one item per cart row in order, with its product and quantity, priced exactly when the product exists, at that product's price |
| `Shop.ReduceSum` | server.js:251-253 | the `reduce` from an accumulator adds the sum of price × quantity over the lines |
| `Shop.SumLinesPermutation` | server.js:238-253 | the sum over the lines does not depend on their order |
| `Shop.TotalOrderFree` | server.js:238-253 | the order total is the same in whatever order the cart query returns the rows |
| `Shop.JoinedItemsTotal` | server.js:238-268 | the total of the joined cart lines equals the sum over the inserted items, where rows without a product have a null price |
| `Shop.Checkout` | server.js:226-283 | no shipping address gives 400 and changes nothing; an order is created exactly when the address is given and the cart query returns rows; an empty cart answers 500 with its message; every other outcome leaves the tables unchanged; no outcome touches customers or prices |
| `Shop.CheckoutConsistent` | server.js:226-283 | checkout keeps the tables consistent, including the new order's total being the sum over its items |
| `Shop.CheckoutCreatesOrder` | server.js:255-274 | only orders, order items, the cart and the order sequence change, the sequence by one; a new order is the last row, pending, with the next id and the cart's sum; its items are the customer's rows, each with its product's current price or null; only those rows leave the cart |
| `Shop.CheckoutPricesItems` | server.js:263-268 | every new item has a price exactly when every row of the customer's cart names an existing product |
| `Shop.CheckoutTwice` | server.js:247-249 | a second checkout right after a successful one finds an empty cart, fails with the empty-cart error and changes nothing |
| `Shop.Register` | server.js:116-138 | 400 exactly when the e-mail or password is missing or empty; 409 exactly when the e-mail is taken; both fields and a new e-mail always register; 400 changes nothing, 409 only uses up a sequence value, and no outcome touches the cart, orders, items or prices; only a registration adds a customer, the next id with the given e-mail and hash |
| `Shop.RegisterConsistent` | server.js:116-138 | registration keeps customer ids and e-mails distinct |
| `Shop.RegisterTwice` | server.js:129-134 | registering the same e-mail again gives 409 and adds nobody |
| `Shop.ShopStore.PostCart` | server.js:190-209 | the store answers and changes exactly as `AddToCart` and stays consistent |
| `Shop.ShopStore.DeleteCartItem` | server.js:212-223 | the store answers and changes exactly as `RemoveFromCart` and stays consistent |
| `Shop.ShopStore.PostOrder` | server.js:226-283 | the transaction's statements answer and change the store exactly as `Checkout` and keep it consistent |
| `Shop.ShopStore.PostRegister` | server.js:116-138 | the store answers and changes exactly as `Register` and stays consistent |
| `Listing.DefaultListing` | server.js:40-51 | without `page` and `limit` the listing returns the first twelve products and counts pages of twelve |
| `Listing.TotalPages` | server.js:51 | the number of pages is the least count of `limit`-row pages that holds every product |
| `Listing.PageRows` | server.js:41-67 | a negative limit or offset is refused; an offset past the end gives no rows; otherwise up to `limit` rows starting at `(page - 1) * limit`, in id order |
| `Listing.PagesInRange` | server.js:41-65 | with a positive limit, a page holds rows exactly when it is between 1 and `totalPages` |
| `Listing.RowOnPage` | server.js:41-65 | each product is row `k % limit` of page `k / limit + 1`, which is within `totalPages`, and no other page reaches it |

## Left out

- The HTTP layer is not modelled: Express routing, JSON bodies, status codes beyond the
  `Response` kinds, and error logging.
- JWT authentication is not modelled; the customer id is a parameter.
- Login and `GET /api/account/profile` are not modelled; they only read.
- bcrypt is not modelled; the hash is a parameter of `Register`.
- The connection pool is not modelled.
- Concurrency is not modelled. Handlers run one at a time, so `FOR UPDATE` is not modelled.
- Network and file access are not modelled: the axios download, reading `sample.xml`, and
  xml2js parsing itself. The feed arrives as the decoded `Document`.
- `parseFloat` and floating-point arithmetic are not modelled.
  - The price, dimension and weight columns keep the string `parseFloat` would read.
  - Order totals are exact integers in minor units.
- The read-only queries are not modelled: `GET /api/products/:sku` and `GET /api/cart`.
  The category `ILIKE` filter of `GET /api/products` is not modelled either; the listing
  works on the rows the filter has already selected.
- `created_at` columns are not modelled, since they are set by the database clock.
- `getOrCreateId` is modelled for the only table it is called with, `brands`.
- Link elements that carry attributes are not modelled. xml2js turns them into objects,
  which `join` would write as `[object Object]`.
- Integer column widths and their overflow errors are not modelled.
- Sequence values drawn by statements that then fail are not modelled.
- Request values of JavaScript types other than integers are grouped as `Malformed`.
  - A numeric string such as `"5"` passes `quantity < 1` and is cast by PostgreSQL; the
    model does not tell it apart from the number it denotes.
  - `Malformed(belowOne)` keeps only the outcome of `value < 1`, not the value itself.
- `Listing.TotalPages` requires a positive limit. A limit of 0, or a non-numeric `page`
  or `limit`, gives `Infinity` or `NaN` in JavaScript and is not modelled.
- `Shop.RemoveFromCart` requires a product id, because Express only routes
  `/api/cart/:productId` when the segment is there.
- Assumptions about the schema, which is not part of this model:
  - `products.sku` is NOT NULL (a product without `Indeks` makes its insert fail);
  - `customers.email` is UNIQUE (the 409 path);
  - `cart_items` has primary key `(customer_id, product_id)`, as `ON CONFLICT` requires;
  - `cart_items.product_id` has no foreign key. A cart row for a missing product is
    therefore kept: it drops out of the checkout join but gets an order item with a null
    price.
- The empty-cart checkout answers 500 with the error's message, as the code does; it is not
  answered as a client error.
- Checkout totals come from the joined rows, while items come from all the customer's cart
  rows. `Shop.JoinedItemsTotal` shows the two sums agree.
