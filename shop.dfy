/**
  The request handlers of the shop that change the database (server.js): adding a product to
  the cart, removing it, checking the cart out into an order, and registering a customer.
  The tables are lists of rows; the handlers are stated first as pure functions from the
  tables before the request to the response and the tables after it, and `ShopStore` runs
  them against tables it holds. The authenticated customer id arrives as a parameter, and
  prices are integers in minor units.
 */
module Shop {
  import opened Wrappers

  // ---------------------------------------------------------------------------------------
  // Tables

  /** The primary key of `cart_items`. */
  datatype CartKey = CartKey(customer: nat, product: int)

  /** A `cart_items` row. */
  datatype CartRow = CartRow(customer: nat, product: int, quantity: int)

  datatype Status = Pending

  /** An `orders` row. */
  datatype OrderRow = OrderRow(id: nat, customer: nat, total: int, shippingAddress: string, status: Status)

  /** An `order_items` row; the price is null when no product has the row's id. */
  datatype OrderItem = OrderItem(order: nat, product: int, quantity: int, priceAtPurchase: Option<int>)

  /** A `customers` row; the password hash is the value bcrypt returned. */
  datatype CustomerRow = CustomerRow(id: nat, email: string, passwordHash: string,
                                     firstName: Option<string>, lastName: Option<string>)

  datatype Tables = Tables(
    customers: seq<CustomerRow>, customerSeq: nat,
    prices: map<int, int>,
    cart: seq<CartRow>,
    orders: seq<OrderRow>, orderSeq: nat,
    items: seq<OrderItem>)

  /** A value of the request: absent or falsy, an integer, or some other truthy value that
      the database refuses for an integer column (a fraction, a blank string, an array).
      `belowOne` is what JavaScript's `value < 1` gives for it. */
  datatype Input = Absent | Int(n: int) | Malformed(belowOne: bool)

  /** What a handler answers. */
  datatype Response =
    | CartItemSaved(row: CartRow)                  // 200 with the upserted row
    | NoContent                                    // 204
    | OrderCreated(orderId: nat, totalAmount: int) // 201
    | Registered(id: nat, email: string)           // 201
    | BadRequest                                   // 400
    | Conflict                                     // 409
    | ServerError(details: Option<string>)         // 500

  function Key(row: CartRow): CartKey {
    CartKey(row.customer, row.product)
  }

  /** No two cart rows share a primary key. */
  predicate UniqueKeys(cart: seq<CartRow>) {
    forall i, j :: 0 <= i < j < |cart| ==> Key(cart[i]) != Key(cart[j])
  }

  /** The quantity of the first row with the key, as the primary key index finds it. */
  function Lookup(cart: seq<CartRow>, k: CartKey): Option<int> {
    if cart == [] then None
    else if Key(cart[0]) == k then Some(cart[0].quantity)
    else Lookup(cart[1..], k)
  }

  /** The lookup finds nothing exactly when no row has the key, and what it finds is a row. */
  lemma {:induction false} LookupFinds(cart: seq<CartRow>, k: CartKey)
    ensures Lookup(cart, k).None? <==> forall i :: 0 <= i < |cart| ==> Key(cart[i]) != k
    ensures Lookup(cart, k).Some? ==> CartRow(k.customer, k.product, Lookup(cart, k).value) in cart
    decreases |cart|
  {
    if cart != [] && Key(cart[0]) != k {
      LookupFinds(cart[1..], k);
      assert forall i :: 1 <= i < |cart| ==> cart[i] == cart[1..][i - 1];
    }
  }

  /** The quantity of a key, 0 when it has no row. */
  function QuantityOf(cart: seq<CartRow>, k: CartKey): int {
    match Lookup(cart, k)
    case None => 0
    case Some(q) => q
  }

  // ---------------------------------------------------------------------------------------
  // POST /api/cart

  /** `INSERT INTO cart_items ... ON CONFLICT (customer_id, product_id) DO UPDATE SET
      quantity = cart_items.quantity + $3`: a new row goes at the end of the table. */
  function UpsertCart(cart: seq<CartRow>, k: CartKey, quantity: int): (r: seq<CartRow>)
    ensures |r| == if Lookup(cart, k).Some? then |cart| else |cart| + 1
    ensures forall i :: 0 <= i < |cart| ==> Key(r[i]) == Key(cart[i])
    ensures |r| > |cart| ==> Key(r[|cart|]) == k
  {
    if cart == [] then [CartRow(k.customer, k.product, quantity)]
    else if Key(cart[0]) == k then
      [cart[0].(quantity := cart[0].quantity + quantity)] + cart[1..]
    else
      [cart[0]] + UpsertCart(cart[1..], k, quantity)
  }

  /** After the upsert the key holds its old quantity plus the added one. */
  lemma {:induction false} UpsertCartSameKey(cart: seq<CartRow>, k: CartKey, quantity: int)
    ensures Lookup(UpsertCart(cart, k, quantity), k) == Some(QuantityOf(cart, k) + quantity)
    decreases |cart|
  {
    if cart != [] && Key(cart[0]) != k {
      UpsertCartSameKey(cart[1..], k, quantity);
    }
  }

  /** Every other key keeps its quantity. */
  lemma {:induction false} UpsertCartOtherKey(cart: seq<CartRow>, k: CartKey, quantity: int, k': CartKey)
    requires k' != k
    ensures Lookup(UpsertCart(cart, k, quantity), k') == Lookup(cart, k')
    decreases |cart|
  {
    if cart != [] && Key(cart[0]) != k {
      UpsertCartOtherKey(cart[1..], k, quantity, k');
    }
  }

  /** The only row that was not there before is the saved one. */
  lemma {:induction false} UpsertCartRows(cart: seq<CartRow>, k: CartKey, quantity: int)
    ensures forall row :: row in UpsertCart(cart, k, quantity) ==>
              row in cart || row == CartRow(k.customer, k.product, QuantityOf(cart, k) + quantity)
    decreases |cart|
  {
    if cart != [] {
      assert forall row :: row in cart[1..] ==> row in cart;
      if Key(cart[0]) != k {
        UpsertCartRows(cart[1..], k, quantity);
      }
    }
  }

  /** The guard of `POST /api/cart`: a falsy product id or quantity, or a quantity below 1. */
  predicate CartRequestRefused(productId: Input, quantity: Input) {
    || productId.Absent? || productId == Int(0)
    || quantity.Absent? || quantity == Int(0)
    || (quantity.Int? && quantity.n < 1)
    || (quantity.Malformed? && quantity.belowOne)
  }

  /** `POST /api/cart` (server.js:190-209). A missing or zero product id, a missing or zero
      quantity and a quantity below 1 are refused before the database is touched; a value the
      integer columns refuse makes the insert fail. */
  function AddToCart(t: Tables, customer: nat, productId: Input, quantity: Input): (r: (Response, Tables))
    ensures r.0 == BadRequest <==>
              || productId.Absent? || productId == Int(0) || quantity.Absent?
              || (quantity.Int? && quantity.n < 1) || (quantity.Malformed? && quantity.belowOne)
    ensures r.0 == ServerError(None) <==> r.0 != BadRequest && (productId.Malformed? || quantity.Malformed?)
    ensures productId.Int? && productId.n != 0 && quantity.Int? && quantity.n >= 1 ==> r.0.CartItemSaved?
    ensures !r.0.CartItemSaved? ==> r.1 == t
    ensures r.0.CartItemSaved? ==> productId.Int? && quantity.Int?
    ensures r.0.CartItemSaved? && productId.Int? && quantity.Int? ==>
              var k := CartKey(customer, productId.n);
              && r.0.row == CartRow(customer, productId.n, QuantityOf(t.cart, k) + quantity.n)
              && Lookup(r.1.cart, k) == Some(r.0.row.quantity)
              && (forall k' :: k' != k ==> Lookup(r.1.cart, k') == Lookup(t.cart, k'))
              && r.1 == t.(cart := r.1.cart)
  {
    if CartRequestRefused(productId, quantity) then
      (BadRequest, t)
    else if productId.Malformed? || quantity.Malformed? then
      (ServerError(None), t)
    else
      var k := CartKey(customer, productId.n);
      var saved := CartRow(customer, productId.n, QuantityOf(t.cart, k) + quantity.n);
      UpsertCartSameKey(t.cart, k, quantity.n);
      assert forall k' :: k' != k ==> Lookup(UpsertCart(t.cart, k, quantity.n), k') == Lookup(t.cart, k') by {
        forall k' | k' != k ensures Lookup(UpsertCart(t.cart, k, quantity.n), k') == Lookup(t.cart, k') {
          UpsertCartOtherKey(t.cart, k, quantity.n, k');
        }
      }
      (CartItemSaved(saved), t.(cart := UpsertCart(t.cart, k, quantity.n)))
  }

  // ---------------------------------------------------------------------------------------
  // DELETE /api/cart/:productId

  /** `DELETE FROM cart_items WHERE customer_id = $1 AND product_id = $2`. */
  function RemoveRows(cart: seq<CartRow>, k: CartKey): (r: seq<CartRow>)
    ensures forall row :: row in r <==> row in cart && Key(row) != k
    ensures Lookup(r, k).None?
    ensures forall k' :: k' != k ==> Lookup(r, k') == Lookup(cart, k')
    ensures UniqueKeys(cart) ==> UniqueKeys(r)
  {
    if cart == [] then []
    else
      var rest := RemoveRows(cart[1..], k);
      assert forall row :: row in cart <==> row == cart[0] || row in cart[1..];
      if Key(cart[0]) == k then rest
      else
        var r := [cart[0]] + rest;
        assert r[1..] == rest;
        assert UniqueKeys(cart) ==> forall row :: row in cart[1..] ==> Key(row) != Key(cart[0]) by {
          if UniqueKeys(cart) {
            forall row | row in cart[1..] ensures Key(row) != Key(cart[0]) {
              var j :| 0 <= j < |cart[1..]| && cart[1..][j] == row;
              assert cart[j + 1] == row;
            }
          }
        }
        r
  }

  /** `DELETE /api/cart/:productId` (server.js:212-223): 204 whether or not the row was
      there; a path segment that is no integer fails the statement. */
  function RemoveFromCart(t: Tables, customer: nat, productId: Input): (r: (Response, Tables))
    requires !productId.Absent?
    ensures r.0 == NoContent <==> productId.Int?
    ensures r.0 != NoContent ==> r.1 == t
    ensures r.0 == NoContent && productId.Int? ==>
              var k := CartKey(customer, productId.n);
              && Lookup(r.1.cart, k).None?
              && (forall k' :: k' != k ==> Lookup(r.1.cart, k') == Lookup(t.cart, k'))
              && r.1 == t.(cart := r.1.cart)
  {
    match productId
    case Int(p) => (NoContent, t.(cart := RemoveRows(t.cart, CartKey(customer, p))))
    case Malformed(_) => (ServerError(None), t)
  }

  // ---------------------------------------------------------------------------------------
  // POST /api/orders

  /** A row of the checkout's cart query: a cart row joined with its product's price. */
  datatype CartLine = CartLine(product: int, quantity: int, price: int)

  /** `... FROM cart_items WHERE customer_id = $1`: the customer's rows in table order. */
  function CustomerRows(cart: seq<CartRow>, customer: nat): (r: seq<CartRow>)
    ensures forall row :: row in r <==> row in cart && row.customer == customer
  {
    if cart == [] then []
    else
      assert forall row :: row in cart <==> row == cart[0] || row in cart[1..];
      (if cart[0].customer == customer then [cart[0]] else []) + CustomerRows(cart[1..], customer)
  }

  /** `DELETE FROM cart_items WHERE customer_id = $1`: everybody else's rows. */
  function OtherCustomers(cart: seq<CartRow>, customer: nat): (r: seq<CartRow>)
    ensures forall row :: row in r <==> row in cart && row.customer != customer
    ensures UniqueKeys(cart) ==> UniqueKeys(r)
    ensures (forall row :: row in cart ==> row.quantity >= 1) ==> forall row :: row in r ==> row.quantity >= 1
  {
    if cart == [] then []
    else
      var rest := OtherCustomers(cart[1..], customer);
      assert forall row :: row in cart <==> row == cart[0] || row in cart[1..];
      if cart[0].customer == customer then rest
      else
        var r := [cart[0]] + rest;
        assert r[1..] == rest;
        assert UniqueKeys(cart) ==> forall row :: row in cart[1..] ==> Key(row) != Key(cart[0]) by {
          if UniqueKeys(cart) {
            forall row | row in cart[1..] ensures Key(row) != Key(cart[0]) {
              var j :| 0 <= j < |cart[1..]| && cart[1..][j] == row;
              assert cart[j + 1] == row;
            }
          }
        }
        r
  }

  /** `JOIN products p ON ci.product_id = p.id`: the rows whose product exists, with its
      price. */
  function Joined(rows: seq<CartRow>, prices: map<int, int>): seq<CartLine> {
    if rows == [] then []
    else
      (if rows[0].product in prices then [CartLine(rows[0].product, rows[0].quantity, prices[rows[0].product])] else [])
      + Joined(rows[1..], prices)
  }

  /** The checkout's cart query (server.js:238-245). */
  function CartLines(t: Tables, customer: nat): seq<CartLine> {
    Joined(CustomerRows(t.cart, customer), t.prices)
  }

  /** `INSERT INTO order_items ... SELECT $1, product_id, quantity, (SELECT price FROM
      products WHERE id = product_id) FROM cart_items WHERE customer_id = $2`. */
  function ItemsOf(order: nat, rows: seq<CartRow>, prices: map<int, int>): (r: seq<OrderItem>)
    ensures forall item :: item in r ==> item.order == order
  {
    if rows == [] then []
    else
      [OrderItem(order, rows[0].product, rows[0].quantity,
                 if rows[0].product in prices then Some(prices[rows[0].product]) else None)]
      + ItemsOf(order, rows[1..], prices)
  }

  /** `cartItems.reduce((sum, item) => sum + item.price * item.quantity, acc)`. */
  function Reduce(acc: int, lines: seq<CartLine>): int
    decreases lines
  {
    if lines == [] then acc else Reduce(acc + lines[0].price * lines[0].quantity, lines[1..])
  }

  /** The order total (server.js:251-253). */
  function Total(lines: seq<CartLine>): int {
    Reduce(0, lines)
  }

  /** Reference sum of price × quantity over the lines. */
  function SumLines(lines: seq<CartLine>): int {
    if lines == [] then 0 else lines[0].price * lines[0].quantity + SumLines(lines[1..])
  }

  /** Σ price_at_purchase × quantity over an order's items, skipping null prices as SQL's
      `SUM` does. */
  function ItemsTotal(items: seq<OrderItem>, order: nat): int {
    if items == [] then 0
    else
      (if items[0].order == order && items[0].priceAtPurchase.Some?
       then items[0].priceAtPurchase.value * items[0].quantity else 0)
      + ItemsTotal(items[1..], order)
  }

  const EmptyCartMessage := "Cannot create order from an empty cart."

  /** `POST /api/orders` (server.js:226-283) as one transaction: no address is refused before
      it begins; an empty cart throws and rolls back; otherwise the order, its items and the
      cleared cart commit together. */
  function Checkout(t: Tables, customer: nat, address: Option<string>): (r: (Response, Tables))
    ensures address.None? || address.value == "" ==> r == (BadRequest, t)
    ensures !r.0.OrderCreated? ==> r.1 == t
    ensures r.0.OrderCreated? <==> address.Some? && address.value != "" && CartLines(t, customer) != []
    ensures address.Some? && address.value != "" && CartLines(t, customer) == [] ==>
              r == (ServerError(Some(EmptyCartMessage)), t)
    ensures r.1 == t.(orders := r.1.orders, orderSeq := r.1.orderSeq, items := r.1.items, cart := r.1.cart)
  {
    if address.None? || address.value == "" then (BadRequest, t)
    else
      var lines := CartLines(t, customer);
      if lines == [] then (ServerError(Some(EmptyCartMessage)), t)
      else
        var total := Total(lines);
        var id := t.orderSeq;
        var order := OrderRow(id, customer, total, address.value, Pending);
        (OrderCreated(id, total),
         t.(orders := t.orders + [order], orderSeq := id + 1,
            items := t.items + ItemsOf(id, CustomerRows(t.cart, customer), t.prices),
            cart := OtherCustomers(t.cart, customer)))
  }

  // ---------------------------------------------------------------------------------------
  // POST /api/auth/register

  predicate EmailTaken(customers: seq<CustomerRow>, email: string) {
    exists i :: 0 <= i < |customers| && customers[i].email == email
  }

  /** The guard of the registration: `!email || !password`. */
  predicate MissingCredentials(email: Option<string>, password: Option<string>) {
    email.None? || email.value == "" || password.None? || password.value == ""
  }

  /** `POST /api/auth/register` (server.js:116-138). `hash` is what bcrypt returned for the
      password. The insert draws the next id before the unique index on `email` refuses a
      duplicate, so a conflict still advances the sequence. */
  function Register(t: Tables, email: Option<string>, password: Option<string>, hash: string,
                    firstName: Option<string>, lastName: Option<string>): (r: (Response, Tables))
    ensures r.0 == BadRequest <==> email.None? || email.value == "" || password.None? || password.value == ""
    ensures r.0 == Conflict <==> r.0 != BadRequest && EmailTaken(t.customers, email.value)
    ensures !MissingCredentials(email, password) && !EmailTaken(t.customers, email.value) ==>
              r.0.Registered?
    ensures r.0 == BadRequest ==> r.1 == t
    ensures r.0 == Conflict ==> r.1 == t.(customerSeq := t.customerSeq + 1)
    ensures r.1 == t.(customers := r.1.customers, customerSeq := r.1.customerSeq)
    ensures !r.0.Registered? ==> r.1.customers == t.customers
    ensures r.0.Registered? ==>
              r.1.customers == t.customers + [CustomerRow(r.0.id, email.value, hash, firstName, lastName)]
              && r.0.id == t.customerSeq && r.1.customerSeq == t.customerSeq + 1
  {
    if MissingCredentials(email, password) then (BadRequest, t)
    else
      var id := t.customerSeq;
      if EmailTaken(t.customers, email.value) then (Conflict, t.(customerSeq := id + 1))
      else
        (Registered(id, email.value),
         t.(customers := t.customers + [CustomerRow(id, email.value, hash, firstName, lastName)],
            customerSeq := id + 1))
  }

  // ---------------------------------------------------------------------------------------
  // What the tables keep

  /** The invariant the handlers keep: cart keys unique with positive quantities; order ids
      drawn from their sequence and distinct; every item belongs to a drawn order id; every
      order's total is the sum over its items; customer ids drawn and distinct, emails
      distinct. */
  ghost predicate Consistent(t: Tables) {
    && UniqueKeys(t.cart)
    && (forall row :: row in t.cart ==> row.quantity >= 1)
    && (forall o :: o in t.orders ==> o.id < t.orderSeq)
    && (forall i, j :: 0 <= i < j < |t.orders| ==> t.orders[i].id != t.orders[j].id)
    && (forall item :: item in t.items ==> item.order < t.orderSeq)
    && (forall o :: o in t.orders ==> o.total == ItemsTotal(t.items, o.id))
    && (forall c :: c in t.customers ==> c.id < t.customerSeq)
    && (forall i, j :: 0 <= i < j < |t.customers| ==> t.customers[i].id != t.customers[j].id)
    && (forall i, j :: 0 <= i < j < |t.customers| ==> t.customers[i].email != t.customers[j].email)
  }

  /** The upsert keeps the primary key unique: it either changes a row in place or appends
      the one key that had no row. */
  lemma UpsertCartUnique(cart: seq<CartRow>, k: CartKey, quantity: int)
    requires UniqueKeys(cart)
    ensures UniqueKeys(UpsertCart(cart, k, quantity))
  {
    var r := UpsertCart(cart, k, quantity);
    LookupFinds(cart, k);
    forall i, j | 0 <= i < j < |r| ensures Key(r[i]) != Key(r[j]) {
      assert Key(r[i]) == Key(cart[i]);
      if j < |cart| {
        assert Key(r[j]) == Key(cart[j]);
      } else {
        assert Lookup(cart, k).None?;
      }
    }
  }

  /** Adding a positive amount keeps every quantity positive. */
  lemma UpsertCartPositive(cart: seq<CartRow>, k: CartKey, quantity: int)
    requires forall row :: row in cart ==> row.quantity >= 1
    requires quantity >= 1
    ensures forall row :: row in UpsertCart(cart, k, quantity) ==> row.quantity >= 1
  {
    UpsertCartRows(cart, k, quantity);
    LookupFinds(cart, k);
    var q := Lookup(cart, k);
    assert q.Some? ==> CartRow(k.customer, k.product, q.value) in cart;
    assert QuantityOf(cart, k) >= 0;
  }

  lemma AddToCartConsistent(t: Tables, customer: nat, productId: Input, quantity: Input)
    requires Consistent(t)
    ensures Consistent(AddToCart(t, customer, productId, quantity).1)
  {
    var r := AddToCart(t, customer, productId, quantity);
    if r.0.CartItemSaved? {
      UpsertCartUnique(t.cart, CartKey(customer, productId.n), quantity.n);
      UpsertCartPositive(t.cart, CartKey(customer, productId.n), quantity.n);
      assert r.1 == t.(cart := UpsertCart(t.cart, CartKey(customer, productId.n), quantity.n));
    }
  }

  lemma RemoveFromCartConsistent(t: Tables, customer: nat, productId: Input)
    requires Consistent(t) && !productId.Absent?
    ensures Consistent(RemoveFromCart(t, customer, productId).1)
  {
  }

  /** The total `reduce` computes from 0 is the sum over the lines. */
  lemma {:induction false} ReduceSum(acc: int, lines: seq<CartLine>)
    ensures Reduce(acc, lines) == acc + SumLines(lines)
    decreases lines
  {
    if lines != [] {
      ReduceSum(acc + lines[0].price * lines[0].quantity, lines[1..]);
    }
  }

  lemma {:induction false} SumLinesRemove(lines: seq<CartLine>, i: nat)
    requires i < |lines|
    ensures SumLines(lines) == lines[i].price * lines[i].quantity + SumLines(lines[..i] + lines[i + 1..])
    decreases i
  {
    if i > 0 {
      SumLinesRemove(lines[1..], i - 1);
      assert lines[1..][..i - 1] + lines[1..][i..] == (lines[..i] + lines[i + 1..])[1..];
    } else {
      assert lines[..i] + lines[i + 1..] == lines[1..];
    }
  }

  /** The cart query has no `ORDER BY`; the sum does not depend on the order of the rows. */
  lemma {:induction false} SumLinesPermutation(a: seq<CartLine>, b: seq<CartLine>)
    requires multiset(a) == multiset(b)
    ensures SumLines(a) == SumLines(b)
    decreases |a|
  {
    if a != [] {
      assert a[0] in multiset(b);
      var i :| 0 <= i < |b| && b[i] == a[0];
      SumLinesRemove(b, i);
      var rest := b[..i] + b[i + 1..];
      assert b == b[..i] + [b[i]] + b[i + 1..];
      assert multiset(b) == multiset(b[..i]) + multiset{b[i]} + multiset(b[i + 1..]);
      assert multiset(rest) == multiset(b[..i]) + multiset(b[i + 1..]);
      assert a == [a[0]] + a[1..];
      assert multiset(a) == multiset{a[0]} + multiset(a[1..]);
      assert multiset(a[1..]) == multiset(a) - multiset{a[0]};
      assert multiset(rest) == multiset(b) - multiset{b[i]};
      SumLinesPermutation(a[1..], rest);
    } else {
      assert b == [];
    }
  }

  /** The order total is the same whatever order the cart query returns the rows in. */
  lemma TotalOrderFree(a: seq<CartLine>, b: seq<CartLine>)
    requires multiset(a) == multiset(b)
    ensures Total(a) == Total(b)
  {
    ReduceSum(0, a);
    ReduceSum(0, b);
    SumLinesPermutation(a, b);
  }

  lemma {:induction false} ItemsTotalAppend(a: seq<OrderItem>, b: seq<OrderItem>, order: nat)
    ensures ItemsTotal(a + b, order) == ItemsTotal(a, order) + ItemsTotal(b, order)
    decreases |a|
  {
    if a != [] {
      assert (a + b)[1..] == a[1..] + b;
      ItemsTotalAppend(a[1..], b, order);
    } else {
      assert a + b == b;
    }
  }

  lemma {:induction false} ItemsTotalOfOthers(items: seq<OrderItem>, order: nat)
    requires forall item :: item in items ==> item.order != order
    ensures ItemsTotal(items, order) == 0
    decreases |items|
  {
    if items != [] {
      assert items[0] in items;
      assert forall item :: item in items[1..] ==> item in items;
      ItemsTotalOfOthers(items[1..], order);
    }
  }

  /** The joined lines and the inserted items sum to the same amount: rows without a product
      drop out of the join and carry a null price among the items. */
  lemma {:induction false} JoinedItemsTotal(rows: seq<CartRow>, prices: map<int, int>, order: nat)
    ensures SumLines(Joined(rows, prices)) == ItemsTotal(ItemsOf(order, rows, prices), order)
    decreases |rows|
  {
    if rows != [] {
      JoinedItemsTotal(rows[1..], prices, order);
      var head := if rows[0].product in prices then [CartLine(rows[0].product, rows[0].quantity, prices[rows[0].product])] else [];
      var lines := head + Joined(rows[1..], prices);
      if head != [] {
        assert lines[1..] == Joined(rows[1..], prices);
      } else {
        assert lines == Joined(rows[1..], prices);
      }
    }
  }

  /** One order item per cart row, with its product and quantity, priced when the product
      exists. */
  lemma {:induction false} ItemsOfRows(order: nat, rows: seq<CartRow>, prices: map<int, int>)
    ensures var items := ItemsOf(order, rows, prices);
      && |items| == |rows|
      && forall i :: 0 <= i < |rows| ==>
           && items[i].order == order && items[i].product == rows[i].product
           && items[i].quantity == rows[i].quantity
           && (items[i].priceAtPurchase.Some? <==> rows[i].product in prices)
           && (rows[i].product in prices ==> items[i].priceAtPurchase == Some(prices[rows[i].product]))
    decreases |rows|
  {
    if rows != [] {
      ItemsOfRows(order, rows[1..], prices);
      var items := ItemsOf(order, rows, prices);
      assert items[1..] == ItemsOf(order, rows[1..], prices);
    }
  }

  lemma CheckoutConsistent(t: Tables, customer: nat, address: Option<string>)
    requires Consistent(t)
    ensures Consistent(Checkout(t, customer, address).1)
  {
    var r := Checkout(t, customer, address);
    if r.0.OrderCreated? {
      var id := t.orderSeq;
      var rows := CustomerRows(t.cart, customer);
      var newItems := ItemsOf(id, rows, t.prices);
      var u := r.1;
      assert u.items == t.items + newItems;
      forall o | o in u.orders ensures o.total == ItemsTotal(u.items, o.id) {
        ItemsTotalAppend(t.items, newItems, o.id);
        if o in t.orders {
          ItemsTotalOfOthers(newItems, o.id);
        } else {
          assert o == u.orders[|u.orders| - 1];
          ItemsTotalOfOthers(t.items, id);
          JoinedItemsTotal(rows, t.prices, id);
          ReduceSum(0, CartLines(t, customer));
        }
      }
      forall i, j | 0 <= i < j < |u.orders| ensures u.orders[i].id != u.orders[j].id {
        if j < |t.orders| {
          assert u.orders[i] == t.orders[i] && u.orders[j] == t.orders[j];
        } else {
          assert u.orders[i] in t.orders;
        }
      }
    }
  }

  /** A successful checkout: the order is the last row, pending, with the sum of the cart;
      the customer's cart rows have become its items, and only they left the cart. */
  lemma CheckoutCreatesOrder(t: Tables, customer: nat, address: Option<string>)
    requires Consistent(t)
    ensures var r := Checkout(t, customer, address);
      r.0.OrderCreated? ==>
        var u := r.1;
        var rows := CustomerRows(t.cart, customer);
        var newItems := u.items[|t.items|..];
        && u == t.(orders := u.orders, orderSeq := t.orderSeq + 1, items := u.items, cart := u.cart)
        && u.orders == t.orders + [OrderRow(r.0.orderId, customer, r.0.totalAmount, address.value, Pending)]
        && r.0.orderId == t.orderSeq
        && r.0.totalAmount == SumLines(CartLines(t, customer))
        && r.0.totalAmount == ItemsTotal(u.items, r.0.orderId)
        && u.items[..|t.items|] == t.items
        && |newItems| == |rows|
        && (forall i :: 0 <= i < |rows| ==>
              && newItems[i].order == r.0.orderId && newItems[i].product == rows[i].product
              && newItems[i].quantity == rows[i].quantity
              && newItems[i].priceAtPurchase
                 == (if rows[i].product in t.prices then Some(t.prices[rows[i].product]) else None))
        && (forall row :: row in u.cart <==> row in t.cart && row.customer != customer)
  {
    var r := Checkout(t, customer, address);
    if r.0.OrderCreated? {
      CheckoutConsistent(t, customer, address);
      var rows := CustomerRows(t.cart, customer);
      ItemsOfRows(t.orderSeq, rows, t.prices);
      ReduceSum(0, CartLines(t, customer));
      var newItems := ItemsOf(t.orderSeq, rows, t.prices);
      assert r.1.items == t.items + newItems;
      assert r.1.items[|t.items|..] == newItems;
      assert r.1.orders[|r.1.orders| - 1] in r.1.orders;
    }
  }

  /** Every item of a new order has a price exactly when every row in the customer's cart
      names an existing product; a row naming none is left out of the total. */
  lemma CheckoutPricesItems(t: Tables, customer: nat, address: Option<string>)
    ensures var r := Checkout(t, customer, address);
      r.0.OrderCreated? ==>
        ((forall item :: item in r.1.items[|t.items|..] ==> item.priceAtPurchase.Some?)
         <==> (forall row :: row in t.cart && row.customer == customer ==> row.product in t.prices))
  {
    var r := Checkout(t, customer, address);
    if r.0.OrderCreated? {
      var rows := CustomerRows(t.cart, customer);
      var newItems := ItemsOf(t.orderSeq, rows, t.prices);
      ItemsOfRows(t.orderSeq, rows, t.prices);
      assert r.1.items[|t.items|..] == newItems;
      if forall item :: item in newItems ==> item.priceAtPurchase.Some? {
        forall row | row in t.cart && row.customer == customer ensures row.product in t.prices {
          var i :| 0 <= i < |rows| && rows[i] == row;
          assert newItems[i] in newItems;
        }
      }
    }
  }

  /** Right after a checkout the customer's cart is empty, so a second one fails and changes
      nothing. */
  lemma CheckoutTwice(t: Tables, customer: nat, address: Option<string>, again: Option<string>)
    requires Checkout(t, customer, address).0.OrderCreated?
    requires again.Some? && again.value != ""
    ensures var u := Checkout(t, customer, address).1;
      Checkout(u, customer, again) == (ServerError(Some(EmptyCartMessage)), u)
  {
  }

  lemma RegisterConsistent(t: Tables, email: Option<string>, password: Option<string>, hash: string,
                           firstName: Option<string>, lastName: Option<string>)
    requires Consistent(t)
    ensures Consistent(Register(t, email, password, hash, firstName, lastName).1)
  {
    var r := Register(t, email, password, hash, firstName, lastName);
    if r.0.Registered? {
      var u := r.1;
      forall i, j | 0 <= i < j < |u.customers|
        ensures u.customers[i].email != u.customers[j].email && u.customers[i].id != u.customers[j].id
      {
        if j == |t.customers| {
          assert u.customers[i] == t.customers[i];
          assert t.customers[i] in t.customers;
        }
      }
    }
  }

  /** Registering an email a second time is a conflict and adds nobody. */
  lemma RegisterTwice(t: Tables, email: Option<string>, password: Option<string>, hash: string,
                      firstName: Option<string>, lastName: Option<string>,
                      password2: Option<string>, hash2: string, firstName2: Option<string>, lastName2: Option<string>)
    requires Register(t, email, password, hash, firstName, lastName).0.Registered?
    requires password2.Some? && password2.value != ""
    ensures var u := Register(t, email, password, hash, firstName, lastName).1;
      var again := Register(u, email, password2, hash2, firstName2, lastName2);
      again.0 == Conflict && again.1.customers == u.customers
  {
    var u := Register(t, email, password, hash, firstName, lastName).1;
    assert u.customers[|u.customers| - 1].email == email.value;
  }

  /** Removing a product from the cart undoes every earlier add of it. */
  lemma RemoveUndoesAdd(t: Tables, customer: nat, product: int, quantity: Input)
    ensures var added := AddToCart(t, customer, Int(product), quantity).1;
      forall k' :: Lookup(RemoveFromCart(added, customer, Int(product)).1.cart, k')
                   == Lookup(RemoveFromCart(t, customer, Int(product)).1.cart, k')
  {
  }

  // ---------------------------------------------------------------------------------------
  // The handlers against the database

  class ShopStore {
    var customers: seq<CustomerRow>
    var customerSeq: nat
    var prices: map<int, int>
    var cart: seq<CartRow>
    var orders: seq<OrderRow>
    var orderSeq: nat
    var items: seq<OrderItem>

    function State(): Tables
      reads this
    {
      Tables(customers, customerSeq, prices, cart, orders, orderSeq, items)
    }

    ghost predicate Valid()
      reads this
    {
      Consistent(State())
    }

    /** No customers, carts or orders yet; serial sequences start at 1. */
    constructor (prices: map<int, int>)
      ensures Valid()
      ensures State() == Tables([], 1, prices, [], [], 1, [])
    {
      customers, customerSeq := [], 1;
      this.prices := prices;
      cart, orders, orderSeq, items := [], [], 1, [];
    }

    /** `POST /api/cart` for the authenticated customer. */
    method PostCart(customer: nat, productId: Input, quantity: Input) returns (response: Response)
      requires Valid()
      modifies this
      ensures Valid()
      ensures (response, State()) == AddToCart(old(State()), customer, productId, quantity)
    {
      AddToCartConsistent(State(), customer, productId, quantity);
      if CartRequestRefused(productId, quantity) {
        return BadRequest;
      }
      if productId.Malformed? || quantity.Malformed? {
        return ServerError(None);
      }
      var k := CartKey(customer, productId.n);
      var saved := CartRow(customer, productId.n, QuantityOf(cart, k) + quantity.n);
      cart := UpsertCart(cart, k, quantity.n);
      response := CartItemSaved(saved);
    }

    /** `DELETE /api/cart/:productId` for the authenticated customer. */
    method DeleteCartItem(customer: nat, productId: Input) returns (response: Response)
      requires Valid() && !productId.Absent?
      modifies this
      ensures Valid()
      ensures (response, State()) == RemoveFromCart(old(State()), customer, productId)
    {
      RemoveFromCartConsistent(State(), customer, productId);
      if productId.Malformed? {
        return ServerError(None);
      }
      cart := RemoveRows(cart, CartKey(customer, productId.n));
      response := NoContent;
    }

    /** `POST /api/orders`: the transaction's statements in order. The empty-cart exception
        comes before the first write, so the rollback has nothing to undo. */
    method PostOrder(customer: nat, address: Option<string>) returns (response: Response)
      requires Valid()
      modifies this
      ensures Valid()
      ensures (response, State()) == Checkout(old(State()), customer, address)
    {
      ghost var before := State();
      CheckoutConsistent(before, customer, address);
      if address.None? || address.value == "" {
        return BadRequest;
      }
      var lines := CartLines(State(), customer);
      if lines == [] {
        return ServerError(Some(EmptyCartMessage));
      }
      var total := Total(lines);
      var id := orderSeq;
      orders := orders + [OrderRow(id, customer, total, address.value, Pending)];
      orderSeq := orderSeq + 1;
      items := items + ItemsOf(id, CustomerRows(cart, customer), prices);
      cart := OtherCustomers(cart, customer);
      response := OrderCreated(id, total);
      assert (response, State()) == Checkout(before, customer, address);
    }

    /** `POST /api/auth/register`; `hash` is bcrypt's result for the password. */
    method PostRegister(email: Option<string>, password: Option<string>, hash: string,
                        firstName: Option<string>, lastName: Option<string>) returns (response: Response)
      requires Valid()
      modifies this
      ensures Valid()
      ensures (response, State()) == Register(old(State()), email, password, hash, firstName, lastName)
    {
      RegisterConsistent(State(), email, password, hash, firstName, lastName);
      if MissingCredentials(email, password) {
        return BadRequest;
      }
      var id := customerSeq;
      customerSeq := customerSeq + 1;
      if EmailTaken(customers, email.value) {
        return Conflict;
      }
      customers := customers + [CustomerRow(id, email.value, hash, firstName, lastName)];
      response := Registered(id, email.value);
    }
  }
}
