/** The in-memory backend (src/api/mock/mockApi.ts): a fixed catalog, and
    user and order tables that the create/update/order/wishlist calls
    change in place. Lookups are `find`/`filter` over the tables and are
    modelled as functions of them; the latency, the random numbers and the
    clock are parameters or left out. */
module MockApi {
  import opened Models
  import opened Seqs

  // ---------------------------------------------------------------------
  // Decimal ids: `u${n}`, `o${n}`, `ORD${n}`, `TRK${n}`
  // ---------------------------------------------------------------------

  function Digit(d: nat): char
    requires d < 10
  {
    ('0' as int + d) as char
  }

  /** JavaScript's decimal rendering of a non-negative integer. */
  function NatToString(n: nat): (s: string)
    ensures |s| >= 1 && forall i :: 0 <= i < |s| ==> '0' <= s[i] <= '9'
    decreases n
  {
    if n < 10 then [Digit(n)] else NatToString(n / 10) + [Digit(n % 10)]
  }

  predicate AllDigits(s: string)
  {
    forall i :: 0 <= i < |s| ==> '0' <= s[i] <= '9'
  }

  /** The value of a string of decimal digits. */
  function ParseDigits(s: string): nat
    requires AllDigits(s)
    decreases |s|
  {
    if s == [] then 0 else 10 * ParseDigits(s[..|s| - 1]) + (s[|s| - 1] as int - '0' as int)
  }

  /** Reading the rendering back gives the number. */
  lemma {:induction false} ParseNatToString(n: nat)
    ensures ParseDigits(NatToString(n)) == n
    decreases n
  {
    var s := NatToString(n);
    if n >= 10 {
      ParseNatToString(n / 10);
      assert s[..|s| - 1] == NatToString(n / 10);
    }
  }

  /** So generated ids with different counters are different. */
  lemma GeneratedIdsDiffer(prefix: string, m: nat, n: nat)
    requires m != n
    ensures prefix + NatToString(m) != prefix + NatToString(n)
  {
    ParseNatToString(m);
    ParseNatToString(n);
    assert (prefix + NatToString(m))[|prefix|..] == NatToString(m);
    assert (prefix + NatToString(n))[|prefix|..] == NatToString(n);
  }

  // ---------------------------------------------------------------------
  // Records
  // ---------------------------------------------------------------------

  /** A row of `mockUsers`: the client record plus the password. */
  datatype StoredUser = StoredUser(
    id: string,
    email: string,
    password: string,
    name: string,
    phone: Option<string>,
    address: Option<Address>,
    wishlist: seq<string>,
    orders: seq<string>)

  /** `const { password: _, ...userWithoutPassword } = user`. */
  function Public(u: StoredUser): User
  {
    User(u.id, u.email, u.name, u.phone, u.address, u.wishlist, u.orders)
  }

  /** The `userData` of `createUser`. A `wishlist` or `orders` key in it is
      always overwritten, so it is not a field here; `id` may be supplied. */
  datatype NewUserData = NewUserData(
    id: Option<string>,
    email: string,
    password: string,
    name: string,
    phone: Option<string>,
    address: Option<Address>)

  function Pick<T>(o: Option<T>, otherwise: T): T
  {
    if o.Some? then o.value else otherwise
  }

  /** The new row: `{ id: 'u' + (count + 1), ...userData, wishlist: [], orders: [] }`. */
  function NewRecord(data: NewUserData, count: nat): StoredUser
  {
    StoredUser(Pick(data.id, "u" + NatToString(count + 1)), data.email, data.password, data.name,
               data.phone, data.address, [], [])
  }

  /** The keys present in `updates`; each one present replaces the stored one. */
  datatype UserPatch = UserPatch(
    id: Option<string>,
    email: Option<string>,
    password: Option<string>,
    name: Option<string>,
    phone: Option<string>,
    address: Option<Address>,
    wishlist: Option<seq<string>>,
    orders: Option<seq<string>>)

  const NoUpdates := UserPatch(None, None, None, None, None, None, None, None)

  /** `{ ...user, ...updates }`. */
  function ApplyPatch(u: StoredUser, patch: UserPatch): StoredUser
  {
    StoredUser(
      Pick(patch.id, u.id), Pick(patch.email, u.email), Pick(patch.password, u.password),
      Pick(patch.name, u.name),
      if patch.phone.Some? then patch.phone else u.phone,
      if patch.address.Some? then patch.address else u.address,
      Pick(patch.wishlist, u.wishlist), Pick(patch.orders, u.orders))
  }

  /** An empty `updates` changes nothing, and applying the same updates
      twice is applying them once. */
  lemma PatchLaws(u: StoredUser, patch: UserPatch)
    ensures ApplyPatch(u, NoUpdates) == u
    ensures ApplyPatch(ApplyPatch(u, patch), patch) == ApplyPatch(u, patch)
  {
  }

  // ---------------------------------------------------------------------
  // Products
  // ---------------------------------------------------------------------

  /** The optional `filters` of `getProducts`. */
  datatype ProductQuery = ProductQuery(
    category: Option<string>,
    brand: Option<string>,
    minPrice: Option<real>,
    maxPrice: Option<real>,
    shape: Option<string>,
    frameType: Option<string>)

  // A filter key takes part only when it is truthy: present, and not '' or 0.
  predicate GivenText(o: Option<string>) { o.Some? && o.value != "" }
  predicate GivenNumber(o: Option<real>) { o.Some? && o.value != 0.0 }

  predicate QueryMatches(q: ProductQuery, p: Product)
  {
    (GivenText(q.category) ==> p.category == q.category.value) &&
    (GivenText(q.brand) ==> p.brand == q.brand.value) &&
    (GivenNumber(q.minPrice) ==> p.price >= q.minPrice.value) &&
    (GivenNumber(q.maxPrice) ==> p.price <= q.maxPrice.value) &&
    (GivenText(q.shape) ==> p.shape == q.shape.value) &&
    (GivenText(q.frameType) ==> p.frameType == q.frameType.value)
  }

  /** The six `if (filters?.key) products = products.filter(...)` lines, in order. */
  function QuerySteps(q: ProductQuery): seq<Step<Product>>
  {
    [ Step(GivenText(q.category), (p: Product) => q.category.Some? && p.category == q.category.value),
      Step(GivenText(q.brand), (p: Product) => q.brand.Some? && p.brand == q.brand.value),
      Step(GivenNumber(q.minPrice), (p: Product) => q.minPrice.Some? && p.price >= q.minPrice.value),
      Step(GivenNumber(q.maxPrice), (p: Product) => q.maxPrice.Some? && p.price <= q.maxPrice.value),
      Step(GivenText(q.shape), (p: Product) => q.shape.Some? && p.shape == q.shape.value),
      Step(GivenText(q.frameType), (p: Product) => q.frameType.Some? && p.frameType == q.frameType.value) ]
  }

  lemma QueryStepsMean(q: ProductQuery, p: Product)
    ensures PassesAll(QuerySteps(q), p) <==> QueryMatches(q, p)
  {
    var st := QuerySteps(q);
    if QueryMatches(q, p) {
      forall i | 0 <= i < |st| && st[i].active ensures st[i].keep(p) {
      }
    } else {
      assert !(st[0].active ==> st[0].keep(p)) || !(st[1].active ==> st[1].keep(p)) ||
             !(st[2].active ==> st[2].keep(p)) || !(st[3].active ==> st[3].keep(p)) ||
             !(st[4].active ==> st[4].keep(p)) || !(st[5].active ==> st[5].keep(p));
    }
  }

  function MatchesQuery(q: ProductQuery): Product -> bool
  {
    (p: Product) => QueryMatches(q, p)
  }

  /** `getProducts`: the catalog entries that match every truthy key, in
      catalog order; the chain of six filters is one filter by the query. */
  function GetProducts(catalog: seq<Product>, q: ProductQuery): (r: seq<Product>)
    ensures IsSubseq(r, catalog)
    ensures forall p :: p in r <==> p in catalog && QueryMatches(q, p)
    ensures r == Filter(catalog, MatchesQuery(q))
  {
    PipelineFacts(catalog, QuerySteps(q));
    PipelineIsFilter(catalog, QuerySteps(q));
    forall p ensures PassesAll(QuerySteps(q), p) <==> QueryMatches(q, p) {
      QueryStepsMean(q, p);
    }
    FilterExt(catalog, PassesAllOf(QuerySteps(q)), MatchesQuery(q));
    Pipeline(catalog, QuerySteps(q))
  }

  /** A price bound of 0 is falsy and so ignored: `{ minPrice: 0, maxPrice: 0 }`
      returns the same list as no bounds at all, not only free products. */
  lemma ZeroPriceBoundsIgnored(catalog: seq<Product>, q: ProductQuery)
    ensures GetProducts(catalog, q.(minPrice := Some(0.0), maxPrice := Some(0.0))) ==
            GetProducts(catalog, q.(minPrice := None, maxPrice := None))
  {
    var a := QuerySteps(q.(minPrice := Some(0.0), maxPrice := Some(0.0)));
    var b := QuerySteps(q.(minPrice := None, maxPrice := None));
    PipelineIsFilter(catalog, a);
    PipelineIsFilter(catalog, b);
    forall p ensures PassesAllOf(a)(p) == PassesAllOf(b)(p) {
      QueryStepsMean(q.(minPrice := Some(0.0), maxPrice := Some(0.0)), p);
      QueryStepsMean(q.(minPrice := None, maxPrice := None), p);
    }
    FilterExt(catalog, PassesAllOf(a), PassesAllOf(b));
  }

  /** No filters: the whole catalog, in order. */
  lemma NoQueryIsCatalog(catalog: seq<Product>)
    ensures GetProducts(catalog, ProductQuery(None, None, None, None, None, None)) == catalog
  {
    var st := QuerySteps(ProductQuery(None, None, None, None, None, None));
    PipelineIsFilter(catalog, st);
    FilterAll(catalog, PassesAllOf(st));
  }

  /** `getProductById`: the first product with that id. */
  function GetProductById(catalog: seq<Product>, id: string): (r: Result<Product>)
    ensures r.Ok? <==> exists i :: 0 <= i < |catalog| && catalog[i].id == id
    ensures r.Ok? ==> exists k :: FirstMatch(catalog, (p: Product) => p.id == id, k) && r.data == catalog[k]
    ensures r.Err? ==> r.error == "Product not found"
  {
    var k := FindIndex(catalog, (p: Product) => p.id == id);
    if k == -1 then Err("Product not found")
    else
      assert FirstMatch(catalog, (p: Product) => p.id == id, k);
      Ok(catalog[k])
  }

  /** `getFeaturedProducts`: the first four catalog entries, or all if fewer. */
  function GetFeaturedProducts(catalog: seq<Product>): (r: seq<Product>)
    ensures |r| == (if |catalog| < 4 then |catalog| else 4)
    ensures forall i :: 0 <= i < |r| ==> r[i] == catalog[i]
  {
    if |catalog| < 4 then catalog else catalog[..4]
  }

  // ---------------------------------------------------------------------
  // Users
  // ---------------------------------------------------------------------

  function WithId(id: string): StoredUser -> bool { (u: StoredUser) => u.id == id }
  function WithEmail(email: string): StoredUser -> bool { (u: StoredUser) => u.email == email }
  function WithCredentials(email: string, password: string): StoredUser -> bool
  {
    (u: StoredUser) => u.email == email && u.password == password
  }

  /** `loginUser`: the first row with both that email and that password,
      without its password. */
  function LoginUser(users: seq<StoredUser>, email: string, password: string): (r: Result<User>)
    ensures r.Ok? <==> exists i :: 0 <= i < |users| && users[i].email == email && users[i].password == password
    ensures r.Ok? ==> exists k :: FirstMatch(users, WithCredentials(email, password), k) && r.data == Public(users[k])
    ensures r.Err? ==> r.error == "Invalid credentials"
  {
    var k := FindIndex(users, WithCredentials(email, password));
    if k == -1 then Err("Invalid credentials")
    else
      assert FirstMatch(users, WithCredentials(email, password), k);
      Ok(Public(users[k]))
  }

  /** `getUserProfile`: the first row with that id, without its password. */
  function GetUserProfile(users: seq<StoredUser>, id: string): (r: Result<User>)
    ensures r.Ok? <==> exists i :: 0 <= i < |users| && users[i].id == id
    ensures r.Ok? ==> exists k :: FirstMatch(users, WithId(id), k) && r.data == Public(users[k])
    ensures r.Err? ==> r.error == "User not found"
  {
    var k := FindIndex(users, WithId(id));
    if k == -1 then Err("User not found")
    else
      assert FirstMatch(users, WithId(id), k);
      Ok(Public(users[k]))
  }

  /** No two rows share an email. */
  predicate EmailsDistinct(users: seq<StoredUser>)
  {
    forall i, j :: 0 <= i < j < |users| ==> users[i].email != users[j].email
  }

  predicate EmailTaken(users: seq<StoredUser>, email: string)
  {
    exists i :: 0 <= i < |users| && users[i].email == email
  }

  /** Rejecting a taken email keeps the emails distinct. */
  lemma CreateKeepsEmailsDistinct(users: seq<StoredUser>, data: NewUserData)
    requires EmailsDistinct(users) && !EmailTaken(users, data.email)
    ensures EmailsDistinct(users + [NewRecord(data, |users|)])
  {
  }

  /** A created account can log in at once with the email and password it
      was created with, and the login returns the created record. */
  lemma LoginAfterCreate(users: seq<StoredUser>, data: NewUserData)
    requires !EmailTaken(users, data.email)
    ensures LoginUser(users + [NewRecord(data, |users|)], data.email, data.password) == Ok(Public(NewRecord(data, |users|)))
  {
    var users' := users + [NewRecord(data, |users|)];
    var hit := WithCredentials(data.email, data.password);
    assert hit(users'[|users|]);
    forall i | 0 <= i < |users| ensures !hit(users'[i]) {
      assert users'[i] == users[i];
    }
    assert FindIndex(users', hit) == |users|;
  }

  // ---------------------------------------------------------------------
  // Wishlists
  // ---------------------------------------------------------------------

  /** `if (!wishlist.includes(id)) wishlist.push(id)`. */
  function AddOnce(wishlist: seq<string>, id: string): (r: seq<string>)
  {
    if id in wishlist then wishlist else wishlist + [id]
  }

  /** Adding holds the id afterwards, never makes a duplicate, and is
      idempotent; removing drops every copy and is idempotent too; adding
      then removing is just removing. */
  lemma WishlistLaws(wishlist: seq<string>, id: string)
    ensures id in AddOnce(wishlist, id)
    ensures forall v :: v in AddOnce(wishlist, id) <==> v in wishlist || v == id
    ensures NoDup(wishlist) ==> NoDup(AddOnce(wishlist, id))
    ensures AddOnce(AddOnce(wishlist, id), id) == AddOnce(wishlist, id)
    ensures Without(Without(wishlist, id), id) == Without(wishlist, id)
    ensures Without(AddOnce(wishlist, id), id) == Without(wishlist, id)
    ensures NoDup(wishlist) ==> NoDup(Without(wishlist, id))
  {
    FilterAll(Without(wishlist, id), NotEqual(id));
    if id !in wishlist {
      FilterConcat(wishlist, [id], NotEqual(id));
    }
    if NoDup(wishlist) {
      FilterNoDup(wishlist, NotEqual(id));
    }
  }

  /** Every stored wishlist is duplicate-free. */
  predicate WishlistsDistinct(users: seq<StoredUser>)
  {
    forall i :: 0 <= i < |users| ==> NoDup(users[i].wishlist)
  }

  /** The filter `p => wishlist.includes(p.id)`. */
  function IdIn(ids: seq<string>): Product -> bool
  {
    (p: Product) => p.id in ids
  }

  /** `getWishlist`: the catalog entries whose id is in the user's wishlist,
      in catalog order (not wishlist order), each once per catalog entry. */
  function GetWishlist(catalog: seq<Product>, users: seq<StoredUser>, userId: string): (r: Result<seq<Product>>)
    ensures r.Err? <==> forall i :: 0 <= i < |users| ==> users[i].id != userId
    ensures r.Err? ==> r.error == "User not found"
    ensures r.Ok? ==> IsSubseq(r.data, catalog)
    ensures r.Ok? ==>
      exists k :: FirstMatch(users, WithId(userId), k) &&
        r.data == Filter(catalog, IdIn(users[k].wishlist)) &&
        forall p :: p in r.data <==> p in catalog && p.id in users[k].wishlist
  {
    var k := FindIndex(users, WithId(userId));
    if k == -1 then Err("User not found")
    else
      var keep := IdIn(users[k].wishlist);
      FilterIsSubseq(catalog, keep);
      forall p ensures p in Filter(catalog, keep) <==> p in catalog && p.id in users[k].wishlist {
        FilterMember(catalog, keep, p);
      }
      assert FirstMatch(users, WithId(userId), k);
      Ok(Filter(catalog, keep))
  }

  // ---------------------------------------------------------------------
  // Orders
  // ---------------------------------------------------------------------

  /** The `orderData` of `placeOrder`: the four keys the checkout sends,
      and any default key it may also carry, which then wins. */
  datatype OrderData = OrderData(
    userId: string,
    total: real,
    items: seq<OrderItem>,
    shippingAddress: Address,
    id: Option<string>,
    orderNumber: Option<string>,
    date: Option<string>,
    status: Option<OrderStatus>,
    timeline: Option<seq<TimelineStep>>,
    estimatedDelivery: Option<string>,
    trackingNumber: Option<string>)

  /** The default timeline: placed today, four later steps still open. */
  function DefaultTimeline(today: string): (t: seq<TimelineStep>)
    ensures |t| == 5 && t[0].completed && t[0].date == today
    ensures forall i :: 1 <= i < |t| ==> !t[i].completed && t[i].date == ""
  {
    [ TimelineStep("Order Placed", today, true),
      TimelineStep("Processing", "", false),
      TimelineStep("Shipped", "", false),
      TimelineStep("Out for Delivery", "", false),
      TimelineStep("Delivered", "", false) ]
  }

  /** The new order: defaults first, then `...orderData`. `orderDigits` and
      `trackingDigits` stand for the random numbers, `today` and
      `deliveryDate` for the dates read from the clock. */
  function NewOrder(data: OrderData, count: nat, orderDigits: nat, today: string,
                    deliveryDate: string, trackingDigits: nat): Order
  {
    Order(
      Pick(data.id, "o" + NatToString(count + 1)),
      data.userId,
      Pick(data.orderNumber, "ORD" + NatToString(orderDigits)),
      Pick(data.date, today),
      data.total,
      Pick(data.status, Processing),
      data.items,
      data.shippingAddress,
      Pick(data.timeline, DefaultTimeline(today)),
      Pick(data.estimatedDelivery, deliveryDate),
      Pick(data.trackingNumber, "TRK" + NatToString(trackingDigits)))
  }

  /** An order from the four keys the checkout sends is 'processing', has
      the default five-step timeline with only the first step done, and
      carries the sent user, total, items and address. */
  lemma CheckoutOrderDefaults(userId: string, total: real, items: seq<OrderItem>, address: Address,
                              count: nat, orderDigits: nat, today: string, deliveryDate: string, trackingDigits: nat)
    ensures var o := NewOrder(OrderData(userId, total, items, address, None, None, None, None, None, None, None),
                              count, orderDigits, today, deliveryDate, trackingDigits);
      o.status == Processing && |o.timeline| == 5 &&
      (forall i :: 0 <= i < 5 ==> (o.timeline[i].completed <==> i == 0)) &&
      o.userId == userId && o.total == total && o.items == items && o.shippingAddress == address &&
      o.id == "o" + NatToString(count + 1)
  {
  }

  function WithOrderKey(key: string): Order -> bool
  {
    (o: Order) => o.id == key || o.orderNumber == key
  }

  /** `getOrderById`: the first order whose id or order number is the key. */
  function GetOrderById(orders: seq<Order>, key: string): (r: Result<Order>)
    ensures r.Ok? <==> exists i :: 0 <= i < |orders| && (orders[i].id == key || orders[i].orderNumber == key)
    ensures r.Ok? ==> exists k :: FirstMatch(orders, WithOrderKey(key), k) && r.data == orders[k]
    ensures r.Err? ==> r.error == "Order not found"
  {
    var k := FindIndex(orders, WithOrderKey(key));
    if k == -1 then Err("Order not found")
    else
      assert FirstMatch(orders, WithOrderKey(key), k);
      Ok(orders[k])
  }

  function ForUser(userId: string): Order -> bool { (o: Order) => o.userId == userId }

  /** `getUserOrders`: exactly that user's orders, in the order placed. */
  function GetUserOrders(orders: seq<Order>, userId: string): (r: seq<Order>)
    ensures IsSubseq(r, orders)
    ensures forall o :: o in r <==> o in orders && o.userId == userId
    ensures r == Filter(orders, ForUser(userId))
  {
    FilterIsSubseq(orders, ForUser(userId));
    forall o ensures o in Filter(orders, ForUser(userId)) <==> o in orders && o.userId == userId {
      FilterMember(orders, ForUser(userId), o);
    }
    Filter(orders, ForUser(userId))
  }

  /** The tracking view returned by `getOrderStatus`. */
  datatype StatusView = StatusView(
    orderNumber: string,
    status: OrderStatus,
    timeline: seq<TimelineStep>,
    estimatedDelivery: string,
    trackingNumber: string)

  /** `getOrderStatus`: by order number only (not by id). */
  function GetOrderStatus(orders: seq<Order>, orderNumber: string): (r: Result<StatusView>)
    ensures r.Ok? <==> exists i :: 0 <= i < |orders| && orders[i].orderNumber == orderNumber
    ensures r.Ok? ==>
      exists k :: FirstMatch(orders, (o: Order) => o.orderNumber == orderNumber, k) &&
        r.data == StatusView(orderNumber, orders[k].status, orders[k].timeline,
                             orders[k].estimatedDelivery, orders[k].trackingNumber)
    ensures r.Err? ==> r.error == "Order not found"
  {
    var k := FindIndex(orders, (o: Order) => o.orderNumber == orderNumber);
    if k == -1 then Err("Order not found")
    else
      var o := orders[k];
      assert FirstMatch(orders, (o: Order) => o.orderNumber == orderNumber, k);
      Ok(StatusView(o.orderNumber, o.status, o.timeline, o.estimatedDelivery, o.trackingNumber))
  }

  /** A placed order is found by its id when no earlier order uses that key,
      and is the newest entry of its user's order list. */
  lemma PlacedOrderFound(orders: seq<Order>, o: Order)
    requires forall i :: 0 <= i < |orders| ==> orders[i].id != o.id && orders[i].orderNumber != o.id
    ensures GetOrderById(orders + [o], o.id) == Ok(o)
    ensures GetUserOrders(orders + [o], o.userId) == GetUserOrders(orders, o.userId) + [o]
    ensures forall u :: u != o.userId ==> GetUserOrders(orders + [o], u) == GetUserOrders(orders, u)
  {
    var all := orders + [o];
    var hit := WithOrderKey(o.id);
    assert hit(all[|orders|]);
    forall i | 0 <= i < |orders| ensures !hit(all[i]) {
      assert all[i] == orders[i];
    }
    assert FindIndex(all, hit) == |orders|;
    FilterConcat(orders, [o], ForUser(o.userId));
    forall u | u != o.userId ensures GetUserOrders(orders + [o], u) == GetUserOrders(orders, u) {
      FilterConcat(orders, [o], ForUser(u));
    }
  }

  // ---------------------------------------------------------------------
  // The tables
  // ---------------------------------------------------------------------

  /** `mockProducts` (never written), `mockUsers` and `mockOrders`. */
  class MockBackend {
    const catalog: seq<Product>
    var users: seq<StoredUser>
    var orders: seq<Order>

    constructor (catalog: seq<Product>, users: seq<StoredUser>, orders: seq<Order>)
      ensures this.catalog == catalog && this.users == users && this.orders == orders
    {
      this.catalog := catalog;
      this.users := users;
      this.orders := orders;
    }

    /** `createUser`: a taken email is refused with the table untouched;
        otherwise exactly one row is appended. Distinct emails and
        duplicate-free wishlists stay so. */
    method CreateUser(data: NewUserData) returns (r: Result<User>)
      modifies this`users
      ensures EmailTaken(old(users), data.email) ==>
        r == Err("User already exists") && users == old(users)
      ensures !EmailTaken(old(users), data.email) ==>
        users == old(users) + [NewRecord(data, |old(users)|)] &&
        r == Ok(Public(NewRecord(data, |old(users)|))) &&
        r.data.wishlist == [] && r.data.orders == []
      ensures old(EmailsDistinct(users)) ==> EmailsDistinct(users)
      ensures old(WishlistsDistinct(users)) ==> WishlistsDistinct(users)
    {
      var k := FindIndex(users, WithEmail(data.email));
      if k != -1 {
        return Err("User already exists");
      }
      var row := NewRecord(data, |users|);
      if EmailsDistinct(users) {
        CreateKeepsEmailsDistinct(users, data);
      }
      users := users + [row];
      r := Ok(Public(row));
    }

    /** `updateUserProfile`: an unknown id is refused with no change;
        otherwise only the first row with that id is replaced by the
        patched row, and every other row is kept. */
    method UpdateUserProfile(id: string, patch: UserPatch) returns (r: Result<User>)
      modifies this`users
      ensures var k := FindIndex(old(users), WithId(id));
        (k == -1 ==> r == Err("User not found") && users == old(users)) &&
        (k >= 0 ==> users == old(users)[k := ApplyPatch(old(users)[k], patch)] && r == Ok(Public(users[k])))
    {
      var k := FindIndex(users, WithId(id));
      if k == -1 {
        return Err("User not found");
      }
      users := users[k := ApplyPatch(users[k], patch)];
      r := Ok(Public(users[k]));
    }

    /** `placeOrder`: always succeeds, appending exactly one order. */
    method PlaceOrder(data: OrderData, orderDigits: nat, today: string, deliveryDate: string, trackingDigits: nat)
      returns (r: Result<Order>)
      modifies this`orders
      ensures r.Ok? && r.data == NewOrder(data, |old(orders)|, orderDigits, today, deliveryDate, trackingDigits)
      ensures orders == old(orders) + [r.data]
    {
      var o := NewOrder(data, |orders|, orderDigits, today, deliveryDate, trackingDigits);
      orders := orders + [o];
      r := Ok(o);
    }

    /** `addToWishlist`: on the first row with that id, the product id is
        appended unless already there; the result is the new wishlist. */
    method AddToWishlist(userId: string, productId: string) returns (r: Result<seq<string>>)
      modifies this`users
      ensures var k := FindIndex(old(users), WithId(userId));
        (k == -1 ==> r == Err("User not found") && users == old(users)) &&
        (k >= 0 ==> users == old(users)[k := old(users)[k].(wishlist := AddOnce(old(users)[k].wishlist, productId))] &&
                    r == Ok(users[k].wishlist) && productId in users[k].wishlist)
      ensures old(WishlistsDistinct(users)) ==> WishlistsDistinct(users)
    {
      var k := FindIndex(users, WithId(userId));
      if k == -1 {
        return Err("User not found");
      }
      var wishlist := AddOnce(users[k].wishlist, productId);
      WishlistLaws(users[k].wishlist, productId);
      users := users[k := users[k].(wishlist := wishlist)];
      r := Ok(wishlist);
    }

    /** `removeFromWishlist`: on the first row with that id, every copy of
        the product id is dropped and the rest keep their order. */
    method RemoveFromWishlist(userId: string, productId: string) returns (r: Result<seq<string>>)
      modifies this`users
      ensures var k := FindIndex(old(users), WithId(userId));
        (k == -1 ==> r == Err("User not found") && users == old(users)) &&
        (k >= 0 ==> users == old(users)[k := old(users)[k].(wishlist := Without(old(users)[k].wishlist, productId))] &&
                    r == Ok(users[k].wishlist) && productId !in users[k].wishlist)
      ensures old(WishlistsDistinct(users)) ==> WishlistsDistinct(users)
    {
      var k := FindIndex(users, WithId(userId));
      if k == -1 {
        return Err("User not found");
      }
      var wishlist := Without(users[k].wishlist, productId);
      WishlistLaws(users[k].wishlist, productId);
      users := users[k := users[k].(wishlist := wishlist)];
      r := Ok(wishlist);
    }
  }
}
