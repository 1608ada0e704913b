/** POST /api/products, GET /api/products and GET /api/products/stats/basic. */
module ProductRoutes {
  import opened Common
  import opened Text
  import PM = ProductModel
  import Pagination
  import Store

  /** The body of POST /api/products; a text or price that is absent or null
      is `None`, and `stock` keeps apart a stock left out and a `null` one. */
  datatype ProductRequest = ProductRequest(name: Option<string>, description: Option<string>, price: Option<int>,
                                           stock: PM.StockInput, category: Option<string>)

  /** The guard `!name || price == null`, negated. */
  predicate HasNameAndPrice(req: ProductRequest) {
    Supplied(req.name) && req.price.Some?
  }

  /** POST /api/products. */
  method CreateProduct(db: Store.Database, req: ProductRequest, now: Instant) returns (res: Response<PM.Product>)
    requires db.Valid()
    modifies db
    ensures db.Valid()
    ensures res.BadRequest? <==> !HasNameAndPrice(req)
    ensures res.ServerError? <==>
      HasNameAndPrice(req) && PM.Cast(old(db.nextId), req.name.value, req.description, req.price.value,
                                      req.stock, req.category, now).None?
    ensures res.NotFound? == res.Conflict? == false
    ensures !res.Created? ==> db.products == old(db.products) && db.nextId == old(db.nextId)
    ensures res.Created? ==>
      var p := res.value;
      && db.products == old(db.products) + [p] && db.nextId == old(db.nextId) + 1
      && PM.Valid(p) && p.id == old(db.nextId) && p.createdAt == now
      && p.name == Trim(req.name.value) && p.price == req.price.value
      && p.description == PM.TrimOpt(req.description) && p.category == PM.TrimOpt(req.category)
      && p.stock == (match req.stock
                     case StockAbsent => Some(PM.DefaultStock)
                     case StockNull => None
                     case StockGiven(n) => Some(n))
    ensures db.users == old(db.users) && db.orders == old(db.orders)
    ensures db.invoices == old(db.invoices) && db.reviews == old(db.reviews)
  {
    if !Supplied(req.name) || req.price.None? {
      return BadRequest;
    }
    var candidate := PM.Cast(db.nextId, req.name.value, req.description, req.price.value, req.stock, req.category, now);
    if candidate.None? {
      return ServerError;
    }
    var p := candidate.value;
    Store.AddProductOk(db.users, db.products, db.orders, db.invoices, db.reviews, db.nextId, p);
    db.products := db.products + [p];
    db.nextId := db.nextId + 1;
    res := Created(p);
  }

  /** The query string of GET /api/products. An absent or empty text or price
      is `None`; the prices are the values of `Number(minPrice)` and
      `Number(maxPrice)`; `page` and `limit` are after `Number(...)`. */
  datatype ProductParams = ProductParams(search: Option<string>, category: Option<string>,
                                         minPrice: Option<int>, maxPrice: Option<int>,
                                         page: NumberParam, limit: NumberParam)

  /** The filter document the handler builds; a `None` key is left out.
      `name` holds the case-insensitive pattern. */
  datatype ProductQuery = ProductQuery(category: Option<string>, name: Option<string>, price: Option<Range<int>>)

  /** How the store evaluates the filter document against a product. The
      `trim` setter of `category` applies to the value it is compared with. */
  predicate Matches(q: ProductQuery, p: PM.Product) {
    && (q.category.Some? ==> p.category == Some(Trim(q.category.value)))
    && (q.name.Some? ==> ContainsIgnoreCase(p.name, q.name.value))
    && (q.price.Some? ==> InIntRange(q.price.value, p.price))
  }

  /** The listing's meaning, stated on the parameters. */
  predicate Selects(params: ProductParams, p: PM.Product) {
    && (Supplied(params.category) ==> p.category == Some(Trim(params.category.value)))
    && (Supplied(params.search) ==> ContainsIgnoreCase(p.name, params.search.value))
    && (params.minPrice.Some? ==> params.minPrice.value <= p.price)
    && (params.maxPrice.Some? ==> p.price <= params.maxPrice.value)
  }

  function Selector(params: ProductParams): PM.Product -> bool {
    p => Selects(params, p)
  }

  /** Builds the filter document key by key, as the handler does. */
  method BuildProductQuery(params: ProductParams) returns (q: ProductQuery)
    ensures q.category.Some? <==> Supplied(params.category)
    ensures q.name.Some? <==> Supplied(params.search)
    ensures q.price.Some? <==> params.minPrice.Some? || params.maxPrice.Some?
    ensures q.price.Some? ==> q.price.value.gte == params.minPrice && q.price.value.lte == params.maxPrice
    ensures forall p :: Matches(q, p) <==> Selects(params, p)
  {
    q := ProductQuery(None, None, None);
    if Supplied(params.category) {
      q := q.(category := params.category);
    }
    if Supplied(params.search) {
      q := q.(name := params.search);
    }
    if params.minPrice.Some? || params.maxPrice.Some? {
      var range: Range<int> := Range(None, None);
      if params.minPrice.Some? {
        range := range.(gte := params.minPrice);
      }
      if params.maxPrice.Some? {
        range := range.(lte := params.maxPrice);
      }
      q := q.(price := Some(range));
    }
  }

  /** `page = 1` and `limit = 10` as defaults of an absent parameter, then
      `Number(...)`. */
  function PageNumber(page: NumberParam): int
    requires !page.NaN?
  {
    if page.Absent? then 1 else page.n
  }

  function LimitNumber(limit: NumberParam): int
    requires !limit.NaN?
  {
    if limit.Absent? then 10 else limit.n
  }

  /** GET /api/products: one page of the selected products with their
      count, or a server error when the page makes the skip negative. */
  method ListProducts(db: Store.Database, params: ProductParams) returns (r: Option<Pagination.Page<PM.Product>>)
    requires !params.page.NaN? && !params.limit.NaN?
    ensures var page, limit := PageNumber(params.page), LimitNumber(params.limit);
      r == Pagination.Respond(Filter(db.products, Selector(params)), page, limit, (page - 1) * limit)
    ensures r.Some? ==> r.value.total == |Filter(db.products, Selector(params))|
    ensures r.Some? ==> forall i :: 0 <= i < |r.value.data| ==> r.value.data[i] in db.products && Selects(params, r.value.data[i])
  {
    var q := BuildProductQuery(params);
    var matches: PM.Product -> bool := p => Matches(q, p);
    FilterAgrees(db.products, matches, Selector(params));
    var selected := Filter(db.products, matches);
    var page := PageNumber(params.page);
    var limit := LimitNumber(params.limit);
    r := Pagination.Respond(selected, page, limit, (page - 1) * limit);
  }

  /** The single row of GET /api/products/stats/basic. */
  datatype PriceStats = PriceStats(avgPrice: real, minPrice: int, maxPrice: int, count: nat)

  function MinInt(a: int, b: int): int {
    if a <= b then a else b
  }

  function MaxInt(a: int, b: int): int {
    if a >= b then a else b
  }

  /** The running `$sum`, `$min`, `$max` and count of the prices. */
  datatype PriceAcc = PriceAcc(sum: int, min: int, max: int, count: nat)

  function SumPrices(ps: seq<PM.Product>): int {
    if ps == [] then 0 else ps[0].price + SumPrices(ps[1..])
  }

  /** One more price `x` keeps the sum between count times the minimum and
      count times the maximum. */
  lemma StepPrice(c: int, x: int, lo: int, hi: int, s: int)
    requires c >= 0 && c * lo <= s <= c * hi
    ensures (c + 1) * MinInt(x, lo) <= x + s <= (c + 1) * MaxInt(x, hi)
  {
    assert c * MinInt(x, lo) <= c * lo;
    assert c * hi <= c * MaxInt(x, hi);
  }

  /** The accumulated figures of a non-empty list of products. */
  function Summarize(ps: seq<PM.Product>): (a: PriceAcc)
    requires ps != []
    ensures a.count == |ps| && a.sum == SumPrices(ps)
    ensures (a.count as int) * a.min <= a.sum <= (a.count as int) * a.max
    ensures forall k :: 0 <= k < |ps| ==> a.min <= ps[k].price <= a.max
    ensures exists k :: 0 <= k < |ps| && ps[k].price == a.min
    ensures exists k :: 0 <= k < |ps| && ps[k].price == a.max
  {
    var x := ps[0].price;
    if |ps| == 1 then PriceAcc(x, x, x, 1)
    else
      var rest := Summarize(ps[1..]);
      StepPrice(rest.count, x, rest.min, rest.max, rest.sum);
      var a := PriceAcc(x + rest.sum, MinInt(x, rest.min), MaxInt(x, rest.max), rest.count + 1);
      var i :| 0 <= i < |ps[1..]| && ps[1..][i].price == rest.min;
      var j :| 0 <= j < |ps[1..]| && ps[1..][j].price == rest.max;
      assert ps[i + 1].price == rest.min && ps[j + 1].price == rest.max;
      forall k | 0 < k < |ps| ensures a.min <= ps[k].price <= a.max {
        assert ps[k] == ps[1..][k - 1];
      }
      a
  }

  /** GET /api/products/stats/basic: `None` (the empty object) when there are
      no products, else the average, minimum, maximum and count of the
      prices. */
  function BasicStats(ps: seq<PM.Product>): (r: Option<PriceStats>)
    ensures r.None? <==> ps == []
  {
    if ps == [] then None
    else
      var a := Summarize(ps);
      Some(PriceStats((a.sum as real) / (a.count as real), a.min, a.max, a.count))
  }

  lemma BetweenInt(c: int, lo: int, s: int, hi: int)
    requires c > 0 && c * lo <= s <= c * hi
    ensures (lo as real) <= (s as real) / (c as real) <= (hi as real)
  {
    assert (c as real) * (lo as real) == (c * lo) as real;
    assert (c as real) * (hi as real) == (c * hi) as real;
  }

  /** The statistics of a non-empty catalogue: the count of all products, the
      smallest and the largest price (each the price of some product), and
      the mean price, which lies between them. */
  lemma BasicStatsSpec(ps: seq<PM.Product>)
    requires ps != []
    ensures var r := BasicStats(ps).value;
      && r.count == |ps|
      && (forall k :: 0 <= k < |ps| ==> r.minPrice <= ps[k].price <= r.maxPrice)
      && (exists k :: 0 <= k < |ps| && ps[k].price == r.minPrice)
      && (exists k :: 0 <= k < |ps| && ps[k].price == r.maxPrice)
      && r.avgPrice == (SumPrices(ps) as real) / (|ps| as real)
      && (r.minPrice as real) <= r.avgPrice <= (r.maxPrice as real)
  {
    var a := Summarize(ps);
    BetweenInt(a.count, a.min, a.sum, a.max);
  }
}
