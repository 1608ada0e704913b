/** The Product schema: the record type, its bounds and defaults, and what
    `Product.create` does with the fields it is given. */
module ProductModel {
  import opened Common
  import opened Text

  /** A stored product; `stock` is `None` for a stored `null`. */
  datatype Product = Product(id: Id, name: string, description: Option<string>, price: int,
                             stock: Option<int>, category: Option<string>, createdAt: Instant)

  /** The `stock` handed to `Product.create`: left out, `null`, or a number.
      The `default` applies only to a stock left out; `null` passes `min`. */
  datatype StockInput = StockAbsent | StockNull | StockGiven(n: int)

  function TrimOpt(s: Option<string>): Option<string> {
    if s.None? then None else Some(Trim(s.value))
  }

  /** The schema's constraints: a non-empty trimmed name, trimmed optional
      texts, and a price and a stock that are not negative. */
  predicate Valid(p: Product) {
    && p.name != [] && Trimmed(p.name)
    && (p.description.Some? ==> Trimmed(p.description.value))
    && (p.category.Some? ==> Trimmed(p.category.value))
    && p.price >= 0 && (p.stock.Some? ==> p.stock.value >= 0)
  }

  /** The `default` of `stock`. */
  const DefaultStock := 0

  /** `Product.create`: trims the texts, defaults a stock left out to 0 and
      keeps a `null` one, then checks that the trimmed name is not empty and
      that price and a given stock are not negative. */
  function Cast(id: Id, name: string, description: Option<string>, price: int, stock: StockInput,
                category: Option<string>, now: Instant): (r: Option<Product>)
    ensures r.Some? <==> Trim(name) != [] && price >= 0 && (stock.StockGiven? ==> stock.n >= 0)
    ensures r.Some? ==> Valid(r.value)
    ensures r.Some? ==> r.value.id == id && r.value.name == Trim(name) && r.value.price == price
                        && r.value.description == TrimOpt(description)
                        && r.value.category == TrimOpt(category) && r.value.createdAt == now
    ensures r.Some? && stock.StockAbsent? ==> r.value.stock == Some(DefaultStock)
    ensures r.Some? && stock.StockNull? ==> r.value.stock == None
    ensures r.Some? && stock.StockGiven? ==> r.value.stock == Some(stock.n)
  {
    var st := match stock
      case StockAbsent => Some(DefaultStock)
      case StockNull => None
      case StockGiven(n) => Some(n);
    if Trim(name) != [] && price >= 0 && (st.Some? ==> st.value >= 0) then
      Some(Product(id, Trim(name), TrimOpt(description), price, st, TrimOpt(category), now))
    else None
  }

  /** A stored product passes validation again unchanged. */
  lemma CastStored(p: Product)
    requires Valid(p)
    ensures var stock := if p.stock.None? then StockNull else StockGiven(p.stock.value);
      Cast(p.id, p.name, p.description, p.price, stock, p.category, p.createdAt) == Some(p)
  {
    TrimTrimmed(p.name);
    if p.description.Some? { TrimTrimmed(p.description.value); }
    if p.category.Some? { TrimTrimmed(p.category.value); }
    assert TrimOpt(p.description) == p.description;
    assert TrimOpt(p.category) == p.category;
  }
}
