/** POST /api/users, GET /api/users and GET /api/users/stats/orders. */
module UserRoutes {
  import opened Common
  import opened Text
  import UM = UserModel
  import OM = OrderModel
  import Pagination
  import Sorting
  import Store

  /** The body of POST /api/users; a field that is absent or null is
      `None`. */
  datatype UserRequest = UserRequest(firstname: Option<string>, lastname: Option<string>, email: Option<string>,
                                     password: Option<string>, role: Option<string>)

  /** The guard: every one of the four required fields is truthy. */
  predicate HasRequired(req: UserRequest) {
    Supplied(req.firstname) && Supplied(req.lastname) && Supplied(req.email) && Supplied(req.password)
  }

  /** `User.findOne({ email })` finds someone. The `lowercase` setter of
      `email` applies to the value it is compared with. */
  predicate EmailTaken(us: seq<UM.User>, email: string) {
    exists k :: 0 <= k < |us| && us[k].email == Lower(email)
  }

  /** POST /api/users. The email validator is the parameter `isEmail`. */
  method CreateUser(db: Store.Database, req: UserRequest, now: Instant, isEmail: string -> bool)
    returns (res: Response<UM.User>)
    requires db.Valid()
    modifies db
    ensures db.Valid()
    ensures res.BadRequest? <==> !HasRequired(req)
    ensures res.Conflict? <==> HasRequired(req) && EmailTaken(old(db.users), req.email.value)
    ensures res.ServerError? <==>
      && HasRequired(req) && !EmailTaken(old(db.users), req.email.value)
      && UM.Cast(old(db.nextId), req.firstname.value, req.lastname.value, req.email.value, req.password.value,
                 req.role, now, isEmail).None?
    ensures !res.NotFound?
    ensures !res.Created? ==> db.users == old(db.users) && db.nextId == old(db.nextId)
    ensures res.Created? ==>
      var u := res.value;
      && db.users == old(db.users) + [u] && db.nextId == old(db.nextId) + 1
      && UM.Valid(u) && u.id == old(db.nextId) && u.createdAt == now
      && u.firstname == Trim(req.firstname.value) && u.lastname == Trim(req.lastname.value)
      && u.email == Lower(req.email.value) && u.password == req.password.value
      && u.role == (if req.role.None? then UM.DefaultRole else UM.ParseRole(req.role.value).value)
    ensures db.products == old(db.products) && db.orders == old(db.orders)
    ensures db.invoices == old(db.invoices) && db.reviews == old(db.reviews)
  {
    if !Supplied(req.firstname) || !Supplied(req.lastname) || !Supplied(req.email) || !Supplied(req.password) {
      return BadRequest;
    }
    if EmailTaken(db.users, req.email.value) {
      return Conflict;
    }
    var candidate := UM.Cast(db.nextId, req.firstname.value, req.lastname.value, req.email.value,
                             req.password.value, req.role, now, isEmail);
    if candidate.None? {
      return ServerError;
    }
    res := InsertUser(db, candidate.value);
  }

  /** The insert of a user that passed the schema under a fresh id, with an
      email no stored user has. */
  method InsertUser(db: Store.Database, u: UM.User) returns (res: Response<UM.User>)
    requires db.Valid() && UM.Valid(u) && u.id == db.nextId
    requires forall k :: 0 <= k < |db.users| ==> db.users[k].email != u.email
    modifies db
    ensures db.Valid()
    ensures res == Created(u)
    ensures db.users == old(db.users) + [u] && db.nextId == old(db.nextId) + 1
    ensures db.products == old(db.products) && db.orders == old(db.orders)
    ensures db.invoices == old(db.invoices) && db.reviews == old(db.reviews)
  {
    Store.AddUserOk(db.users, db.products, db.orders, db.invoices, db.reviews, db.nextId, u);
    db.users := db.users + [u];
    db.nextId := db.nextId + 1;
    res := Created(u);
  }

  /** The query string of GET /api/users; an absent or empty text is `None`,
      `page` and `limit` are after `Number(...)`. */
  datatype UserParams = UserParams(search: Option<string>, role: Option<string>, page: NumberParam, limit: NumberParam)

  /** The filter document the handler builds: `role` equality and a `$or` of
      three case-insensitive patterns; a `None` key is left out. */
  datatype UserQuery = UserQuery(role: Option<string>, anyName: Option<string>)

  /** How the store evaluates the filter document against a user. */
  predicate Matches(q: UserQuery, u: UM.User) {
    && (q.role.Some? ==> UM.RoleName(u.role) == q.role.value)
    && (q.anyName.Some? ==>
          ContainsIgnoreCase(u.firstname, q.anyName.value) || ContainsIgnoreCase(u.lastname, q.anyName.value)
          || ContainsIgnoreCase(u.email, q.anyName.value))
  }

  /** The listing's meaning, stated on the parameters: the given role, and
      the search text in the first name, the last name or the email. */
  predicate Selects(p: UserParams, u: UM.User) {
    && (Supplied(p.role) ==> UM.RoleName(u.role) == p.role.value)
    && (Supplied(p.search) ==>
          || ContainsIgnoreCase(u.firstname, p.search.value)
          || ContainsIgnoreCase(u.lastname, p.search.value)
          || ContainsIgnoreCase(u.email, p.search.value))
  }

  function Selector(p: UserParams): UM.User -> bool {
    u => Selects(p, u)
  }

  /** Builds the filter document key by key, as the handler does. */
  method BuildUserQuery(p: UserParams) returns (q: UserQuery)
    ensures q.role.Some? <==> Supplied(p.role)
    ensures q.anyName.Some? <==> Supplied(p.search)
    ensures forall u :: Matches(q, u) <==> Selects(p, u)
  {
    q := UserQuery(None, None);
    if Supplied(p.role) {
      q := q.(role := p.role);
    }
    if Supplied(p.search) {
      q := q.(anyName := p.search);
    }
  }

  /** `Number(x) || d`: `d` when the parameter is absent, NaN or 0. */
  function OrDefault(x: NumberParam, d: int): (r: int)
    ensures r != 0 || d == 0
    ensures x.Num? && x.n != 0 ==> r == x.n
    ensures !(x.Num? && x.n != 0) ==> r == d
  {
    if x.Num? && x.n != 0 then x.n else d
  }

  /** GET /api/users: one page of the selected users with their count, or a
      server error when the page makes the skip negative. */
  method ListUsers(db: Store.Database, p: UserParams) returns (r: Option<Pagination.Page<UM.User>>)
    ensures var page, limit := OrDefault(p.page, 1), OrDefault(p.limit, 10);
      r == Pagination.Respond(Filter(db.users, Selector(p)), page, limit, (page - 1) * limit)
    ensures r.Some? ==> r.value.limit != 0 && r.value.total == |Filter(db.users, Selector(p))|
    ensures r.Some? ==> forall i :: 0 <= i < |r.value.data| ==> r.value.data[i] in db.users && Selects(p, r.value.data[i])
  {
    var q := BuildUserQuery(p);
    var matches: UM.User -> bool := u => Matches(q, u);
    FilterAgrees(db.users, matches, Selector(p));
    var selected := Filter(db.users, matches);
    var page := OrDefault(p.page, 1);
    var limit := OrDefault(p.limit, 10);
    r := Pagination.Respond(selected, page, limit, (page - 1) * limit);
  }

  /** One output row of GET /api/users/stats/orders. */
  datatype UserSpend = UserSpend(user: Id, firstname: string, lastname: string, email: string, role: UM.Role,
                                 ordersCount: nat, totalSpent: int)

  function PlacedBy(id: Id): OM.Order -> bool {
    (o: OM.Order) => o.user == id
  }

  function Amount(o: OM.Order): int {
    o.totalAmount
  }

  /** The `$lookup` of a user's orders: those whose `user` is the user's id,
      in store order. */
  function OrdersOf(orders: seq<OM.Order>, id: Id): seq<OM.Order> {
    Filter(orders, PlacedBy(id))
  }

  /** The `$project` of one user: the projected fields, `$size` of the
      joined orders and `$sum` of their totals. */
  function SpendRow(u: UM.User, orders: seq<OM.Order>): UserSpend {
    var mine := OrdersOf(orders, u.id);
    UserSpend(u.id, u.firstname, u.lastname, u.email, u.role, |mine|, SumAll(mine, Amount))
  }

  function SpendRows(users: seq<UM.User>, orders: seq<OM.Order>): (r: seq<UserSpend>)
    ensures |r| == |users| && forall i :: 0 <= i < |users| ==> r[i] == SpendRow(users[i], orders)
  {
    seq(|users|, i requires 0 <= i < |users| => SpendRow(users[i], orders))
  }

  function Spent(r: UserSpend): real {
    r.totalSpent as real
  }

  function UserOf(r: UserSpend): Id {
    r.user
  }

  /** GET /api/users/stats/orders: a row per user, largest total spent
      first. */
  function OrderStats(users: seq<UM.User>, orders: seq<OM.Order>): seq<UserSpend> {
    Sorting.SortDesc(SpendRows(users, orders), Spent)
  }

  /** Every user has exactly one row (a user without orders too, with count 0
      and total 0); each row counts that user's orders and sums their totals;
      the rows run from the largest total spent to the smallest. */
  lemma OrderStatsSpec(users: seq<UM.User>, orders: seq<OM.Order>)
    requires forall i, j :: 0 <= i < j < |users| ==> users[i].id != users[j].id
    ensures var r := OrderStats(users, orders);
      && |r| == |users|
      && Sorting.SortedDesc(r, Spent)
      && Sorting.DistinctBy(r, UserOf)
      && (forall i :: 0 <= i < |r| ==>
            && (exists j :: 0 <= j < |users| && users[j].id == r[i].user && r[i] == SpendRow(users[j], orders))
            && r[i].ordersCount == |OrdersOf(orders, r[i].user)|
            && r[i].totalSpent == SumAll(OrdersOf(orders, r[i].user), Amount))
      && (forall j :: 0 <= j < |users| ==> SpendRow(users[j], orders) in r)
  {
    var rows := SpendRows(users, orders);
    var r := OrderStats(users, orders);
    assert Sorting.DistinctBy(rows, UserOf);
    Sorting.SortDistinct(rows, Spent, UserOf);
    forall i | 0 <= i < |r|
      ensures exists j :: 0 <= j < |users| && users[j].id == r[i].user && r[i] == SpendRow(users[j], orders)
    {
      Sorting.SortMembers(rows, Spent, r[i]);
      var j :| 0 <= j < |rows| && rows[j] == r[i];
    }
    forall j | 0 <= j < |users| ensures SpendRow(users[j], orders) in r {
      Sorting.SortMembers(rows, Spent, rows[j]);
    }
  }

  /** An order placed by one user adds to that user's row alone. */
  lemma NewOrderSpend(u: UM.User, orders: seq<OM.Order>, o: OM.Order)
    ensures var before, after := SpendRow(u, orders), SpendRow(u, orders + [o]);
      && after.ordersCount == before.ordersCount + (if o.user == u.id then 1 else 0)
      && after.totalSpent == before.totalSpent + (if o.user == u.id then o.totalAmount else 0)
  {
    FilterAppend(orders, [o], PlacedBy(u.id));
    SumAllAppend(OrdersOf(orders, u.id), Filter([o], PlacedBy(u.id)), Amount);
  }
}
