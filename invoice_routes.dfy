/** POST /api/invoices, GET /api/invoices and GET /api/invoices/stats/revenue. */
module InvoiceRoutes {
  import opened Common
  import OM = OrderModel
  import IM = InvoiceModel
  import UserModel
  import MonthGroups
  import Store

  /** The body of POST /api/invoices. `markAsPaid` is taken by its
      truthiness. */
  datatype InvoiceRequest = InvoiceRequest(orderId: Option<Id>, paymentMethod: Option<string>, markAsPaid: bool)

  /** `Order.findById`: the first stored order with that id. */
  function FindOrder(os: seq<OM.Order>, id: Id): (r: Option<OM.Order>)
    ensures r.Some? ==> r.value.id == id && r.value in os
    ensures r.None? <==> forall k :: 0 <= k < |os| ==> os[k].id != id
  {
    if os == [] then None
    else if os[0].id == id then Some(os[0])
    else FindOrder(os[1..], id)
  }

  /** `Invoice.findOne({ order })` finds something. */
  predicate HasInvoiceFor(invs: seq<IM.Invoice>, order: Id) {
    exists k :: 0 <= k < |invs| && invs[k].order == order
  }

  /** `populate("user")` finds the order's user; when it does not,
      `order.user._id` throws. */
  predicate UserExists(us: seq<UserModel.User>, id: Id) {
    exists k :: 0 <= k < |us| && us[k].id == id
  }

  /** `paymentMethod || "card"`. */
  function MethodOrDefault(pm: Option<string>): (r: string)
    ensures Supplied(pm) ==> r == pm.value
    ensures !Supplied(pm) ==> IM.ParseMethod(r) == Some(IM.DefaultMethod)
  {
    if Supplied(pm) then pm.value else IM.MethodName(IM.DefaultMethod)
  }

  /** An invoice appended for an order that had none is afterwards the only
      invoice of that order. */
  lemma OnlyInvoiceOf(invs: seq<IM.Invoice>, inv: IM.Invoice)
    requires !HasInvoiceFor(invs, inv.order)
    ensures forall k :: 0 <= k < |invs + [inv]| && (invs + [inv])[k].order == inv.order ==> k == |invs|
  {
  }

  /** The part of POST /api/invoices after the checks: `Invoice.create` for
      an order that has no invoice yet. */
  method IssueInvoice(db: Store.Database, o: OM.Order, req: InvoiceRequest, now: Instant) returns (res: Response<IM.Invoice>)
    requires db.Valid() && o in db.orders && !HasInvoiceFor(db.invoices, o.id)
    modifies db
    ensures db.Valid()
    ensures res.Created? || res.ServerError?
    ensures res.ServerError? <==>
      !UserExists(old(db.users), o.user) || IM.ParseMethod(MethodOrDefault(req.paymentMethod)).None?
    ensures res.ServerError? ==> db.invoices == old(db.invoices) && db.nextId == old(db.nextId)
    ensures res.Created? ==>
      var inv := res.value;
      && db.invoices == old(db.invoices) + [inv] && db.nextId == old(db.nextId) + 1
      && inv.id == old(db.nextId) && inv.order == o.id && inv.user == o.user && inv.totalAmount == o.totalAmount
      && inv.status == (if req.markAsPaid then IM.Paid else IM.Unpaid)
      && inv.issuedAt == now && inv.paidAt == (if req.markAsPaid then Some(now) else None)
      && inv.paymentMethod.Some? && IM.MethodName(inv.paymentMethod.value) == MethodOrDefault(req.paymentMethod)
      && (forall k :: 0 <= k < |db.invoices| && db.invoices[k].order == inv.order ==> k == |old(db.invoices)|)
    ensures db.users == old(db.users) && db.products == old(db.products)
    ensures db.orders == old(db.orders) && db.reviews == old(db.reviews)
  {
    if !UserExists(db.users, o.user) {
      return ServerError;
    }
    var k :| 0 <= k < |db.orders| && db.orders[k] == o;
    assert OM.Valid(db.orders[k]);
    var status := if req.markAsPaid then IM.Paid else IM.Unpaid;
    IM.ParseStatusName(status);
    var paidAt := if req.markAsPaid then Some(now) else None;
    var candidate := IM.Cast(db.nextId, o.id, o.user, o.totalAmount, Some(IM.StatusName(status)), Some(now), paidAt,
                             IM.MethodGiven(MethodOrDefault(req.paymentMethod)), now);
    if candidate.None? {
      return ServerError;
    }
    var inv := candidate.value;
    assert Store.BilledFrom(inv, db.orders[k]);
    Store.AddInvoiceOk(db.users, db.products, db.orders, db.invoices, db.reviews, db.nextId, inv);
    OnlyInvoiceOf(db.invoices, inv);
    db.invoices := db.invoices + [inv];
    db.nextId := db.nextId + 1;
    res := Created(inv);
  }

  /** POST /api/invoices. */
  method CreateInvoice(db: Store.Database, req: InvoiceRequest, now: Instant) returns (res: Response<IM.Invoice>)
    requires db.Valid()
    modifies db
    ensures db.Valid()
    ensures res.BadRequest? <==> req.orderId.None?
    ensures res.NotFound? <==> req.orderId.Some? && FindOrder(old(db.orders), req.orderId.value).None?
    ensures res.Conflict? <==>
      req.orderId.Some? && FindOrder(old(db.orders), req.orderId.value).Some? && HasInvoiceFor(old(db.invoices), req.orderId.value)
    ensures res.ServerError? <==>
      && req.orderId.Some? && FindOrder(old(db.orders), req.orderId.value).Some?
      && !HasInvoiceFor(old(db.invoices), req.orderId.value)
      && (!UserExists(old(db.users), FindOrder(old(db.orders), req.orderId.value).value.user)
          || IM.ParseMethod(MethodOrDefault(req.paymentMethod)).None?)
    ensures !res.Created? ==> db.invoices == old(db.invoices) && db.nextId == old(db.nextId)
    ensures res.Created? ==>
      var inv := res.value;
      var o := FindOrder(old(db.orders), req.orderId.value).value;
      && db.invoices == old(db.invoices) + [inv] && db.nextId == old(db.nextId) + 1
      && inv.id == old(db.nextId) && inv.order == o.id && inv.user == o.user && inv.totalAmount == o.totalAmount
      && inv.status == (if req.markAsPaid then IM.Paid else IM.Unpaid)
      && inv.issuedAt == now && inv.paidAt == (if req.markAsPaid then Some(now) else None)
      && inv.paymentMethod.Some? && IM.MethodName(inv.paymentMethod.value) == MethodOrDefault(req.paymentMethod)
      && (forall k :: 0 <= k < |db.invoices| && db.invoices[k].order == inv.order ==> k == |old(db.invoices)|)
    ensures db.users == old(db.users) && db.products == old(db.products)
    ensures db.orders == old(db.orders) && db.reviews == old(db.reviews)
  {
    if req.orderId.None? {
      return BadRequest;
    }
    var found := FindOrder(db.orders, req.orderId.value);
    if found.None? {
      return NotFound;
    }
    var o := found.value;
    if HasInvoiceFor(db.invoices, o.id) {
      return Conflict;
    }
    res := IssueInvoice(db, o, req, now);
  }

  /** The query string of GET /api/invoices. An absent or empty `userId` is
      `None`; the dates are the already parsed `startDate` and `endDate`. */
  datatype InvoiceParams = InvoiceParams(userId: Option<Id>, status: Option<string>,
                                         startDate: Option<Instant>, endDate: Option<Instant>)

  /** The filter document the handler builds; a `None` key is left out. */
  datatype InvoiceQuery = InvoiceQuery(user: Option<Id>, status: Option<string>, issuedAt: Option<Range<Instant>>)

  /** How the store evaluates the filter document against an invoice. */
  predicate Matches(q: InvoiceQuery, inv: IM.Invoice) {
    && (q.user.Some? ==> inv.user == q.user.value)
    && (q.status.Some? ==> IM.StatusName(inv.status) == q.status.value)
    && (q.issuedAt.Some? ==> InInstantRange(q.issuedAt.value, inv.issuedAt))
  }

  /** The listing's meaning, stated on the parameters: the given user, the
      given status, issued no earlier than `startDate` and no later than
      `endDate`; every unsupplied parameter admits everything. */
  predicate Selects(p: InvoiceParams, inv: IM.Invoice) {
    && (p.userId.Some? ==> inv.user == p.userId.value)
    && (Supplied(p.status) ==> IM.StatusName(inv.status) == p.status.value)
    && (p.startDate.Some? ==> NotAfter(p.startDate.value, inv.issuedAt))
    && (p.endDate.Some? ==> NotAfter(inv.issuedAt, p.endDate.value))
  }

  function Selector(p: InvoiceParams): IM.Invoice -> bool {
    inv => Selects(p, inv)
  }

  /** Builds the filter document key by key, as the handler does. */
  method BuildInvoiceQuery(p: InvoiceParams) returns (q: InvoiceQuery)
    ensures q.user == p.userId
    ensures q.status.Some? <==> Supplied(p.status)
    ensures q.issuedAt.Some? <==> p.startDate.Some? || p.endDate.Some?
    ensures q.issuedAt.Some? ==> q.issuedAt.value.gte == p.startDate && q.issuedAt.value.lte == p.endDate
    ensures forall inv :: Matches(q, inv) <==> Selects(p, inv)
  {
    q := InvoiceQuery(None, None, None);
    if p.userId.Some? {
      q := q.(user := p.userId);
    }
    if Supplied(p.status) {
      q := q.(status := p.status);
    }
    if p.startDate.Some? || p.endDate.Some? {
      var range: Range<Instant> := Range(None, None);
      if p.startDate.Some? {
        range := range.(gte := p.startDate);
      }
      if p.endDate.Some? {
        range := range.(lte := p.endDate);
      }
      q := q.(issuedAt := Some(range));
    }
  }

  /** GET /api/invoices: the selected invoices in store order. */
  method ListInvoices(db: Store.Database, p: InvoiceParams) returns (r: seq<IM.Invoice>)
    ensures r == Filter(db.invoices, Selector(p))
    ensures forall i :: 0 <= i < |r| ==> r[i] in db.invoices && Selects(p, r[i])
    ensures forall i :: 0 <= i < |db.invoices| && Selects(p, db.invoices[i]) ==> db.invoices[i] in r
  {
    var q := BuildInvoiceQuery(p);
    var matches: IM.Invoice -> bool := inv => Matches(q, inv);
    r := Filter(db.invoices, matches);
    FilterAgrees(db.invoices, matches, Selector(p));
  }

  function IsPaid(inv: IM.Invoice): bool {
    inv.status == IM.Paid
  }

  function IssuedMonth(inv: IM.Invoice): YearMonth {
    MonthOf(inv.issuedAt)
  }

  function Billed(inv: IM.Invoice): int {
    inv.totalAmount
  }

  /** GET /api/invoices/stats/revenue: the paid invoices grouped by the month
      they were issued in. */
  function RevenueStats(invs: seq<IM.Invoice>): seq<MonthGroups.MonthTotal> {
    MonthGroups.Group(Filter(invs, IsPaid), IssuedMonth, Billed)
  }

  /** One row per month in which a paid invoice was issued, ascending; each
      row counts that month's paid invoices and sums their totals; together
      the rows count every paid invoice once and sum all paid revenue. */
  lemma RevenueStatsSpec(invs: seq<IM.Invoice>)
    ensures var paid := Filter(invs, IsPaid);
      var r := RevenueStats(invs);
      && MonthGroups.Ascending(r)
      && (forall i :: 0 <= i < |r| ==>
            r[i].count >= 1 && r[i].count == MonthGroups.CountIn(paid, IssuedMonth, r[i].month)
            && r[i].total == MonthGroups.SumIn(paid, IssuedMonth, Billed, r[i].month))
      && (forall m :: MonthGroups.HasMonth(r, m) <==> MonthGroups.CountIn(paid, IssuedMonth, m) > 0)
      && MonthGroups.Counts(r) == |paid| && MonthGroups.Totals(r) == SumAll(paid, Billed)
  {
    MonthGroups.GroupSpec(Filter(invs, IsPaid), IssuedMonth, Billed);
  }

  /** An invoice that is not paid never shows in the revenue. */
  lemma RevenueIgnoresUnpaid(invs: seq<IM.Invoice>, inv: IM.Invoice)
    requires !IsPaid(inv)
    ensures RevenueStats(invs + [inv]) == RevenueStats(invs)
  {
    FilterAppend(invs, [inv], IsPaid);
    assert Filter([inv], IsPaid) == [];
    assert Filter(invs, IsPaid) + [] == Filter(invs, IsPaid);
  }

  /** Paying an invoice adds its total to the revenue of the month it was
      issued in and leaves every other month's revenue alone. */
  lemma RevenueCountsPaid(invs: seq<IM.Invoice>, inv: IM.Invoice, m: YearMonth)
    requires IsPaid(inv)
    ensures MonthGroups.TotalOf(RevenueStats(invs + [inv]), m)
         == MonthGroups.TotalOf(RevenueStats(invs), m) + (if IssuedMonth(inv) == m then inv.totalAmount else 0)
  {
    var paid := Filter(invs, IsPaid);
    FilterAppend(invs, [inv], IsPaid);
    assert Filter([inv], IsPaid) == [inv];
    MonthGroups.GroupLookup(paid + [inv], IssuedMonth, Billed, m);
    MonthGroups.GroupLookup(paid, IssuedMonth, Billed, m);
    MonthGroups.SumInAppend(paid, [inv], IssuedMonth, Billed, m);
  }
}
