/** The document store as the routes see it: five collections kept in
    insertion order and the generator of fresh record ids. `Valid` is what the
    route handlers keep true of it. */
module Store {
  import opened Common
  import UserModel
  import ProductModel
  import OrderModel
  import InvoiceModel
  import ReviewModel

  predicate UsersOk(us: seq<UserModel.User>, next: nat) {
    && (forall i :: 0 <= i < |us| ==> UserModel.Valid(us[i]) && us[i].id < next)
    && (forall i, j :: 0 <= i < j < |us| ==> us[i].id != us[j].id && us[i].email != us[j].email)
  }

  predicate ProductsOk(ps: seq<ProductModel.Product>, next: nat) {
    && (forall i :: 0 <= i < |ps| ==> ProductModel.Valid(ps[i]) && ps[i].id < next)
    && (forall i, j :: 0 <= i < j < |ps| ==> ps[i].id != ps[j].id)
  }

  /** Stored orders satisfy their schema, and each total is the sum of its
      items' `quantity * priceAtOrder`. */
  predicate OrdersOk(os: seq<OrderModel.Order>, next: nat) {
    && (forall i :: 0 <= i < |os| ==>
          OrderModel.Valid(os[i]) && os[i].totalAmount == OrderModel.Subtotal(os[i].items) && os[i].id < next)
    && (forall i, j :: 0 <= i < j < |os| ==> os[i].id != os[j].id)
  }

  /** The invoice `inv` was drawn from order `o`. */
  predicate BilledFrom(inv: InvoiceModel.Invoice, o: OrderModel.Order) {
    inv.order == o.id && inv.user == o.user && inv.totalAmount == o.totalAmount
  }

  /** Some stored order is the one `inv` was drawn from. */
  predicate BilledBy(inv: InvoiceModel.Invoice, os: seq<OrderModel.Order>) {
    exists k :: 0 <= k < |os| && BilledFrom(inv, os[k])
  }

  predicate EveryInvoiceBilled(invs: seq<InvoiceModel.Invoice>, os: seq<OrderModel.Order>) {
    forall i :: 0 <= i < |invs| ==> BilledBy(invs[i], os)
  }

  lemma BilledMoreOrders(invs: seq<InvoiceModel.Invoice>, os: seq<OrderModel.Order>, o: OrderModel.Order)
    requires EveryInvoiceBilled(invs, os)
    ensures EveryInvoiceBilled(invs, os + [o])
  {
    forall i | 0 <= i < |invs| ensures BilledBy(invs[i], os + [o]) {
      var k :| 0 <= k < |os| && BilledFrom(invs[i], os[k]);
      assert (os + [o])[k] == os[k];
    }
  }

  /** Stored invoices satisfy their schema, at most one exists per order, each
      copies an existing order's user and total, and `paidAt` is set exactly
      on the paid ones. */
  predicate InvoicesOk(invs: seq<InvoiceModel.Invoice>, os: seq<OrderModel.Order>, next: nat) {
    && (forall i :: 0 <= i < |invs| ==> InvoiceModel.Valid(invs[i]) && invs[i].id < next)
    && (forall i, j :: 0 <= i < j < |invs| ==> invs[i].id != invs[j].id && invs[i].order != invs[j].order)
    && EveryInvoiceBilled(invs, os)
    && (forall i :: 0 <= i < |invs| ==> (invs[i].paidAt.Some? <==> invs[i].status == InvoiceModel.Paid))
  }

  /** Stored reviews have a rating in [1, 5] and at most one exists per
      (user, product). */
  predicate ReviewsOk(rs: seq<ReviewModel.Review>, next: nat) {
    && (forall i :: 0 <= i < |rs| ==> 1.0 <= rs[i].rating <= 5.0 && rs[i].id < next)
    && (forall i, j :: 0 <= i < j < |rs| ==> rs[i].id != rs[j].id)
    && (forall i, j :: 0 <= i < j < |rs| ==> !ReviewModel.SamePair(rs[j], rs[i].user, rs[i].product))
  }

  /** What the route handlers keep true of the whole store. */
  predicate StoreOk(us: seq<UserModel.User>, ps: seq<ProductModel.Product>, os: seq<OrderModel.Order>,
                    invs: seq<InvoiceModel.Invoice>, rs: seq<ReviewModel.Review>, next: nat) {
    UsersOk(us, next) && ProductsOk(ps, next) && OrdersOk(os, next) && InvoicesOk(invs, os, next) && ReviewsOk(rs, next)
  }

  /** Handing out one more id keeps every invariant. */
  lemma {:induction false} StoreOkNextId(us: seq<UserModel.User>, ps: seq<ProductModel.Product>, os: seq<OrderModel.Order>,
                                         invs: seq<InvoiceModel.Invoice>, rs: seq<ReviewModel.Review>, next: nat)
    requires StoreOk(us, ps, os, invs, rs, next)
    ensures StoreOk(us, ps, os, invs, rs, next + 1)
  {
  }

  /** Appending an order that satisfies its schema, whose total is its
      subtotal and whose id is fresh keeps the store valid. */
  lemma {:induction false} AddOrderOk(us: seq<UserModel.User>, ps: seq<ProductModel.Product>, os: seq<OrderModel.Order>,
                                      invs: seq<InvoiceModel.Invoice>, rs: seq<ReviewModel.Review>, next: nat,
                                      o: OrderModel.Order)
    requires StoreOk(us, ps, os, invs, rs, next)
    requires OrderModel.Valid(o) && o.totalAmount == OrderModel.Subtotal(o.items) && o.id == next
    ensures StoreOk(us, ps, os + [o], invs, rs, next + 1)
  {
    StoreOkNextId(us, ps, os, invs, rs, next);
    BilledMoreOrders(invs, os, o);
  }

  /** Appending an invoice with a fresh id, drawn from a stored order that has
      no invoice yet, with `paidAt` set exactly when it is paid, keeps the
      store valid. */
  lemma {:induction false} AddInvoiceOk(us: seq<UserModel.User>, ps: seq<ProductModel.Product>, os: seq<OrderModel.Order>,
                                        invs: seq<InvoiceModel.Invoice>, rs: seq<ReviewModel.Review>, next: nat,
                                        inv: InvoiceModel.Invoice)
    requires StoreOk(us, ps, os, invs, rs, next)
    requires InvoiceModel.Valid(inv) && inv.id == next && BilledBy(inv, os)
    requires forall k :: 0 <= k < |invs| ==> invs[k].order != inv.order
    requires inv.paidAt.Some? <==> inv.status == InvoiceModel.Paid
    ensures StoreOk(us, ps, os, invs + [inv], rs, next + 1)
  {
    StoreOkNextId(us, ps, os, invs, rs, next);
    var invs' := invs + [inv];
    forall i | 0 <= i < |invs'| ensures BilledBy(invs'[i], os) {
      if i < |invs| {
        assert invs'[i] == invs[i];
      }
    }
  }

  /** Appending a review with a fresh id, a rating in [1, 5] and a (user,
      product) pair no stored review has keeps the store valid. */
  lemma {:induction false} InsertReviewOk(us: seq<UserModel.User>, ps: seq<ProductModel.Product>, os: seq<OrderModel.Order>,
                                          invs: seq<InvoiceModel.Invoice>, rs: seq<ReviewModel.Review>, next: nat,
                                          r: ReviewModel.Review)
    requires StoreOk(us, ps, os, invs, rs, next)
    requires r.id == next && 1.0 <= r.rating <= 5.0
    requires forall k :: 0 <= k < |rs| ==> !ReviewModel.SamePair(rs[k], r.user, r.product)
    ensures StoreOk(us, ps, os, invs, rs + [r], next + 1)
  {
    StoreOkNextId(us, ps, os, invs, rs, next);
  }

  /** Replacing a stored review by one with the same id, user and product and
      a rating in [1, 5] keeps the store valid. */
  lemma {:induction false} UpdateReviewOk(us: seq<UserModel.User>, ps: seq<ProductModel.Product>, os: seq<OrderModel.Order>,
                                          invs: seq<InvoiceModel.Invoice>, rs: seq<ReviewModel.Review>, next: nat,
                                          i: nat, r: ReviewModel.Review)
    requires StoreOk(us, ps, os, invs, rs, next) && i < |rs|
    requires r.id == rs[i].id && r.user == rs[i].user && r.product == rs[i].product && 1.0 <= r.rating <= 5.0
    ensures StoreOk(us, ps, os, invs, rs[i := r], next)
  {
  }

  /** Appending a user that satisfies its schema, with a fresh id and an
      email no stored user has, keeps the store valid. */
  lemma {:induction false} AddUserOk(us: seq<UserModel.User>, ps: seq<ProductModel.Product>, os: seq<OrderModel.Order>,
                                     invs: seq<InvoiceModel.Invoice>, rs: seq<ReviewModel.Review>, next: nat,
                                     u: UserModel.User)
    requires StoreOk(us, ps, os, invs, rs, next)
    requires UserModel.Valid(u) && u.id == next
    requires forall k :: 0 <= k < |us| ==> us[k].email != u.email
    ensures StoreOk(us + [u], ps, os, invs, rs, next + 1)
  {
    StoreOkNextId(us, ps, os, invs, rs, next);
  }

  /** Appending a product that satisfies its schema, with a fresh id, keeps
      the store valid. */
  lemma {:induction false} AddProductOk(us: seq<UserModel.User>, ps: seq<ProductModel.Product>, os: seq<OrderModel.Order>,
                                        invs: seq<InvoiceModel.Invoice>, rs: seq<ReviewModel.Review>, next: nat,
                                        p: ProductModel.Product)
    requires StoreOk(us, ps, os, invs, rs, next)
    requires ProductModel.Valid(p) && p.id == next
    ensures StoreOk(us, ps + [p], os, invs, rs, next + 1)
  {
    StoreOkNextId(us, ps, os, invs, rs, next);
  }

  class Database {
    var users: seq<UserModel.User>
    var products: seq<ProductModel.Product>
    var orders: seq<OrderModel.Order>
    var invoices: seq<InvoiceModel.Invoice>
    var reviews: seq<ReviewModel.Review>
    /** Every id handed out so far is below this one. */
    var nextId: nat

    ghost predicate Valid()
      reads this
    {
      StoreOk(users, products, orders, invoices, reviews, nextId)
    }

    /** An empty store. */
    constructor ()
      ensures Valid()
      ensures users == [] && products == [] && orders == [] && invoices == [] && reviews == []
    {
      users, products, orders, invoices, reviews := [], [], [], [], [];
      nextId := 0;
    }
  }
}
