/** The Invoice schema: the record type, the `status` and `paymentMethod`
    enums with their defaults, and what `Invoice.create` does with the fields
    it is given. */
module InvoiceModel {
  import opened Common

  datatype InvoiceStatus = Unpaid | Paid | Cancelled

  function StatusName(s: InvoiceStatus): string {
    match s
    case Unpaid => "unpaid"
    case Paid => "paid"
    case Cancelled => "cancelled"
  }

  function ParseStatus(s: string): (r: Option<InvoiceStatus>)
    ensures r.Some? <==> s in {"unpaid", "paid", "cancelled"}
    ensures r.Some? ==> StatusName(r.value) == s
  {
    if s == "unpaid" then Some(Unpaid)
    else if s == "paid" then Some(Paid)
    else if s == "cancelled" then Some(Cancelled)
    else None
  }

  /** Every status is accepted under its own name. */
  lemma ParseStatusName(st: InvoiceStatus)
    ensures ParseStatus(StatusName(st)) == Some(st)
  {
  }

  const DefaultStatus: InvoiceStatus := Unpaid

  datatype PaymentMethod = Card | Cash | Paypal | BankTransfer

  function MethodName(m: PaymentMethod): string {
    match m
    case Card => "card"
    case Cash => "cash"
    case Paypal => "paypal"
    case BankTransfer => "bank_transfer"
  }

  function ParseMethod(s: string): (r: Option<PaymentMethod>)
    ensures r.Some? <==> s in {"card", "cash", "paypal", "bank_transfer"}
    ensures r.Some? ==> MethodName(r.value) == s
  {
    if s == "card" then Some(Card)
    else if s == "cash" then Some(Cash)
    else if s == "paypal" then Some(Paypal)
    else if s == "bank_transfer" then Some(BankTransfer)
    else None
  }

  const DefaultMethod: PaymentMethod := Card

  /** The `paymentMethod` field handed to `Invoice.create`: left out, `null`
      (which the enum admits), or a string. */
  datatype MethodInput = MethodAbsent | MethodNull | MethodGiven(name: string)

  /** A stored invoice; `paymentMethod` is `None` for a stored `null`. */
  datatype Invoice = Invoice(id: Id, order: Id, user: Id, totalAmount: int, status: InvoiceStatus,
                             issuedAt: Instant, paidAt: Option<Instant>,
                             paymentMethod: Option<PaymentMethod>, createdAt: Instant)

  predicate Valid(inv: Invoice) {
    inv.totalAmount >= 0
  }

  /** `Invoice.create`: applies the defaults (`status` unpaid, `issuedAt` now,
      `paymentMethod` card), checks the enums and the minimum, and builds the
      stored record, or fails. */
  function Cast(id: Id, order: Id, user: Id, totalAmount: int, status: Option<string>,
                issuedAt: Option<Instant>, paidAt: Option<Instant>, paymentMethod: MethodInput,
                now: Instant): (r: Option<Invoice>)
    ensures r.Some? <==> (totalAmount >= 0 && (status.None? || ParseStatus(status.value).Some?)
                          && (paymentMethod.MethodGiven? ==> ParseMethod(paymentMethod.name).Some?))
    ensures r.Some? ==> Valid(r.value)
    ensures r.Some? ==> r.value.id == id && r.value.order == order && r.value.user == user
                        && r.value.totalAmount == totalAmount && r.value.paidAt == paidAt
                        && r.value.createdAt == now
    ensures r.Some? ==> r.value.status == (if status.None? then DefaultStatus else ParseStatus(status.value).value)
    ensures r.Some? ==> r.value.issuedAt == (if issuedAt.None? then now else issuedAt.value)
    ensures r.Some? && paymentMethod.MethodAbsent? ==> r.value.paymentMethod == Some(DefaultMethod)
    ensures r.Some? && paymentMethod.MethodNull? ==> r.value.paymentMethod == None
    ensures r.Some? && paymentMethod.MethodGiven? ==>
              r.value.paymentMethod.Some? && MethodName(r.value.paymentMethod.value) == paymentMethod.name
  {
    var st := if status.None? then Some(DefaultStatus) else ParseStatus(status.value);
    var pm := match paymentMethod
      case MethodAbsent => Some(Some(DefaultMethod))
      case MethodNull => Some(None)
      case MethodGiven(name) => if ParseMethod(name).Some? then Some(Some(ParseMethod(name).value)) else None;
    if totalAmount >= 0 && st.Some? && pm.Some? then
      Some(Invoice(id, order, user, totalAmount, st.value,
                   if issuedAt.None? then now else issuedAt.value, paidAt, pm.value, now))
    else None
  }
}
