/** Values shared by every collection and route: optional fields, handler
    outcomes, identifiers, timestamps and order-preserving selection. */
module Common {

  datatype Option<T> = None | Some(value: T)

  /** A record identifier (a store ObjectId). In a request, an id field that
      is absent, null or the empty string is `None`. */
  type Id = nat

  /** The outcome of a POST handler: 201 with the stored record, or one of the
      error statuses. `ServerError` is the 500 branch, reached when the store
      refuses the record the handler built (schema validation). */
  datatype Response<T> = Created(value: T) | BadRequest | NotFound | Conflict | ServerError

  /** A string body or query field. JavaScript treats `undefined`, `null` and
      "" as falsy; all three are "not supplied" here. */
  predicate Supplied(s: Option<string>) {
    s.Some? && s.value != ""
  }

  /** A numeric query parameter after `Number(...)`: absent, a number, or NaN. */
  datatype NumberParam = Absent | Num(n: int) | NaN

  /** Calendar year and month, the key of the monthly statistics. */
  datatype YearMonth = YearMonth(year: int, month: int)

  predicate MonthBefore(a: YearMonth, b: YearMonth) {
    a.year < b.year || (a.year == b.year && a.month < b.month)
  }

  /** A point in time: its calendar year and month and its offset inside that
      month. Instants are ordered lexicographically. */
  datatype Instant = Instant(year: int, month: int, offset: int)

  function MonthOf(t: Instant): YearMonth {
    YearMonth(t.year, t.month)
  }

  predicate NotAfter(a: Instant, b: Instant) {
    a.year < b.year || (a.year == b.year && (a.month < b.month || (a.month == b.month && a.offset <= b.offset)))
  }

  /** An inclusive range predicate of the store's query language: `$gte` and
      `$lte`, each optional. */
  datatype Range<T> = Range(gte: Option<T>, lte: Option<T>)

  predicate InIntRange(r: Range<int>, v: int) {
    (r.gte.Some? ==> r.gte.value <= v) && (r.lte.Some? ==> v <= r.lte.value)
  }

  predicate InRealRange(r: Range<real>, v: real) {
    (r.gte.Some? ==> r.gte.value <= v) && (r.lte.Some? ==> v <= r.lte.value)
  }

  predicate InInstantRange(r: Range<Instant>, t: Instant) {
    (r.gte.Some? ==> NotAfter(r.gte.value, t)) && (r.lte.Some? ==> NotAfter(t, r.lte.value))
  }

  /** The records of `s` that satisfy `p`, in store (insertion) order: what a
      `find(query)` returns. */
  function Filter<T>(s: seq<T>, p: T -> bool): (r: seq<T>)
    ensures |r| <= |s|
    ensures forall i :: 0 <= i < |r| ==> r[i] in s && p(r[i])
    ensures forall i :: 0 <= i < |s| && p(s[i]) ==> s[i] in r
  {
    if s == [] then []
    else if p(s[0]) then [s[0]] + Filter(s[1..], p)
    else Filter(s[1..], p)
  }

  /** A `$sum` of an amount over records; 0 for no records. */
  function SumAll<T>(s: seq<T>, amount: T -> int): int {
    if s == [] then 0 else amount(s[0]) + SumAll(s[1..], amount)
  }

  /** The sum over a concatenation is the sum of the sums. */
  lemma {:induction false} SumAllAppend<T>(s: seq<T>, t: seq<T>, amount: T -> int)
    ensures SumAll(s + t, amount) == SumAll(s, amount) + SumAll(t, amount)
  {
    if s == [] {
      assert s + t == t;
    } else {
      assert (s + t)[1..] == s[1..] + t;
      SumAllAppend(s[1..], t, amount);
    }
  }

  /** Two predicates that agree on every record of `s` select the same
      subsequence of it. */
  lemma {:induction false} FilterAgrees<T>(s: seq<T>, p: T -> bool, q: T -> bool)
    requires forall x :: x in s ==> (p(x) <==> q(x))
    ensures Filter(s, p) == Filter(s, q)
  {
    if s != [] {
      FilterAgrees(s[1..], p, q);
    }
  }

  /** Filtering distributes over concatenation, so a record appended to a
      collection is selected after every earlier one. */
  lemma {:induction false} FilterAppend<T>(s: seq<T>, t: seq<T>, p: T -> bool)
    ensures Filter(s + t, p) == Filter(s, p) + Filter(t, p)
  {
    if s == [] {
      assert s + t == t;
    } else {
      assert (s + t)[1..] == s[1..] + t;
      FilterAppend(s[1..], t, p);
    }
  }
}
