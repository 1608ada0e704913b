/** The statistics pipeline shared by orders and invoices:
    `$group` by the (year, month) of a timestamp with a `$sum` of an amount and
    a `$sum: 1` count, then `$sort` ascending by year and month. */
module MonthGroups {
  import opened Common

  /** One output row: the month, the summed amount and the number of records. */
  datatype MonthTotal = MonthTotal(month: YearMonth, total: int, count: nat)

  /** Keys strictly ascending, hence distinct. */
  predicate Ascending(gs: seq<MonthTotal>) {
    forall i, j :: 0 <= i < j < |gs| ==> MonthBefore(gs[i].month, gs[j].month)
  }

  predicate Positive(gs: seq<MonthTotal>) {
    forall i :: 0 <= i < |gs| ==> gs[i].count >= 1
  }

  predicate HasMonth(gs: seq<MonthTotal>, m: YearMonth) {
    exists i :: 0 <= i < |gs| && gs[i].month == m
  }

  /** Number of records in month `m`. */
  function CountIn<T>(s: seq<T>, month: T -> YearMonth, m: YearMonth): nat {
    if s == [] then 0 else (if month(s[0]) == m then 1 else 0) + CountIn(s[1..], month, m)
  }

  /** Sum of the amounts of the records in month `m`. */
  function SumIn<T>(s: seq<T>, month: T -> YearMonth, amount: T -> int, m: YearMonth): int {
    if s == [] then 0 else (if month(s[0]) == m then amount(s[0]) else 0) + SumIn(s[1..], month, amount, m)
  }

  function CountOf(gs: seq<MonthTotal>, m: YearMonth): nat {
    if gs == [] then 0 else if gs[0].month == m then gs[0].count else CountOf(gs[1..], m)
  }

  function TotalOf(gs: seq<MonthTotal>, m: YearMonth): int {
    if gs == [] then 0 else if gs[0].month == m then gs[0].total else TotalOf(gs[1..], m)
  }

  function Counts(gs: seq<MonthTotal>): nat {
    if gs == [] then 0 else gs[0].count + Counts(gs[1..])
  }

  function Totals(gs: seq<MonthTotal>): int {
    if gs == [] then 0 else gs[0].total + Totals(gs[1..])
  }

  /** Adds one record of month `m` and amount `a` to the ascending rows. */
  function Add(gs: seq<MonthTotal>, m: YearMonth, a: int): (r: seq<MonthTotal>)
    requires Ascending(gs) && Positive(gs)
    ensures Ascending(r) && Positive(r)
    ensures forall i :: 0 <= i < |r| ==> r[i].month == m || HasMonth(gs, r[i].month)
  {
    if gs == [] then [MonthTotal(m, a, 1)]
    else if gs[0].month == m then [MonthTotal(m, gs[0].total + a, gs[0].count + 1)] + gs[1..]
    else if MonthBefore(m, gs[0].month) then [MonthTotal(m, a, 1)] + gs
    else
      var rest := Add(gs[1..], m, a);
      forall i | 0 <= i < |rest| ensures MonthBefore(gs[0].month, rest[i].month) {
        if rest[i].month != m {
          var j :| 0 <= j < |gs[1..]| && gs[1..][j].month == rest[i].month;
          assert gs[j + 1].month == rest[i].month;
        }
      }
      [gs[0]] + rest
  }

  /** The grouped rows of `s`, ascending by (year, month). */
  function Group<T>(s: seq<T>, month: T -> YearMonth, amount: T -> int): (r: seq<MonthTotal>)
    ensures Ascending(r) && Positive(r)
  {
    if s == [] then [] else Add(Group(s[1..], month, amount), month(s[0]), amount(s[0]))
  }

  lemma {:induction false} AbsentBelow(gs: seq<MonthTotal>, m: YearMonth)
    requires Ascending(gs)
    requires gs == [] || MonthBefore(m, gs[0].month)
    ensures CountOf(gs, m) == 0 && TotalOf(gs, m) == 0
  {
    if gs != [] {
      AbsentBelow(gs[1..], m);
    }
  }

  lemma {:induction false} AddLookup(gs: seq<MonthTotal>, m: YearMonth, a: int, n: YearMonth)
    requires Ascending(gs) && Positive(gs)
    ensures CountOf(Add(gs, m, a), n) == CountOf(gs, n) + (if n == m then 1 else 0)
    ensures TotalOf(Add(gs, m, a), n) == TotalOf(gs, n) + (if n == m then a else 0)
  {
    if gs == [] {
    } else if gs[0].month == m {
    } else if MonthBefore(m, gs[0].month) {
      if n == m { AbsentBelow(gs, m); }
    } else {
      AddLookup(gs[1..], m, a, n);
    }
  }

  lemma {:induction false} AddSums(gs: seq<MonthTotal>, m: YearMonth, a: int)
    requires Ascending(gs) && Positive(gs)
    ensures Counts(Add(gs, m, a)) == Counts(gs) + 1
    ensures Totals(Add(gs, m, a)) == Totals(gs) + a
  {
    if gs != [] && gs[0].month != m && !MonthBefore(m, gs[0].month) {
      AddSums(gs[1..], m, a);
    }
  }

  /** Each month's row counts and sums exactly the records of that month. */
  lemma {:induction false} GroupLookup<T>(s: seq<T>, month: T -> YearMonth, amount: T -> int, m: YearMonth)
    ensures CountOf(Group(s, month, amount), m) == CountIn(s, month, m)
    ensures TotalOf(Group(s, month, amount), m) == SumIn(s, month, amount, m)
  {
    if s != [] {
      GroupLookup(s[1..], month, amount, m);
      AddLookup(Group(s[1..], month, amount), month(s[0]), amount(s[0]), m);
    }
  }

  /** The counts add up to the number of records and the totals to the sum of
      all amounts. */
  lemma {:induction false} GroupSums<T>(s: seq<T>, month: T -> YearMonth, amount: T -> int)
    ensures Counts(Group(s, month, amount)) == |s|
    ensures Totals(Group(s, month, amount)) == SumAll(s, amount)
  {
    if s != [] {
      GroupSums(s[1..], month, amount);
      AddSums(Group(s[1..], month, amount), month(s[0]), amount(s[0]));
    }
  }

  lemma {:induction false} LookupAt(gs: seq<MonthTotal>, i: nat)
    requires Ascending(gs) && i < |gs|
    ensures CountOf(gs, gs[i].month) == gs[i].count && TotalOf(gs, gs[i].month) == gs[i].total
  {
    if i > 0 {
      LookupAt(gs[1..], i - 1);
    }
  }

  lemma {:induction false} LookupPresent(gs: seq<MonthTotal>, m: YearMonth)
    requires CountOf(gs, m) > 0
    ensures HasMonth(gs, m)
  {
    if gs[0].month != m {
      LookupPresent(gs[1..], m);
      var j :| 0 <= j < |gs[1..]| && gs[1..][j].month == m;
      assert gs[j + 1].month == m;
    }
  }

  /** Both sums add up over a concatenation of record sequences. */
  lemma {:induction false} SumInAppend<T>(s: seq<T>, t: seq<T>, month: T -> YearMonth, amount: T -> int, m: YearMonth)
    ensures SumIn(s + t, month, amount, m) == SumIn(s, month, amount, m) + SumIn(t, month, amount, m)
    ensures CountIn(s + t, month, m) == CountIn(s, month, m) + CountIn(t, month, m)
  {
    if s == [] {
      assert s + t == t;
    } else {
      assert (s + t)[1..] == s[1..] + t;
      SumInAppend(s[1..], t, month, amount, m);
    }
  }

  /** The monthly pipeline's whole contract: one row per month that has a
      record, ascending, each row counting and summing that month's records,
      and the rows together covering every record once. */
  lemma GroupSpec<T>(s: seq<T>, month: T -> YearMonth, amount: T -> int)
    ensures var r := Group(s, month, amount);
      && Ascending(r)
      && (forall i :: 0 <= i < |r| ==>
            r[i].count >= 1 && r[i].count == CountIn(s, month, r[i].month) && r[i].total == SumIn(s, month, amount, r[i].month))
      && (forall m :: HasMonth(r, m) <==> CountIn(s, month, m) > 0)
      && Counts(r) == |s| && Totals(r) == SumAll(s, amount)
  {
    var r := Group(s, month, amount);
    forall i | 0 <= i < |r|
      ensures r[i].count == CountIn(s, month, r[i].month) && r[i].total == SumIn(s, month, amount, r[i].month)
    {
      LookupAt(r, i);
      GroupLookup(s, month, amount, r[i].month);
    }
    forall m ensures HasMonth(r, m) <==> CountIn(s, month, m) > 0 {
      GroupLookup(s, month, amount, m);
      if HasMonth(r, m) {
        var i :| 0 <= i < |r| && r[i].month == m;
        LookupAt(r, i);
      }
      if CountIn(s, month, m) > 0 {
        LookupPresent(r, m);
      }
    }
    GroupSums(s, month, amount);
  }
}
