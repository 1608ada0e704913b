/** The `$group` stage of the review statistics: one accumulator per product
    holding the `$avg`, `$min` and `$max` of the ratings and a `$sum: 1`
    count. The accumulators are built by a fold over the reviews. */
module RatingGroups {
  import opened Common
  import RM = ReviewModel

  /** The running state of one group: sum, minimum, maximum and count of the
      ratings seen for `product`. */
  datatype Acc = Acc(product: Id, sum: real, min: real, max: real, count: nat)

  function Min(a: real, b: real): real {
    if a <= b then a else b
  }

  function Max(a: real, b: real): real {
    if a >= b then a else b
  }

  /** The number of reviews of product `p`. */
  function CountFor(rs: seq<RM.Review>, p: Id): nat {
    if rs == [] then 0 else (if rs[0].product == p then 1 else 0) + CountFor(rs[1..], p)
  }

  /** The sum of the ratings of product `p`. */
  function SumFor(rs: seq<RM.Review>, p: Id): real {
    if rs == [] then 0.0 else (if rs[0].product == p then rs[0].rating else 0.0) + SumFor(rs[1..], p)
  }

  /** The smallest rating of product `p`. */
  function MinFor(rs: seq<RM.Review>, p: Id): real
    requires CountFor(rs, p) > 0
  {
    if rs[0].product != p then MinFor(rs[1..], p)
    else if CountFor(rs[1..], p) == 0 then rs[0].rating
    else Min(rs[0].rating, MinFor(rs[1..], p))
  }

  /** The largest rating of product `p`. */
  function MaxFor(rs: seq<RM.Review>, p: Id): real
    requires CountFor(rs, p) > 0
  {
    if rs[0].product != p then MaxFor(rs[1..], p)
    else if CountFor(rs[1..], p) == 0 then rs[0].rating
    else Max(rs[0].rating, MaxFor(rs[1..], p))
  }

  /** A product has a review exactly when it is counted. */
  lemma {:induction false} CountForPositive(rs: seq<RM.Review>, p: Id)
    ensures CountFor(rs, p) > 0 <==> exists k :: 0 <= k < |rs| && rs[k].product == p
  {
    if rs != [] {
      CountForPositive(rs[1..], p);
      if CountFor(rs[1..], p) > 0 {
        var k :| 0 <= k < |rs[1..]| && rs[1..][k].product == p;
        assert rs[k + 1].product == p;
      }
      if exists k :: 0 <= k < |rs| && rs[k].product == p {
        var k :| 0 <= k < |rs| && rs[k].product == p;
        if k > 0 {
          assert rs[1..][k - 1].product == p;
        }
      }
    }
  }

  /** `MinFor` is a rating of `p` and no rating of `p` is smaller. */
  lemma {:induction false} MinForLeast(rs: seq<RM.Review>, p: Id)
    requires CountFor(rs, p) > 0
    ensures forall k :: 0 <= k < |rs| && rs[k].product == p ==> MinFor(rs, p) <= rs[k].rating
    ensures exists k :: 0 <= k < |rs| && rs[k].product == p && rs[k].rating == MinFor(rs, p)
  {
    var tail := rs[1..];
    if CountFor(tail, p) > 0 {
      MinForLeast(tail, p);
      var j :| 0 <= j < |tail| && tail[j].product == p && tail[j].rating == MinFor(tail, p);
      assert rs[j + 1] == tail[j];
      forall k | 0 <= k < |rs| && rs[k].product == p ensures MinFor(rs, p) <= rs[k].rating {
        if k > 0 {
          assert rs[k] == tail[k - 1];
        }
      }
    } else {
      CountForPositive(tail, p);
      forall k | 0 < k < |rs| ensures rs[k].product != p {
        assert rs[k] == tail[k - 1];
      }
    }
  }

  /** `MaxFor` is a rating of `p` and no rating of `p` is larger. */
  lemma {:induction false} MaxForGreatest(rs: seq<RM.Review>, p: Id)
    requires CountFor(rs, p) > 0
    ensures forall k :: 0 <= k < |rs| && rs[k].product == p ==> rs[k].rating <= MaxFor(rs, p)
    ensures exists k :: 0 <= k < |rs| && rs[k].product == p && rs[k].rating == MaxFor(rs, p)
  {
    var tail := rs[1..];
    if CountFor(tail, p) > 0 {
      MaxForGreatest(tail, p);
      var j :| 0 <= j < |tail| && tail[j].product == p && tail[j].rating == MaxFor(tail, p);
      assert rs[j + 1] == tail[j];
      forall k | 0 <= k < |rs| && rs[k].product == p ensures rs[k].rating <= MaxFor(rs, p) {
        if k > 0 {
          assert rs[k] == tail[k - 1];
        }
      }
    } else {
      CountForPositive(tail, p);
      forall k | 0 < k < |rs| ensures rs[k].product != p {
        assert rs[k] == tail[k - 1];
      }
    }
  }

  /** A product without reviews sums to 0. */
  lemma {:induction false} SumForZero(rs: seq<RM.Review>, p: Id)
    requires CountFor(rs, p) == 0
    ensures SumFor(rs, p) == 0.0
  {
    if rs != [] {
      SumForZero(rs[1..], p);
    }
  }

  /** One more rating `x` keeps the sum above count times the minimum. */
  lemma StepLow(c: real, x: real, lo: real, s: real)
    requires c >= 0.0 && c * lo <= s
    ensures (c + 1.0) * Min(x, lo) <= x + s
  {
    var m := Min(x, lo);
    assert c * m <= c * lo;
  }

  /** One more rating `x` keeps the sum below count times the maximum. */
  lemma StepHigh(c: real, x: real, hi: real, s: real)
    requires c >= 0.0 && s <= c * hi
    ensures x + s <= (c + 1.0) * Max(x, hi)
  {
    var n := Max(x, hi);
    assert c * hi <= c * n;
  }

  /** An amount between `c * lo` and `c * hi` divided by `c` lies between
      `lo` and `hi`. */
  lemma Between(c: real, lo: real, s: real, hi: real)
    requires c > 0.0 && c * lo <= s <= c * hi
    ensures lo <= s / c <= hi
  {
  }

  /** The group of `p`, if one exists. */
  function IndexOf(gs: seq<Acc>, p: Id): (r: Option<nat>)
    ensures r.Some? ==> r.value < |gs| && gs[r.value].product == p
    ensures r.None? <==> forall k :: 0 <= k < |gs| ==> gs[k].product != p
  {
    if gs == [] then None
    else if gs[0].product == p then Some(0)
    else
      match IndexOf(gs[1..], p)
      case None => None
      case Some(i) => Some(i + 1)
  }

  predicate HasProduct(gs: seq<Acc>, p: Id) {
    exists k :: 0 <= k < |gs| && gs[k].product == p
  }

  /** The sum of a group lies between its count times its minimum and its
      count times its maximum. */
  predicate Bounded(g: Acc) {
    (g.count as real) * g.min <= g.sum <= (g.count as real) * g.max
  }

  /** The group `g` after one more rating `x`. */
  function Merge(g: Acc, x: real): (r: Acc)
    requires Bounded(g)
    ensures Bounded(r)
  {
    StepLow(g.count as real, x, g.min, g.sum);
    StepHigh(g.count as real, x, g.max, g.sum);
    Acc(g.product, g.sum + x, Min(x, g.min), Max(x, g.max), g.count + 1)
  }

  /** Folds review `x` into its product's group, opening the group when it is
      the product's first review. */
  function AddTo(gs: seq<Acc>, x: RM.Review): (r: seq<Acc>)
    requires forall k :: 0 <= k < |gs| ==> Bounded(gs[k])
    ensures forall k :: 0 <= k < |r| ==> Bounded(r[k])
    ensures |gs| <= |r| && forall k :: 0 <= k < |gs| ==> r[k].product == gs[k].product
    ensures HasProduct(r, x.product)
  {
    match IndexOf(gs, x.product)
    case None =>
      var r := gs + [Acc(x.product, x.rating, x.rating, x.rating, 1)];
      assert r[|gs|].product == x.product;
      r
    case Some(i) => gs[i := Merge(gs[i], x.rating)]
  }

  /** The groups of `rs`. */
  function Accumulate(rs: seq<RM.Review>): (r: seq<Acc>)
    ensures forall k :: 0 <= k < |r| ==> Bounded(r[k])
  {
    if rs == [] then [] else AddTo(Accumulate(rs[1..]), rs[0])
  }

  /** The groups describe `rs` exactly: each holds the count, sum, minimum
      and maximum of the ratings of its product, no two share a product, and
      every reviewed product has one. */
  predicate Tracks(gs: seq<Acc>, rs: seq<RM.Review>) {
    && (forall i :: 0 <= i < |gs| ==> Describes(gs[i], rs))
    && (forall i, j :: 0 <= i < j < |gs| ==> gs[i].product != gs[j].product)
    && (forall k :: 0 <= k < |rs| ==> HasProduct(gs, rs[k].product))
  }

  predicate Describes(g: Acc, rs: seq<RM.Review>) {
    && CountFor(rs, g.product) > 0 && g.count == CountFor(rs, g.product)
    && g.sum == SumFor(rs, g.product)
    && g.min == MinFor(rs, g.product) && g.max == MaxFor(rs, g.product)
  }

  /** How each per-product figure changes when review `x` comes first. */
  lemma Prepend(x: RM.Review, rs: seq<RM.Review>, p: Id)
    ensures CountFor([x] + rs, p) == CountFor(rs, p) + (if x.product == p then 1 else 0)
    ensures SumFor([x] + rs, p) == SumFor(rs, p) + (if x.product == p then x.rating else 0.0)
    ensures x.product != p && CountFor(rs, p) > 0 ==>
              MinFor([x] + rs, p) == MinFor(rs, p) && MaxFor([x] + rs, p) == MaxFor(rs, p)
    ensures x.product == p && CountFor(rs, p) == 0 ==>
              MinFor([x] + rs, p) == x.rating && MaxFor([x] + rs, p) == x.rating
    ensures x.product == p && CountFor(rs, p) > 0 ==>
              MinFor([x] + rs, p) == Min(x.rating, MinFor(rs, p)) && MaxFor([x] + rs, p) == Max(x.rating, MaxFor(rs, p))
  {
    assert ([x] + rs)[0] == x && ([x] + rs)[1..] == rs;
  }

  /** A group that does not hold `x`'s product still describes the reviews
      after `x` comes first. */
  lemma OtherStill(g: Acc, rs: seq<RM.Review>, x: RM.Review)
    requires Describes(g, rs) && g.product != x.product
    ensures Describes(g, [x] + rs)
  {
    Prepend(x, rs, g.product);
  }

  /** The first review of a product opens a group that describes it. */
  lemma {:induction false} AddNewTracks(gs: seq<Acc>, rs: seq<RM.Review>, x: RM.Review)
    requires Tracks(gs, rs) && forall k :: 0 <= k < |gs| ==> Bounded(gs[k])
    requires IndexOf(gs, x.product).None?
    ensures Tracks(AddTo(gs, x), [x] + rs)
  {
    var rs' := [x] + rs;
    var r := AddTo(gs, x);
    assert r == gs + [Acc(x.product, x.rating, x.rating, x.rating, 1)];
    forall k | 0 <= k < |rs| ensures rs[k].product != x.product {
      var j :| 0 <= j < |gs| && gs[j].product == rs[k].product;
    }
    CountForPositive(rs, x.product);
    SumForZero(rs, x.product);
    Prepend(x, rs, x.product);
    forall i | 0 <= i < |r| ensures Describes(r[i], rs') {
      if i < |gs| {
        OtherStill(gs[i], rs, x);
      }
    }
    forall k | 0 <= k < |rs'| ensures HasProduct(r, rs'[k].product) {
      if k > 0 {
        assert rs'[k] == rs[k - 1];
        var j :| 0 <= j < |gs| && gs[j].product == rs[k - 1].product;
        assert r[j].product == rs'[k].product;
      }
    }
  }

  /** A further review of a product is merged into that product's group. */
  lemma {:induction false} AddMergeTracks(gs: seq<Acc>, rs: seq<RM.Review>, x: RM.Review)
    requires Tracks(gs, rs) && forall k :: 0 <= k < |gs| ==> Bounded(gs[k])
    requires IndexOf(gs, x.product).Some?
    ensures Tracks(AddTo(gs, x), [x] + rs)
  {
    var rs' := [x] + rs;
    var i := IndexOf(gs, x.product).value;
    var r := AddTo(gs, x);
    assert r == gs[i := Merge(gs[i], x.rating)];
    Prepend(x, rs, x.product);
    forall j | 0 <= j < |r| ensures Describes(r[j], rs') {
      if j != i {
        OtherStill(gs[j], rs, x);
      }
    }
    forall k | 0 <= k < |rs'| ensures HasProduct(r, rs'[k].product) {
      if k > 0 {
        assert rs'[k] == rs[k - 1];
        var j :| 0 <= j < |gs| && gs[j].product == rs[k - 1].product;
        assert r[j].product == rs'[k].product;
      }
    }
  }

  lemma {:induction false} AccumulateTracks(rs: seq<RM.Review>)
    ensures Tracks(Accumulate(rs), rs)
  {
    if rs != [] {
      var gs := Accumulate(rs[1..]);
      AccumulateTracks(rs[1..]);
      if IndexOf(gs, rs[0].product).None? {
        AddNewTracks(gs, rs[1..], rs[0]);
      } else {
        AddMergeTracks(gs, rs[1..], rs[0]);
      }
      assert [rs[0]] + rs[1..] == rs;
    }
  }
}
