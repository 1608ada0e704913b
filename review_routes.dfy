/** POST /api/reviews, GET /api/reviews and GET /api/reviews/stats/product. */
module ReviewRoutes {
  import opened Common
  import RM = ReviewModel
  import opened RatingGroups
  import Sorting
  import Store

  /** The body of POST /api/reviews. A `rating` that is absent or null is
      `None`; a `comment` left out of the body is `None`. */
  datatype ReviewRequest = ReviewRequest(userId: Option<Id>, productId: Option<Id>, rating: Option<real>,
                                         comment: Option<string>)

  /** The first guard: a user, a product and a rating that is not null. */
  predicate HasFields(req: ReviewRequest) {
    req.userId.Some? && req.productId.Some? && req.rating.Some?
  }

  /** The second guard, `!(rating < 1 || rating > 5)`. */
  predicate InRange(rating: real) {
    !(rating < 1.0 || rating > 5.0)
  }

  /** The first stored review of the pair, the one `findOneAndUpdate`
      selects. */
  function FindPair(rs: seq<RM.Review>, user: Id, product: Id): (r: Option<nat>)
    ensures r.Some? ==> r.value < |rs| && RM.SamePair(rs[r.value], user, product)
    ensures r.Some? ==> forall k :: 0 <= k < r.value ==> !RM.SamePair(rs[k], user, product)
    ensures r.None? <==> forall k :: 0 <= k < |rs| ==> !RM.SamePair(rs[k], user, product)
  {
    if rs == [] then None
    else if RM.SamePair(rs[0], user, product) then Some(0)
    else
      match FindPair(rs[1..], user, product)
      case None => None
      case Some(i) => Some(i + 1)
  }

  /** The update `{ rating, comment }`: the rating is replaced; a comment left
      out of the body is dropped from the update, so the stored one stays. */
  function Update(r: RM.Review, rating: real, comment: Option<string>): (u: RM.Review)
    ensures u.id == r.id && RM.SamePair(u, r.user, r.product) && u.rating == rating
    ensures u.comment == (if comment.Some? then comment else r.comment)
  {
    r.(rating := rating, comment := if comment.Some? then comment else r.comment)
  }

  /** `findOneAndUpdate({ user, product }, { rating, comment }, { upsert: true })`:
      the pair's review is updated in place, or a new one with id `newId` is
      appended. */
  function Upsert(rs: seq<RM.Review>, user: Id, product: Id, rating: real, comment: Option<string>,
                  newId: Id): seq<RM.Review>
  {
    match FindPair(rs, user, product)
    case Some(i) => rs[i := Update(rs[i], rating, comment)]
    case None => rs + [RM.Review(newId, user, product, rating, comment)]
  }

  /** No two reviews share a (user, product) pair. */
  predicate PairsDistinct(rs: seq<RM.Review>) {
    forall i, j :: 0 <= i < j < |rs| ==> !RM.SamePair(rs[j], rs[i].user, rs[i].product)
  }

  /** After the upsert the pair has a review carrying the new rating and, when
      one was sent, the new comment; with distinct pairs before, pairs stay
      distinct, so that review is the only one of the pair. */
  lemma UpsertOnePair(rs: seq<RM.Review>, user: Id, product: Id, rating: real, comment: Option<string>, newId: Id)
    requires PairsDistinct(rs)
    ensures var r := Upsert(rs, user, product, rating, comment, newId);
      && PairsDistinct(r)
      && exists k :: 0 <= k < |r| && RM.SamePair(r[k], user, product) && r[k].rating == rating
                     && (comment.Some? ==> r[k].comment == comment)
  {
    var r := Upsert(rs, user, product, rating, comment, newId);
    match FindPair(rs, user, product)
    case Some(i) =>
      assert RM.SamePair(r[i], user, product);
    case None =>
      assert RM.SamePair(r[|rs|], user, product);
  }

  /** Reviews of other pairs keep their place and content; the collection
      grows by at most the one new review, which is of the pair. */
  lemma UpsertOthersUnchanged(rs: seq<RM.Review>, user: Id, product: Id, rating: real, comment: Option<string>,
                              newId: Id)
    ensures var r := Upsert(rs, user, product, rating, comment, newId);
      && |rs| <= |r| <= |rs| + 1
      && (forall k :: 0 <= k < |rs| && !RM.SamePair(rs[k], user, product) ==> r[k] == rs[k])
      && (forall k :: |rs| <= k < |r| ==> r[k] == RM.Review(newId, user, product, rating, comment))
      && (|r| == |rs| + 1 <==> forall k :: 0 <= k < |rs| ==> !RM.SamePair(rs[k], user, product))
  {
  }

  /** A review of the pair with none before it is the one found. */
  lemma {:induction false} FindPairAt(rs: seq<RM.Review>, user: Id, product: Id, i: nat)
    requires i < |rs| && RM.SamePair(rs[i], user, product)
    requires forall k :: 0 <= k < i ==> !RM.SamePair(rs[k], user, product)
    ensures FindPair(rs, user, product) == Some(i)
  {
    if i > 0 {
      FindPairAt(rs[1..], user, product, i - 1);
    }
  }

  /** Sending the same review twice leaves the store as sending it once: the
      second upsert finds the pair and writes the values it already holds. */
  lemma UpsertIdempotent(rs: seq<RM.Review>, user: Id, product: Id, rating: real, comment: Option<string>,
                         newId: Id, newId': Id)
    ensures var once := Upsert(rs, user, product, rating, comment, newId);
      Upsert(once, user, product, rating, comment, newId') == once
  {
    var once := Upsert(rs, user, product, rating, comment, newId);
    match FindPair(rs, user, product)
    case Some(i) =>
      FindPairAt(once, user, product, i);
    case None =>
      FindPairAt(once, user, product, |rs|);
  }

  /** POST /api/reviews. */
  method CreateReview(db: Store.Database, req: ReviewRequest) returns (res: Response<RM.Review>)
    requires db.Valid()
    modifies db
    ensures db.Valid()
    ensures res.BadRequest? <==> !HasFields(req) || !InRange(req.rating.value)
    ensures res.Created? <==> !res.BadRequest?
    ensures res.BadRequest? ==> db.reviews == old(db.reviews) && db.nextId == old(db.nextId)
    ensures res.Created? ==>
      var inserted := FindPair(old(db.reviews), req.userId.value, req.productId.value).None?;
      && db.reviews == Upsert(old(db.reviews), req.userId.value, req.productId.value, req.rating.value,
                              req.comment, old(db.nextId))
      && db.nextId == old(db.nextId) + (if inserted then 1 else 0)
      && res.value in db.reviews && RM.SamePair(res.value, req.userId.value, req.productId.value)
      && res.value.rating == req.rating.value
    ensures db.users == old(db.users) && db.products == old(db.products)
    ensures db.orders == old(db.orders) && db.invoices == old(db.invoices)
  {
    if !(req.userId.Some? && req.productId.Some? && req.rating.Some?) {
      return BadRequest;
    }
    var rating := req.rating.value;
    if rating < 1.0 || rating > 5.0 {
      return BadRequest;
    }
    var user, product := req.userId.value, req.productId.value;
    var found := FindPair(db.reviews, user, product);
    if found.Some? {
      var i := found.value;
      var r := Update(db.reviews[i], rating, req.comment);
      Store.UpdateReviewOk(db.users, db.products, db.orders, db.invoices, db.reviews, db.nextId, i, r);
      db.reviews := db.reviews[i := r];
      assert db.reviews[i] == r;
      res := Created(r);
    } else {
      var r := RM.Review(db.nextId, user, product, rating, req.comment);
      Store.InsertReviewOk(db.users, db.products, db.orders, db.invoices, db.reviews, db.nextId, r);
      db.reviews := db.reviews + [r];
      assert db.reviews[|db.reviews| - 1] == r;
      db.nextId := db.nextId + 1;
      res := Created(r);
    }
  }

  /** The query string of GET /api/reviews; an absent or empty parameter is
      `None`, and the ratings are the values of `Number(minRating)` and
      `Number(maxRating)`. */
  datatype ReviewParams = ReviewParams(userId: Option<Id>, productId: Option<Id>,
                                       minRating: Option<real>, maxRating: Option<real>)

  /** The filter document the handler builds; a `None` key is left out. */
  datatype ReviewQuery = ReviewQuery(user: Option<Id>, product: Option<Id>, rating: Option<Range<real>>)

  /** How the store evaluates the filter document against a review. */
  predicate Matches(q: ReviewQuery, r: RM.Review) {
    && (q.user.Some? ==> r.user == q.user.value)
    && (q.product.Some? ==> r.product == q.product.value)
    && (q.rating.Some? ==> InRealRange(q.rating.value, r.rating))
  }

  /** The listing's meaning, stated on the parameters. */
  predicate Selects(p: ReviewParams, r: RM.Review) {
    && (p.userId.Some? ==> r.user == p.userId.value)
    && (p.productId.Some? ==> r.product == p.productId.value)
    && (p.minRating.Some? ==> p.minRating.value <= r.rating)
    && (p.maxRating.Some? ==> r.rating <= p.maxRating.value)
  }

  function Selector(p: ReviewParams): RM.Review -> bool {
    r => Selects(p, r)
  }

  /** Builds the filter document key by key, as the handler does. */
  method BuildReviewQuery(p: ReviewParams) returns (q: ReviewQuery)
    ensures q.user == p.userId && q.product == p.productId
    ensures q.rating.Some? <==> p.minRating.Some? || p.maxRating.Some?
    ensures q.rating.Some? ==> q.rating.value.gte == p.minRating && q.rating.value.lte == p.maxRating
    ensures forall r :: Matches(q, r) <==> Selects(p, r)
  {
    q := ReviewQuery(None, None, None);
    if p.userId.Some? {
      q := q.(user := p.userId);
    }
    if p.productId.Some? {
      q := q.(product := p.productId);
    }
    if p.minRating.Some? || p.maxRating.Some? {
      var range: Range<real> := Range(None, None);
      if p.minRating.Some? {
        range := range.(gte := p.minRating);
      }
      if p.maxRating.Some? {
        range := range.(lte := p.maxRating);
      }
      q := q.(rating := Some(range));
    }
  }

  /** GET /api/reviews: the selected reviews in store order. */
  method ListReviews(db: Store.Database, p: ReviewParams) returns (r: seq<RM.Review>)
    ensures r == Filter(db.reviews, Selector(p))
    ensures forall i :: 0 <= i < |r| ==> r[i] in db.reviews && Selects(p, r[i])
    ensures forall i :: 0 <= i < |db.reviews| && Selects(p, db.reviews[i]) ==> db.reviews[i] in r
  {
    var q := BuildReviewQuery(p);
    var matches: RM.Review -> bool := r => Matches(q, r);
    r := Filter(db.reviews, matches);
    FilterAgrees(db.reviews, matches, Selector(p));
  }

  /** One output row of the rating statistics. */
  datatype RatingStat = RatingStat(product: Id, avgRating: real, minRating: real, maxRating: real, reviewsCount: nat)

  function ToRow(g: Acc): RatingStat {
    RatingStat(g.product, if g.count == 0 then 0.0 else g.sum / (g.count as real), g.min, g.max, g.count)
  }

  function ToRows(gs: seq<Acc>): (r: seq<RatingStat>)
    ensures |r| == |gs| && forall i :: 0 <= i < |gs| ==> r[i] == ToRow(gs[i])
  {
    seq(|gs|, i requires 0 <= i < |gs| => ToRow(gs[i]))
  }

  function AvgOf(r: RatingStat): real {
    r.avgRating
  }

  function ProductOf(r: RatingStat): Id {
    r.product
  }

  function OfProduct(p: Id): RM.Review -> bool {
    (r: RM.Review) => r.product == p
  }

  /** The stages of the statistics pipeline. */
  datatype Stage = MatchProduct(product: Id) | GroupByProduct | SortByAvgDesc

  /** What flows between the stages: review documents, then group rows. */
  datatype Docs = Reviews(rs: seq<RM.Review>) | Rows(rows: seq<RatingStat>)

  function Apply(st: Stage, d: Docs): Docs {
    match st
    case MatchProduct(p) => if d.Reviews? then Reviews(Filter(d.rs, OfProduct(p))) else d
    case GroupByProduct => if d.Reviews? then Rows(ToRows(Accumulate(d.rs))) else d
    case SortByAvgDesc => if d.Rows? then Rows(Sorting.SortDesc(d.rows, AvgOf)) else d
  }

  /** `Review.aggregate(pipeline)`. */
  function Run(stages: seq<Stage>, d: Docs): Docs {
    if stages == [] then d else Run(stages[1..], Apply(stages[0], d))
  }

  /** GET /api/reviews/stats/product: the reviews (of `productId` alone when
      it is given) grouped by product, highest average first. */
  function RatingStats(rs: seq<RM.Review>, productId: Option<Id>): seq<RatingStat> {
    var selected := if productId.Some? then Filter(rs, OfProduct(productId.value)) else rs;
    Sorting.SortDesc(ToRows(Accumulate(selected)), AvgOf)
  }

  /** Builds the pipeline stage by stage, as the handler does: the `$match`
      only when a product is given, then `$group` and `$sort`. */
  method BuildPipeline(productId: Option<Id>) returns (stages: seq<Stage>)
    ensures |stages| == (if productId.Some? then 3 else 2)
    ensures forall rs :: Run(stages, Reviews(rs)) == Rows(RatingStats(rs, productId))
  {
    stages := [];
    if productId.Some? {
      stages := stages + [MatchProduct(productId.value)];
    }
    stages := stages + [GroupByProduct, SortByAvgDesc];
    forall rs ensures Run(stages, Reviews(rs)) == Rows(RatingStats(rs, productId)) {
      RunStats(rs, productId, stages);
    }
  }

  /** `$group` then `$sort` turn review documents into sorted rows. */
  lemma RunGroupSort(d: seq<RM.Review>)
    ensures Run([GroupByProduct, SortByAvgDesc], Reviews(d)) == Rows(Sorting.SortDesc(ToRows(Accumulate(d)), AvgOf))
  {
    var tail: seq<Stage> := [GroupByProduct, SortByAvgDesc];
    var grouped := Apply(GroupByProduct, Reviews(d));
    assert tail[1..] == [SortByAvgDesc] && [SortByAvgDesc][1..] == [];
    calc {
      Run(tail, Reviews(d));
      Run([SortByAvgDesc], grouped);
      Run([], Apply(SortByAvgDesc, grouped));
    }
  }

  /** Running the built stages computes the statistics. */
  lemma RunStats(rs: seq<RM.Review>, productId: Option<Id>, stages: seq<Stage>)
    requires stages == (if productId.Some? then [MatchProduct(productId.value)] else []) + [GroupByProduct, SortByAvgDesc]
    ensures Run(stages, Reviews(rs)) == Rows(RatingStats(rs, productId))
  {
    var tail: seq<Stage> := [GroupByProduct, SortByAvgDesc];
    if productId.Some? {
      var selected := Filter(rs, OfProduct(productId.value));
      assert stages[0] == MatchProduct(productId.value) && stages[1..] == tail;
      assert Run(stages, Reviews(rs)) == Run(tail, Reviews(selected));
      RunGroupSort(selected);
    } else {
      assert stages == tail;
      RunGroupSort(rs);
    }
  }

  /** `row` holds the figures of its product over `rs`. */
  predicate RowFor(row: RatingStat, rs: seq<RM.Review>) {
    && CountFor(rs, row.product) > 0 && row.reviewsCount == CountFor(rs, row.product)
    && row.avgRating == SumFor(rs, row.product) / (CountFor(rs, row.product) as real)
    && row.minRating == MinFor(rs, row.product) && row.maxRating == MaxFor(rs, row.product)
  }

  predicate HasRow(rows: seq<RatingStat>, p: Id) {
    exists i :: 0 <= i < |rows| && rows[i].product == p
  }

  /** Selecting one product's reviews keeps every figure of that product and
      leaves no review of any other. */
  lemma {:induction false} FilterKeepsProduct(rs: seq<RM.Review>, p: Id, q: Id)
    ensures var sel := Filter(rs, OfProduct(p));
      && (q == p ==> CountFor(sel, q) == CountFor(rs, q) && SumFor(sel, q) == SumFor(rs, q))
      && (q == p && CountFor(rs, q) > 0 ==> MinFor(sel, q) == MinFor(rs, q) && MaxFor(sel, q) == MaxFor(rs, q))
      && (q != p ==> CountFor(sel, q) == 0)
  {
    if rs != [] {
      var x, tail := rs[0], rs[1..];
      assert rs == [x] + tail;
      FilterKeepsProduct(tail, p, q);
      Prepend(x, tail, q);
      var selTail := Filter(tail, OfProduct(p));
      if x.product == p {
        assert Filter(rs, OfProduct(p)) == [x] + selTail;
        Prepend(x, selTail, q);
      } else {
        assert Filter(rs, OfProduct(p)) == selTail;
      }
    }
  }

  /** The row of a group that describes `rs` holds its product's figures,
      minimum <= average <= maximum. */
  lemma RowOf(g: Acc, rs: seq<RM.Review>)
    requires Describes(g, rs) && Bounded(g)
    ensures RowFor(ToRow(g), rs) && ToRow(g).minRating <= ToRow(g).avgRating <= ToRow(g).maxRating
  {
    Between(g.count as real, g.min, g.sum, g.max);
  }

  /** Every row of the grouped reviews holds its product's figures, and its
      minimum, average and maximum are in order. */
  lemma GroupRows(rs: seq<RM.Review>)
    ensures var rows := ToRows(Accumulate(rs));
      && Sorting.DistinctBy(rows, ProductOf)
      && (forall j :: 0 <= j < |rows| ==> RowFor(rows[j], rs) && rows[j].minRating <= rows[j].avgRating <= rows[j].maxRating)
      && (forall k :: 0 <= k < |rs| ==> HasRow(rows, rs[k].product))
  {
    var gs := Accumulate(rs);
    var rows := ToRows(gs);
    AccumulateTracks(rs);
    forall j | 0 <= j < |rows|
      ensures RowFor(rows[j], rs) && rows[j].minRating <= rows[j].avgRating <= rows[j].maxRating
    {
      RowOf(gs[j], rs);
    }
    forall k | 0 <= k < |rs| ensures HasRow(rows, rs[k].product) {
      var j :| 0 <= j < |gs| && gs[j].product == rs[k].product;
      assert rows[j].product == rs[k].product;
    }
  }

  /** Each statistics row holds its product's exact figures over all of `rs`,
      in order minimum <= average <= maximum, and is of the given product when
      one is given. */
  lemma StatsRowsExact(rs: seq<RM.Review>, productId: Option<Id>)
    ensures var r := RatingStats(rs, productId);
      forall i :: 0 <= i < |r| ==>
        && RowFor(r[i], rs) && r[i].minRating <= r[i].avgRating <= r[i].maxRating
        && (productId.Some? ==> r[i].product == productId.value)
  {
    var selected := if productId.Some? then Filter(rs, OfProduct(productId.value)) else rs;
    var rows := ToRows(Accumulate(selected));
    var r := RatingStats(rs, productId);
    GroupRows(selected);
    forall i | 0 <= i < |r|
      ensures RowFor(r[i], rs) && r[i].minRating <= r[i].avgRating <= r[i].maxRating
      ensures productId.Some? ==> r[i].product == productId.value
    {
      Sorting.SortMembers(rows, AvgOf, r[i]);
      var j :| 0 <= j < |rows| && rows[j] == r[i];
      if productId.Some? {
        FilterKeepsProduct(rs, productId.value, r[i].product);
      }
    }
  }

  /** After grouping and sorting, every product reviewed in `sel` has a
      row. */
  lemma SortedRowsCover(sel: seq<RM.Review>)
    ensures var r := Sorting.SortDesc(ToRows(Accumulate(sel)), AvgOf);
      forall k :: 0 <= k < |sel| ==> HasRow(r, sel[k].product)
  {
    var rows := ToRows(Accumulate(sel));
    var r := Sorting.SortDesc(rows, AvgOf);
    GroupRows(sel);
    forall k | 0 <= k < |sel| ensures HasRow(r, sel[k].product) {
      var j :| 0 <= j < |rows| && rows[j].product == sel[k].product;
      Sorting.SortMembers(rows, AvgOf, rows[j]);
      var i :| 0 <= i < |r| && r[i] == rows[j];
    }
  }

  /** Every reviewed product (only the given one, when one is given) has a
      statistics row. */
  lemma StatsRowsCover(rs: seq<RM.Review>, productId: Option<Id>)
    ensures var r := RatingStats(rs, productId);
      forall k :: 0 <= k < |rs| && (productId.None? || rs[k].product == productId.value) ==> HasRow(r, rs[k].product)
  {
    var selected := if productId.Some? then Filter(rs, OfProduct(productId.value)) else rs;
    SortedRowsCover(selected);
    forall k | 0 <= k < |rs| && (productId.None? || rs[k].product == productId.value)
      ensures HasRow(RatingStats(rs, productId), rs[k].product)
    {
      assert rs[k] in selected;
      var sk :| 0 <= sk < |selected| && selected[sk] == rs[k];
    }
  }

  /** The statistics' whole contract: rows sorted by non-increasing average,
      one per reviewed product (only the given product when one is given),
      each with the exact count, average, minimum and maximum of its
      product's ratings, and minimum <= average <= maximum. */
  lemma RatingStatsSpec(rs: seq<RM.Review>, productId: Option<Id>)
    ensures var r := RatingStats(rs, productId);
      && Sorting.SortedDesc(r, AvgOf)
      && Sorting.DistinctBy(r, ProductOf)
      && (forall i :: 0 <= i < |r| ==>
            && RowFor(r[i], rs) && r[i].reviewsCount >= 1
            && r[i].minRating <= r[i].avgRating <= r[i].maxRating
            && (productId.Some? ==> r[i].product == productId.value))
      && (forall k :: 0 <= k < |rs| && (productId.None? || rs[k].product == productId.value) ==>
            HasRow(r, rs[k].product))
  {
    var selected := if productId.Some? then Filter(rs, OfProduct(productId.value)) else rs;
    GroupRows(selected);
    Sorting.SortDistinct(ToRows(Accumulate(selected)), AvgOf, ProductOf);
    StatsRowsExact(rs, productId);
    StatsRowsCover(rs, productId);
  }
}
