/** The Review record as the review routes read and write it. Its schema file
    is not part of this model, so no constraint is attached to it here; the
    rating bounds the routes enforce are an invariant of the store. */
module ReviewModel {
  import opened Common

  datatype Review = Review(id: Id, user: Id, product: Id, rating: real, comment: Option<string>)

  /** The key of the upsert: one review per (user, product). */
  predicate SamePair(r: Review, user: Id, product: Id) {
    r.user == user && r.product == product
  }
}
