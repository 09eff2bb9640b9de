/** Digital products sold by freelancers, and their reviews
    (src/controllers/digitalProductController.js). */
module Products {
  import opened Schema
  import Db

  datatype ProductArgs = ProductArgs(
    freelancerId: Arg<Id>,
    name: Arg<string>,
    description: Arg<string>,
    url: Arg<string>,
    price: Arg<real>)

  /** All five fields truthy: an empty text or a price of 0 is refused. */
  predicate Complete(a: ProductArgs) {
    IdGiven(a.freelancerId) && FilledText(a.name) && FilledText(a.description) && FilledText(a.url) && NonZero(a.price)
  }

  predicate HasProduct(s: Tables, id: Id) { 1 <= id <= |s.products| && s.products[id - 1].Some? }

  function ProductAt(s: Tables, id: Id): Product
    requires HasProduct(s, id)
  {
    s.products[id - 1].value
  }

  /** `POST /digital-products`. */
  function CreateProduct(s: Tables, a: ProductArgs): (r: Step<(Id, Product)>)
    ensures !Complete(a) ==> r == Step(s, Fail(InvalidInput))
    ensures Complete(a) && !HasUser(s, a.freelancerId.value) ==> r == Step(s, Fail(NotFound(NoUser)))
    ensures Complete(a) && HasUser(s, a.freelancerId.value) && UserAt(s, a.freelancerId.value).userType != Freelancer ==>
      r == Step(s, Fail(WrongRole))
    ensures r.out.Ok? <==> Complete(a) && IsUserOfType(s, a.freelancerId.value, Freelancer)
    ensures r.out.Ok? ==>
      var p := Product(a.freelancerId.value, a.name.value, a.description.value, a.url.value, a.price.value);
      && r.out.value == (|s.products| + 1, p)
      && r.next == s.(products := s.products + [Some(p)])
      && HasProduct(r.next, r.out.value.0) && p.price != 0.0
  {
    if !Complete(a) then Step(s, Fail(InvalidInput))
    else if !HasUser(s, a.freelancerId.value) then Step(s, Fail(NotFound(NoUser)))
    else if UserAt(s, a.freelancerId.value).userType != Freelancer then Step(s, Fail(WrongRole))
    else
      var p := Product(a.freelancerId.value, a.name.value, a.description.value, a.url.value, a.price.value);
      Step(s.(products := s.products + [Some(p)]), Ok((|s.products| + 1, p)))
  }

  datatype ProductChanges = ProductChanges(name: Arg<string>, description: Arg<string>, url: Arg<string>, price: Arg<real>)

  /** `PUT /digital-products/:productId`: each field sent replaces the column, each field
      left out or sent as null keeps it. */
  function UpdateProduct(s: Tables, id: Id, c: ProductChanges): (r: Step<Product>)
    ensures !HasProduct(s, id) ==> r == Step(s, Fail(NotFound(NoProduct)))
    ensures HasProduct(s, id) ==>
      var old_ := ProductAt(s, id);
      && r.out.Ok?
      && r.out.value.freelancerId == old_.freelancerId
      && r.out.value.name == (if c.name.Given? then c.name.value else old_.name)
      && r.out.value.description == (if c.description.Given? then c.description.value else old_.description)
      && r.out.value.url == (if c.url.Given? then c.url.value else old_.url)
      && r.out.value.price == (if c.price.Given? then c.price.value else old_.price)
      && r.next == s.(products := s.products[id - 1 := Some(r.out.value)])
  {
    if !HasProduct(s, id) then Step(s, Fail(NotFound(NoProduct)))
    else
      var p := ProductAt(s, id);
      var q := p.(name := Coalesce(c.name, p.name),
                  description := Coalesce(c.description, p.description),
                  url := Coalesce(c.url, p.url),
                  price := Coalesce(c.price, p.price));
      Step(s.(products := s.products[id - 1 := Some(q)]), Ok(q))
  }

  /** An update that sends nothing changes nothing. */
  lemma EmptyUpdateKeepsProduct(s: Tables, id: Id)
    requires HasProduct(s, id)
    ensures UpdateProduct(s, id, ProductChanges(Absent, Null, Absent, Null)) == Step(s, Ok(ProductAt(s, id)))
  {
    assert s.products[id - 1 := Some(ProductAt(s, id))] == s.products;
  }

  /** `DELETE /digital-products/:productId`: removes that product and no other; its id is
      not handed out again. */
  function DeleteProduct(s: Tables, id: Id): (r: Step<()>)
    ensures r.out.Ok? <==> HasProduct(s, id)
    ensures !HasProduct(s, id) ==> r == Step(s, Fail(NotFound(NoProduct)))
    ensures HasProduct(s, id) ==>
      && |r.next.products| == |s.products|
      && !HasProduct(r.next, id)
      && (forall k :: 0 <= k < |s.products| && k != id - 1 ==> r.next.products[k] == s.products[k])
      && r.next == s.(products := r.next.products)
  {
    if !HasProduct(s, id) then Step(s, Fail(NotFound(NoProduct)))
    else Step(s.(products := s.products[id - 1 := None]), Ok(()))
  }

  // ---------------------------------------------------------------------------------------
  // Reviews

  /** The review body: a rating left out is refused, a rating sent as null is stored as null. */
  datatype ReviewArgs = ReviewArgs(reviewerId: Arg<Id>, rating: Arg<real>, comment: Arg<string>)

  predicate RatingAcceptable(rating: Arg<real>) {
    rating != Absent && (rating.Given? ==> 0.0 <= rating.value <= 5.0)
  }

  predicate HasReview(s: Tables, productId: Id, reviewerId: Id) {
    exists k :: 0 <= k < |s.reviews| && s.reviews[k].productId == productId && s.reviews[k].reviewerId == reviewerId
  }

  ghost predicate OneReviewPerPair(s: Tables) {
    forall i, k :: 0 <= i < k < |s.reviews| ==>
      (s.reviews[i].productId, s.reviews[i].reviewerId) != (s.reviews[k].productId, s.reviews[k].reviewerId)
  }

  /** `UPDATE ... WHERE product_id = $3 AND reviewer_id = $4`: every review of the pair gets the
      new rating and comment. */
  function Rewrite(reviews: seq<Review>, productId: Id, reviewerId: Id, rating: Option<real>, comment: Option<string>): (r: seq<Review>)
    ensures |r| == |reviews|
    ensures forall k :: 0 <= k < |r| ==>
      r[k] == if reviews[k].productId == productId && reviews[k].reviewerId == reviewerId
              then reviews[k].(rating := rating, comment := comment)
              else reviews[k]
  {
    seq(|reviews|, k requires 0 <= k < |reviews| =>
      if reviews[k].productId == productId && reviews[k].reviewerId == reviewerId
      then reviews[k].(rating := rating, comment := comment)
      else reviews[k])
  }

  /** `POST /digital-products/:productId/reviews`: an upsert of the reviewer's review. */
  function SubmitProductReview(s: Tables, productId: Id, a: ReviewArgs): (r: Step<Review>)
    ensures !IdGiven(a.reviewerId) || !RatingAcceptable(a.rating) ==> r == Step(s, Fail(InvalidInput))
    ensures IdGiven(a.reviewerId) && RatingAcceptable(a.rating) && !HasProduct(s, productId) ==>
      r == Step(s, Fail(NotFound(NoProduct)))
    ensures IdGiven(a.reviewerId) && RatingAcceptable(a.rating) && HasProduct(s, productId) && !HasUser(s, a.reviewerId.value) ==>
      r == Step(s, Fail(NotFound(NoReviewer)))
    ensures r.out.Ok? <==>
      IdGiven(a.reviewerId) && RatingAcceptable(a.rating) && HasProduct(s, productId) && HasUser(s, a.reviewerId.value)
    ensures r.out.Ok? ==>
      && r.out.value == Review(productId, a.reviewerId.value, Stored(a.rating), Stored(a.comment))
      && (HasReview(s, productId, a.reviewerId.value) ==>
            r.next == s.(reviews := Rewrite(s.reviews, productId, a.reviewerId.value, Stored(a.rating), Stored(a.comment))))
      && (!HasReview(s, productId, a.reviewerId.value) ==> r.next == s.(reviews := s.reviews + [r.out.value]))
  {
    if !IdGiven(a.reviewerId) || a.rating == Absent then Step(s, Fail(InvalidInput))
    else if a.rating.Given? && (a.rating.value < 0.0 || a.rating.value > 5.0) then Step(s, Fail(InvalidInput))
    else if !HasProduct(s, productId) then Step(s, Fail(NotFound(NoProduct)))
    else if !HasUser(s, a.reviewerId.value) then Step(s, Fail(NotFound(NoReviewer)))
    else
      var reviewer := a.reviewerId.value;
      var review := Review(productId, reviewer, Stored(a.rating), Stored(a.comment));
      if HasReview(s, productId, reviewer)
      then Step(s.(reviews := Rewrite(s.reviews, productId, reviewer, review.rating, review.comment)), Ok(review))
      else Step(s.(reviews := s.reviews + [review]), Ok(review))
  }

  /** The upsert keeps one review per product and reviewer, and afterwards that review holds
      exactly what was last submitted. */
  lemma ReviewUpsertKeepsOnePerPair(s: Tables, productId: Id, a: ReviewArgs)
    requires OneReviewPerPair(s)
    ensures var r := SubmitProductReview(s, productId, a);
      && OneReviewPerPair(r.next)
      && (r.out.Ok? ==> exists k :: 0 <= k < |r.next.reviews| && r.next.reviews[k] == r.out.value)
  {
    var r := SubmitProductReview(s, productId, a);
    if r.out.Ok? {
      var reviewer := a.reviewerId.value;
      var rs := r.next.reviews;
      if HasReview(s, productId, reviewer) {
        var j :| 0 <= j < |s.reviews| && s.reviews[j].productId == productId && s.reviews[j].reviewerId == reviewer;
        assert rs[j] == r.out.value;
      } else {
        forall i, k | 0 <= i < k < |rs|
          ensures (rs[i].productId, rs[i].reviewerId) != (rs[k].productId, rs[k].reviewerId)
        {
          if k == |s.reviews| {
            assert rs[i] == s.reviews[i];
          }
        }
        assert rs[|s.reviews|] == r.out.value;
      }
    }
  }

  method HandleCreateProduct(db: Db.Database, a: ProductArgs) returns (r: Outcome<(Id, Product)>)
    modifies db
    ensures Step(db.Snapshot(), r) == CreateProduct(old(db.Snapshot()), a)
  {
    if !Complete(a) {
      return Fail(InvalidInput);
    }
    var owner := a.freelancerId.value;
    if !(1 <= owner <= |db.users|) {
      return Fail(NotFound(NoUser));
    }
    if db.users[owner - 1].userType != Freelancer {
      return Fail(WrongRole);
    }
    var p := Product(owner, a.name.value, a.description.value, a.url.value, a.price.value);
    db.products := db.products + [Some(p)];
    r := Ok((|db.products|, p));
  }

  method HandleUpdateProduct(db: Db.Database, id: Id, c: ProductChanges) returns (r: Outcome<Product>)
    modifies db
    ensures Step(db.Snapshot(), r) == UpdateProduct(old(db.Snapshot()), id, c)
  {
    if !(1 <= id <= |db.products|) || db.products[id - 1].None? {
      return Fail(NotFound(NoProduct));
    }
    var p := db.products[id - 1].value;
    if c.name.Given? { p := p.(name := c.name.value); }
    if c.description.Given? { p := p.(description := c.description.value); }
    if c.url.Given? { p := p.(url := c.url.value); }
    if c.price.Given? { p := p.(price := c.price.value); }
    db.products := db.products[id - 1 := Some(p)];
    r := Ok(p);
  }

  method HandleDeleteProduct(db: Db.Database, id: Id) returns (r: Outcome<()>)
    modifies db
    ensures Step(db.Snapshot(), r) == DeleteProduct(old(db.Snapshot()), id)
  {
    if !(1 <= id <= |db.products|) || db.products[id - 1].None? {
      return Fail(NotFound(NoProduct));
    }
    db.products := db.products[id - 1 := None];
    r := Ok(());
  }

  method HandleSubmitProductReview(db: Db.Database, productId: Id, a: ReviewArgs) returns (r: Outcome<Review>)
    modifies db
    ensures Step(db.Snapshot(), r) == SubmitProductReview(old(db.Snapshot()), productId, a)
  {
    if !IdGiven(a.reviewerId) || a.rating == Absent {
      return Fail(InvalidInput);
    }
    if a.rating.Given? && (a.rating.value < 0.0 || a.rating.value > 5.0) {
      return Fail(InvalidInput);
    }
    if !(1 <= productId <= |db.products|) || db.products[productId - 1].None? {
      return Fail(NotFound(NoProduct));
    }
    var reviewer := a.reviewerId.value;
    if !(1 <= reviewer <= |db.users|) {
      return Fail(NotFound(NoReviewer));
    }
    var review := Review(productId, reviewer, Stored(a.rating), Stored(a.comment));
    if exists k :: 0 <= k < |db.reviews| && db.reviews[k].productId == productId && db.reviews[k].reviewerId == reviewer {
      db.reviews := Rewrite(db.reviews, productId, reviewer, review.rating, review.comment);
    } else {
      db.reviews := db.reviews + [review];
    }
    r := Ok(review);
  }
}
