/** The rating of a product: the aggregate of its rows in the reviews table. */
module ReviewRating {

  datatype Review = Review(productId: string, customerId: string, rating: int, comment: string)

  datatype Rating = Rating(productId: string, average: real, count: nat)

  type Rows = map<string, Review>

  function IdsOf(rows: Rows, productId: string): set<string> {
    set id | id in rows && rows[id].productId == productId
  }

  ghost function SumOver(rows: Rows, ids: set<string>): int
    requires ids <= rows.Keys
  {
    if ids == {} then 0
    else
      var id :| id in ids;
      rows[id].rating + SumOver(rows, ids - {id})
  }

  /** COALESCE(AVG(rating), 0) and COUNT(*) of the product's rows. */
  ghost function RatingOf(rows: Rows, productId: string): Rating {
    var ids := IdsOf(rows, productId);
    Rating(productId, if ids == {} then 0.0 else SumOver(rows, ids) as real / |ids| as real, |ids|)
  }

  lemma {:induction false} SumRemove(rows: Rows, ids: set<string>, x: string)
    requires ids <= rows.Keys && x in ids
    ensures SumOver(rows, ids) == rows[x].rating + SumOver(rows, ids - {x})
  {
    var id :| id in ids && SumOver(rows, ids) == rows[id].rating + SumOver(rows, ids - {id});
    if id != x {
      SumRemove(rows, ids - {id}, x);
      SumRemove(rows, ids - {x}, id);
      assert ids - {id} - {x} == ids - {x} - {id};
    }
  }

  lemma {:induction false} SumSame(rows: Rows, more: Rows, ids: set<string>)
    requires ids <= rows.Keys && ids <= more.Keys && forall id | id in ids :: rows[id].rating == more[id].rating
    ensures SumOver(rows, ids) == SumOver(more, ids)
  {
    if ids != {} {
      var id :| id in ids;
      SumRemove(rows, ids, id);
      SumRemove(more, ids, id);
      SumSame(rows, more, ids - {id});
    }
  }

  ghost predicate InRange(rows: Rows) {
    forall id | id in rows :: 1 <= rows[id].rating <= 5
  }

  lemma {:induction false} SumInRange(rows: Rows, ids: set<string>)
    requires InRange(rows) && ids <= rows.Keys
    ensures |ids| <= SumOver(rows, ids) <= 5 * |ids|
  {
    if ids != {} {
      var id :| id in ids;
      SumRemove(rows, ids, id);
      SumInRange(rows, ids - {id});
      assert |ids| == |ids - {id}| + 1;
    }
  }

  /** An average from 1 to 5, or 0 when there is no review. */
  predicate Sensible(r: Rating) {
    if r.count == 0 then r.average == 0.0 else 1.0 <= r.average <= 5.0
  }

  /** With every row between 1 and 5, so is the average, unless there is no row and it is 0. */
  lemma AverageInRange(rows: Rows, productId: string)
    requires InRange(rows)
    ensures Sensible(RatingOf(rows, productId))
  {
    var ids := IdsOf(rows, productId);
    SumInRange(rows, ids);
    if |ids| > 0 { QuotientBetween(SumOver(rows, ids), |ids|); }
  }

  lemma QuotientBetween(sum: int, n: int)
    requires n > 0 && n <= sum <= 5 * n
    ensures 1.0 <= sum as real / n as real <= 5.0
  {
    var q := sum as real / n as real;
    assert q * n as real == sum as real;
    assert n as real <= sum as real <= 5.0 * n as real;
    if q > 5.0 { assert q * n as real > 5.0 * n as real; }
  }

  function Stars(rows: Rows, order: seq<string>): int
    requires forall id | id in order :: id in rows
  {
    if order == [] then 0 else Stars(rows, order[..|order| - 1]) + rows[order[|order| - 1]].rating
  }

  predicate NoRepetition(order: seq<string>) {
    forall i, j | 0 <= i < j < |order| :: order[i] != order[j]
  }

  lemma {:induction false} SumIsOfTheList(rows: Rows, ids: set<string>, order: seq<string>)
    requires ids <= rows.Keys && NoRepetition(order) && forall id :: id in order <==> id in ids
    ensures |order| == |ids| && Stars(rows, order) == SumOver(rows, ids)
  {
    if order == [] {
      assert ids == {};
    } else {
      var n := |order| - 1;
      var rest, last := order[..n], order[n];
      assert order == rest + [last];
      forall id ensures id in rest <==> id in ids - {last} { assert id in order <==> id in rest || id == last; }
      SumIsOfTheList(rows, ids - {last}, rest);
      SumRemove(rows, ids, last);
    }
  }

  lemma AverageTimesCount(rows: Rows, productId: string)
    ensures var r := RatingOf(rows, productId);
            r.average * r.count as real == SumOver(rows, IdsOf(rows, productId)) as real
  {
    var sum, n := SumOver(rows, IdsOf(rows, productId)), |IdsOf(rows, productId)|;
    if n > 0 { TimesQuotient(sum as real, n as real); }
  }

  lemma TimesQuotient(sum: real, n: real)
    requires n != 0.0
    ensures (sum / n) * n == sum
  {
  }

  /** The rating is the mean: list the product's reviews in any order, without repetition; their number
      is the count, and their stars add up to the average times it. */
  lemma RatingIsTheMean(rows: Rows, productId: string, order: seq<string>)
    requires NoRepetition(order) && forall id :: id in order <==> id in rows && rows[id].productId == productId
    ensures var r := RatingOf(rows, productId);
            && r.productId == productId && r.count == |order|
            && r.average * r.count as real == Stars(rows, order) as real
  {
    SumIsOfTheList(rows, IdsOf(rows, productId), order);
    AverageTimesCount(rows, productId);
  }

  lemma StarsAddUp(rows: Rows, order: seq<string>, id: string)
    requires (forall x | x in order :: x in rows) && id in rows
    ensures Stars(rows, []) == 0 && Stars(rows, order + [id]) == Stars(rows, order) + rows[id].rating
  {
    assert (order + [id])[..|order|] == order;
  }

  /** A write of one review leaves the ratings of all products but its own alone. */
  lemma OtherProductsKeep(rows: Rows, more: Rows, id: string, productId: string, other: string)
    requires other != productId && more.Keys - {id} == rows.Keys - {id}
    requires forall x | x in rows && x in more && x != id :: more[x] == rows[x]
    requires (id in rows ==> rows[id].productId == productId) && (id in more ==> more[id].productId == productId)
    ensures RatingOf(more, other) == RatingOf(rows, other)
  {
    forall x ensures x in IdsOf(rows, other) <==> x in IdsOf(more, other) {
      if x != id { assert x in rows.Keys - {id} <==> x in more.Keys - {id}; }
    }
    assert IdsOf(rows, other) == IdsOf(more, other);
    SumSame(rows, more, IdsOf(rows, other));
  }

  /** What a create, an update and a delete do to their product's own sum and count. */
  lemma CreateShifts(rows: Rows, id: string, review: Review)
    requires id !in rows
    ensures var more := rows[id := review]; var p := review.productId;
            && |IdsOf(more, p)| == |IdsOf(rows, p)| + 1
            && SumOver(more, IdsOf(more, p)) == SumOver(rows, IdsOf(rows, p)) + review.rating
  {
    var more, p := rows[id := review], review.productId;
    assert IdsOf(more, p) == IdsOf(rows, p) + {id};
    SumRemove(more, IdsOf(more, p), id);
    assert IdsOf(more, p) - {id} == IdsOf(rows, p);
    SumSame(rows, more, IdsOf(rows, p));
  }

  lemma UpdateShifts(rows: Rows, id: string, rating: int, comment: string)
    requires id in rows
    ensures var more := rows[id := rows[id].(rating := rating, comment := comment)]; var p := rows[id].productId;
            && IdsOf(more, p) == IdsOf(rows, p)
            && SumOver(more, IdsOf(more, p)) == SumOver(rows, IdsOf(rows, p)) + rating - rows[id].rating
  {
    var more, p := rows[id := rows[id].(rating := rating, comment := comment)], rows[id].productId;
    assert IdsOf(more, p) == IdsOf(rows, p);
    SumRemove(more, IdsOf(more, p), id);
    SumRemove(rows, IdsOf(rows, p), id);
    SumSame(rows, more, IdsOf(rows, p) - {id});
  }

  lemma DeleteShifts(rows: Rows, id: string)
    requires id in rows
    ensures var more := rows - {id}; var p := rows[id].productId;
            && |IdsOf(more, p)| == |IdsOf(rows, p)| - 1
            && SumOver(more, IdsOf(more, p)) == SumOver(rows, IdsOf(rows, p)) - rows[id].rating
  {
    var more, p := rows - {id}, rows[id].productId;
    assert IdsOf(more, p) == IdsOf(rows, p) - {id};
    SumRemove(rows, IdsOf(rows, p), id);
    SumSame(rows, more, IdsOf(more, p));
  }

  /** The aggregate query, row by row. */
  method Aggregate(rows: Rows, productId: string) returns (r: Rating)
    ensures r == RatingOf(rows, productId)
  {
    var todo := IdsOf(rows, productId);
    ghost var ids := todo;
    var sum, count := 0, 0;
    while todo != {}
      invariant todo <= ids
      invariant count == |ids| - |todo| && sum + SumOver(rows, todo) == SumOver(rows, ids)
      decreases |todo|
    {
      var id :| id in todo;
      SumRemove(rows, todo, id);
      sum, count := sum + rows[id].rating, count + 1;
      todo := todo - {id};
    }
    r := Rating(productId, if count == 0 then 0.0 else sum as real / count as real, count);
  }
}
