/** What each call of the review service comes to when it runs alone: the table, the cache, the ratings
    given and the error, whatever the cache and the publisher do. */
module ReviewResults {
  import opened Prelude
  import opened ReviewRating
  import opened ReviewCache
  import opened ReviewService

  /** After a write: the entry is deleted unless that is lost, and the rating published if it is read. */
  lemma ChangeIsAnnounced(s: Store, productId: string, env: nat -> Outcome, k: nat)
    ensures var (after, error) := Complete(s, Invalidating(productId), env, k);
            && error == None
            && after == s.(cache := if env(k).Lost? then s.cache else s.cache - {productId},
                           given := s.given + if env(k + 1).Done? then [RatingOf(s.rows, productId)] else [])
  {
    Unfold(s, Invalidating(productId), env, k);
    var (after, next) := Advance(s, Invalidating(productId), env(k));
    Unfold(after, next, env, k + 1);
    assert s.given + [] == s.given;
  }

  lemma CreateGoesThroughIff(s: Store, id: string, review: Review, env: nat -> Outcome)
    requires env(0).Done?
    ensures var (after, error) := Complete(s, StartCreate(id, review), env, 0);
            var p := review.productId;
            if p == "" || review.customerId == "" || !(1 <= review.rating <= 5) then
              (after, error) == (s, Some(InvalidInput))
            else if id in s.used then (after, error) == (s, Some(Rejected))
            else
              && error == None && after.rows == s.rows[id := review] && after.used == s.used + {id}
              && after.cache == (if env(1).Lost? then s.cache else s.cache - {p})
              && after.given == s.given + if env(2).Done? then [RatingOf(s.rows[id := review], p)] else []
  {
    if StartCreate(id, review).Inserting? {
      Unfold(s, Inserting(id, review), env, 0);
      if id !in s.used { ChangeIsAnnounced(Advance(s, Inserting(id, review), Done).0, review.productId, env, 1); }
    }
  }

  lemma UpdateGoesThroughIff(s: Store, id: string, rating: int, comment: string, env: nat -> Outcome)
    requires env(0).Done? && env(1).Done?
    ensures var (after, error) := Complete(s, StartUpdate(id, rating, comment), env, 0);
            if id == "" || !(1 <= rating <= 5) then (after, error) == (s, Some(InvalidInput))
            else if id !in s.rows then (after, error) == (s, Some(NotFound))
            else
              var p := s.rows[id].productId;
              var rows := s.rows[id := Review(p, s.rows[id].customerId, rating, comment)];
              && error == None && after.rows == rows && after.used == s.used
              && after.cache == (if env(2).Lost? then s.cache else s.cache - {p})
              && after.given == s.given + if env(3).Done? then [RatingOf(rows, p)] else []
  {
    if StartUpdate(id, rating, comment).ReadingToUpdate? {
      Unfold(s, ReadingToUpdate(id, rating, comment), env, 0);
      if id in s.rows {
        var writing := Writing(id, s.rows[id].productId, rating, comment);
        Unfold(s, writing, env, 1);
        ChangeIsAnnounced(Advance(s, writing, Done).0, s.rows[id].productId, env, 2);
      }
    }
  }

  lemma DeleteGoesThroughIff(s: Store, id: string, env: nat -> Outcome)
    requires env(0).Done? && env(1).Done?
    ensures var (after, error) := Complete(s, ReadingToDelete(id), env, 0);
            if id !in s.rows then (after, error) == (s, Some(NotFound))
            else
              var p := s.rows[id].productId;
              && error == None && after.rows == s.rows - {id} && after.used == s.used
              && after.cache == (if env(2).Lost? then s.cache else s.cache - {p})
              && after.given == s.given + if env(3).Done? then [RatingOf(s.rows - {id}, p)] else []
  {
    Unfold(s, ReadingToDelete(id), env, 0);
    if id in s.rows {
      var deleting := Deleting(id, s.rows[id].productId);
      Unfold(s, deleting, env, 1);
      ChangeIsAnnounced(Advance(s, deleting, Done).0, s.rows[id].productId, env, 2);
    }
  }

  /** A live entry that can be read is the answer; otherwise the table's rating is, and is cached unless
      that is lost. Only a failed query is an error. */
  lemma RatingAnswers(s: Store, p: string, env: nat -> Outcome)
    ensures var (after, error) := Complete(s, StartRating(p), env, 0);
            if p == "" then (after, error) == (s, Some(InvalidInput))
            else if env(0).Done? && p in s.cache then (after, error) == (s.(given := s.given + [s.cache[p]]), None)
            else if !env(1).Done? then (after, error) == (s, Some(Unavailable))
            else
              var r := RatingOf(s.rows, p);
              (after, error) ==
              (s.(cache := if env(2).Lost? then s.cache else s.cache[p := r], given := s.given + [r]), None)
  {
    if p != "" {
      Unfold(s, Looking(p), env, 0);
      if !(env(0).Done? && p in s.cache) {
        Unfold(s, Querying(p), env, 1);
        if env(1).Done? { Unfold(s, Filling(RatingOf(s.rows, p), |s.touched|), env, 2); }
      }
    }
  }

  /** A table access that is lost leaves nothing, one whose answer is lost leaves what it does; either
      ends the call with an error. */
  lemma TableFaultEndsTheCall(s: Store, call: Call, o: Outcome)
    requires Writes(call) && !o.Done?
    ensures var (after, next) := Advance(s, call, o);
            next.Finished? && next.error.Some? && after == if o.Lost? then s else Advance(s, call, Done).0
  {
  }

  lemma ReadFaultEndsTheCall(s: Store, call: Call, o: Outcome)
    requires (call.ReadingToUpdate? || call.ReadingToDelete? || call.Querying?) && !o.Done?
    ensures Advance(s, call, o) == (s, Finished(Some(Unavailable)))
  {
  }
}
