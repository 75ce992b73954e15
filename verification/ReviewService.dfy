/** The review service as the program runs it; each method is one call of the cache protocol carried
    to its end with nothing in between. */
module ReviewService {
  import opened Prelude
  import opened ReviewRating
  import opened ReviewCache

  function Distance(call: Call): nat {
    match call
    case Finished(_) => 0
    case Republishing(_) => 1
    case Filling(_, _) => 1
    case Invalidating(_) => 2
    case Querying(_) => 2
    case Looking(_) => 3
    case Inserting(_, _) => 3
    case Writing(_, _, _, _) => 3
    case Deleting(_, _) => 3
    case ReadingToUpdate(_, _, _) => 4
    case ReadingToDelete(_) => 4
  }

  /** The store and the error, if any, when a call runs alone; env(k) decides its k-th remote call. */
  ghost function Complete(s: Store, call: Call, env: nat -> Outcome, k: nat): (Store, Option<Error>)
    decreases Distance(call)
  {
    if call.Finished? then (s, call.error)
    else
      var (after, next) := Advance(s, call, env(k));
      Complete(after, next, env, k + 1)
  }

  lemma Unfold(s: Store, call: Call, env: nat -> Outcome, k: nat)
    requires !call.Finished?
    ensures var (after, next) := Advance(s, call, env(k));
            && Complete(s, call, env, k) == Complete(after, next, env, k + 1)
            && (next.Finished? ==> Complete(s, call, env, k) == (after, next.error))
  {
  }

  lemma {:induction false} CompleteKeepsStore(s: Store, call: Call, env: nat -> Outcome, k: nat)
    requires StoreInv(s) && CallOk(s, call)
    ensures StoreInv(Complete(s, call, env, k).0)
    decreases Distance(call)
  {
    if !call.Finished? {
      OwnStep(s, call, env(k));
      var (after, next) := Advance(s, call, env(k));
      CompleteKeepsStore(after, next, env, k + 1);
    }
  }

  class Service {
    var rows: Rows
    var cache: map<string, Rating>
    ghost var used: set<string>
    ghost var past: seq<Rows>
    ghost var touched: seq<string>
    ghost var given: seq<Rating>

    constructor ()
      ensures Observed() == INITIAL.store && Valid()
    {
      rows, cache, used := map[], map[], {};
      past, touched, given := [map[]], [], [];
    }

    ghost function Observed(): Store
      reads this
    {
      Store(rows, used, cache, past, touched, given)
    }

    ghost predicate Valid()
      reads this
    {
      StoreInv(Observed())
    }

    /** One statement that changes the table; the write is logged for the product it concerns. */
    method Execute(after: Rows, productId: string, o: Outcome) returns (error: Option<Error>)
      modifies this`rows, this`past, this`touched
      ensures (Observed(), if error.None? then Invalidating(productId) else Finished(error)) ==
              Change(o, old(Observed()), after, productId)
    {
      if !o.Lost? {
        rows, past, touched := after, past + [after], touched + [productId];
      }
      error := if o.Done? then None else Some(Unavailable);
    }

    /** Deletes the cached rating and publishes the current one; neither failure is reported. */
    method RatingChanged(productId: string, env: nat -> Outcome, k: nat)
      modifies this`cache, this`given
      ensures (Observed(), None) == Complete(old(Observed()), Invalidating(productId), env, k)
    {
      Unfold(Observed(), Invalidating(productId), env, k);
      if !env(k).Lost? { cache := cache - {productId}; }
      Unfold(Observed(), Republishing(productId), env, k + 1);
      if env(k + 1).Done? {
        var rating := Aggregate(rows, productId);
        given := given + [rating];
      }
    }

    /** The id is read off the clock, which never hands out the id of a deleted review again. */
    method Create(id: string, review: Review, env: nat -> Outcome) returns (error: Option<Error>)
      requires Valid() && (id in used ==> id in rows)
      modifies this
      ensures Valid() && (Observed(), error) == Complete(old(Observed()), StartCreate(id, review), env, 0)
    {
      CompleteKeepsStore(Observed(), StartCreate(id, review), env, 0);
      if review.productId == "" || review.customerId == "" || review.rating < 1 || review.rating > 5 {
        return Some(InvalidInput);
      }
      Unfold(Observed(), Inserting(id, review), env, 0);
      if id in rows { return Some(Rejected); }
      if !env(0).Lost? { used := used + {id}; }
      error := Execute(rows[id := review], review.productId, env(0));
      if error.Some? { return; }
      RatingChanged(review.productId, env, 1);
    }

    method Update(id: string, rating: int, comment: string, env: nat -> Outcome) returns (error: Option<Error>)
      requires Valid()
      modifies this
      ensures Valid() && (Observed(), error) == Complete(old(Observed()), StartUpdate(id, rating, comment), env, 0)
    {
      CompleteKeepsStore(Observed(), StartUpdate(id, rating, comment), env, 0);
      if id == "" || rating < 1 || rating > 5 { return Some(InvalidInput); }
      Unfold(Observed(), ReadingToUpdate(id, rating, comment), env, 0);
      if !env(0).Done? { return Some(Unavailable); }
      if id !in rows { return Some(NotFound); }
      var review := rows[id].(rating := rating, comment := comment);
      Unfold(Observed(), Writing(id, review.productId, rating, comment), env, 1);
      error := Execute(rows[id := review], review.productId, env(1));
      if error.Some? { return; }
      RatingChanged(review.productId, env, 2);
    }

    method Delete(id: string, env: nat -> Outcome) returns (error: Option<Error>)
      requires Valid()
      modifies this
      ensures Valid() && (Observed(), error) == Complete(old(Observed()), ReadingToDelete(id), env, 0)
    {
      CompleteKeepsStore(Observed(), ReadingToDelete(id), env, 0);
      Unfold(Observed(), ReadingToDelete(id), env, 0);
      if !env(0).Done? { return Some(Unavailable); }
      if id !in rows { return Some(NotFound); }
      var productId := rows[id].productId;
      Unfold(Observed(), Deleting(id, productId), env, 1);
      error := Execute(rows - {id}, productId, env(1));
      if error.Some? { return; }
      RatingChanged(productId, env, 2);
    }

    /** Cache-aside: the rating answered was exact at some moment, and is a sensible one. */
    method Rating(productId: string, env: nat -> Outcome) returns (reply: Result<Rating, Error>)
      requires Valid()
      modifies this
      ensures Valid() && (Observed(), if reply.Ok? then None else Some(reply.error)) ==
                         Complete(old(Observed()), StartRating(productId), env, 0)
      ensures given == if reply.Ok? then old(given) + [reply.value] else old(given)
      ensures reply.Ok? ==> WasRating(past, reply.value) && reply.value.productId == productId && Sensible(reply.value)
    {
      CompleteKeepsStore(Observed(), StartRating(productId), env, 0);
      reply := Answer(productId, env);
      if reply.Ok? {
        assert given[|given| - 1] == reply.value;
        WasIsSensible(Observed(), reply.value);
      }
    }

    method Answer(productId: string, env: nat -> Outcome) returns (reply: Result<Rating, Error>)
      modifies this`cache, this`given
      ensures (Observed(), if reply.Ok? then None else Some(reply.error)) ==
              Complete(old(Observed()), StartRating(productId), env, 0)
      ensures given == if reply.Ok? then old(given) + [reply.value] else old(given)
      ensures reply.Ok? && reply.value != RatingOf(rows, productId) ==>
                productId in old(cache) && reply.value == old(cache)[productId]
    {
      if productId == "" { return Err(InvalidInput); }
      Unfold(Observed(), Looking(productId), env, 0);
      if env(0).Done? && productId in cache {
        given := given + [cache[productId]];
        return Ok(cache[productId]);
      }
      reply := Query(productId, env);
    }

    /** The second half of a read that missed: the query and the fill, whose failure is not reported. */
    method Query(productId: string, env: nat -> Outcome) returns (reply: Result<Rating, Error>)
      modifies this`cache, this`given
      ensures (Observed(), if reply.Ok? then None else Some(reply.error)) ==
              Complete(old(Observed()), Querying(productId), env, 1)
      ensures given == if reply.Ok? then old(given) + [reply.value] else old(given)
      ensures reply.Ok? ==> reply.value == RatingOf(old(rows), productId)
    {
      Unfold(Observed(), Querying(productId), env, 1);
      if !env(1).Done? { return Err(Unavailable); }
      var rating := Aggregate(rows, productId);
      Unfold(Observed(), Filling(rating, |touched|), env, 2);
      if !env(2).Lost? { cache := cache[productId := rating]; }
      given := given + [rating];
      reply := Ok(rating);
    }
  }

  // ---- A client that calls one method at a time ----------------------------------------------

  /** Nothing was written since the call queried. */
  predicate FreshFill(s: Store, call: Call) {
    call.Filling? ==> call.stamp == |s.touched|
  }

  lemma FillStaysFresh(s: Store, call: Call, o: Outcome)
    requires FreshFill(s, call)
    ensures var (after, next) := Advance(s, call, o); FreshFill(after, next)
  {
  }

  lemma OneMove(actions: seq<Action>, t: nat, o: Outcome)
    requires t in Run(actions).calls && FreshFill(Run(actions).store, Run(actions).calls[t])
    ensures var more := actions + [Move(t, o)]; var s := Run(actions);
            var (after, next) := Advance(s.store, s.calls[t], o);
            && Run(more) == Sys(after, s.calls[t := next]) && FreshFill(after, next)
            && (Careful(actions) && o.Done? ==> Careful(more))
  {
    FillStaysFresh(Run(actions).store, Run(actions).calls[t], o);
    assert (actions + [Move(t, o)])[..|actions|] == actions;
    assert SafeFill(Run(actions), Run(actions).calls[t]);
  }

  /** A method call is a stretch of a schedule; without faults it is a careful one. */
  lemma {:induction false} CompleteIsARun(actions: seq<Action>, env: nat -> Outcome, k: nat, t: nat)
    returns (more: seq<Action>)
    requires t in Run(actions).calls && FreshFill(Run(actions).store, Run(actions).calls[t])
    ensures var s := Run(actions);
            var (after, error) := Complete(s.store, s.calls[t], env, k);
            Run(actions + more) == Sys(after, s.calls[t := Finished(error)])
    ensures Careful(actions) && (forall k :: env(k).Done?) ==> Careful(actions + more)
    ensures forall a | a in more :: a.Move? && a.t == t
    decreases Distance(Run(actions).calls[t])
  {
    var s := Run(actions);
    if s.calls[t].Finished? {
      more := [];
      assert actions + [] == actions;
      SetSame(s.calls, t);
    } else {
      var a := Move(t, env(k));
      OneMove(actions, t, env(k));
      var rest := CompleteIsARun(actions + [a], env, k + 1, t);
      more := [a] + rest;
      Extended(actions, a, rest);
      Unfold(s.store, s.calls[t], env, k);
      var (after, next) := Advance(s.store, s.calls[t], env(k));
      SetTwice(s.calls, t, next, Finished(Complete(after, next, env, k + 1).1));
    }
  }

  /** So what holds of all schedules holds of every client, and without faults every cached rating is
      the table's whenever no call is under way. */
  lemma MethodCallIsARun(actions: seq<Action>, begin: Action, env: nat -> Outcome) returns (more: seq<Action>)
    requires !begin.Move? && !begin.Expire? && begin.t !in Run(actions).calls
    ensures var s := Run(actions + [begin]);
            var done := actions + [begin] + more;
            var (after, error) := Complete(Run(actions).store, s.calls[begin.t], env, 0);
            && begin.t in s.calls && Run(done) == Sys(after, s.calls[begin.t := Finished(error)])
            && (Careful(actions) && (forall k :: env(k).Done?) ==> Careful(done))
    ensures forall a | a in more :: a.Move? && a.t == begin.t
  {
    var begun := actions + [begin];
    assert begun[..|actions|] == actions;
    more := CompleteIsARun(begun, env, 0, begin.t);
  }

  lemma RestingCacheIsCurrent(actions: seq<Action>, productId: string)
    requires Careful(actions) && forall t | t in Run(actions).calls :: Run(actions).calls[t].Finished?
    ensures var s := Run(actions).store;
            productId in s.cache ==> s.cache[productId] == RatingOf(s.rows, productId)
  {
    CacheIsCurrentOrPending(actions, productId);
  }
}
