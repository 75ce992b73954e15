/** What each call of the order service comes to when it runs alone: the order, its history row, the
    cached status and the reply, field by field. */
module OrderResults {
  import opened Prelude
  import opened OrderTotal
  import opened OrderProtocol
  import opened OrderService

  /** The service accepts exactly these inputs, the tables exactly these orders. A lost cache write is
      not reported. */
  lemma CreateGoesThroughIff(s: Store, id: string, customerId: string, items: seq<Item>, env: nat -> Outcome)
    requires env(0).Done?
    ensures var (after, reply) := Complete(s, StartCreate(id, customerId, items), env, 0);
            var acceptable := customerId != "" && items != [] && forall i | 0 <= i < |items| ::
                                items[i].productId != "" && items[i].quantity > 0 && items[i].price >= 0;
            var total := Wrap64(TrueTotal(items));
            var storable := id !in s.orders && total >= 0 && forall i | 0 <= i < |items| ::
                              items[i].quantity <= 0x7FFF_FFFF;
            if !acceptable then (after, reply) == (s, Err(InvalidInput))
            else if !storable then (after, reply) == (s, Err(Rejected))
            else
              var order := Order(id, customerId, items, Created, total);
              && reply == Ok(order) && after.orders == s.orders[id := order]
              && after.history == s.history + [HistoryRow(id, None, Created, "order created")]
              && after.cache == if env(1).Lost? then s.cache else s.cache[id := Created]
  {
    var call := StartCreate(id, customerId, items);
    if call.Inserting? {
      Unfold(s, call, env, 0);
      var (after, next) := Advance(s, call, env(0));
      if next.Caching? { Unfold(after, next, env, 1); }
    }
  }

  /** The read, the transaction and the cache write of a status change. */
  lemma ChangeLeaves(s: Store, id: string, goal: Goal, to: Status, reason: string, env: nat -> Outcome)
    requires id in s.orders && s.orders[id].id == id && env(0).Done? && env(1).Done?
    requires AfterRead(s.orders[id], id, goal) == Updating(id, s.orders[id].status, to, reason)
    ensures var order := s.orders[id].(status := to);
            Complete(s, Reading(id, goal), env, 0) ==
            (Store(s.orders[id := order], s.history + [HistoryRow(id, Some(s.orders[id].status), to, reason)],
                   if env(2).Lost? then s.cache else s.cache[id := to]),
             Ok(order))
  {
    var call := Updating(id, s.orders[id].status, to, reason);
    Unfold(s, Reading(id, goal), env, 0);
    Unfold(s, call, env, 1);
    var (after, next) := Advance(s, call, env(1));
    Unfold(after, next, env, 2);
  }

  lemma UpdateStatusGoesThroughIff(s: Store, id: string, to: Status, env: nat -> Outcome)
    requires (id in s.orders ==> s.orders[id].id == id) && env(0).Done? && env(1).Done?
    ensures var (after, reply) := Complete(s, StartUpdate(id, Manual(to)), env, 0);
            if id == "" || to !in {Created, Paid, PaymentFailed, Shipped, Completed, Canceled} then
              (after, reply) == (s, Err(InvalidInput))
            else if id !in s.orders then (after, reply) == (s, Err(NotFound))
            else
              var was, order := s.orders[id].status, s.orders[id].(status := to);
              && reply == Ok(order) && after.orders == s.orders[id := order]
              && after.history == s.history + [HistoryRow(id, Some(was), to, "manual status update")]
              && after.cache == if env(2).Lost? then s.cache else s.cache[id := to]
  {
    if StartUpdate(id, Manual(to)).Reading? {
      if id in s.orders { ChangeLeaves(s, id, Manual(to), to, "manual status update", env); }
      else { Unfold(s, Reading(id, Manual(to)), env, 0); }
    }
  }

  lemma CancelGoesThroughIff(s: Store, id: string, reason: string, env: nat -> Outcome)
    requires (id in s.orders ==> s.orders[id].id == id) && env(0).Done? && env(1).Done?
    ensures var (after, reply) := Complete(s, StartUpdate(id, Cancelling(reason)), env, 0);
            if id == "" then (after, reply) == (s, Err(InvalidInput))
            else if id !in s.orders then (after, reply) == (s, Err(NotFound))
            else if s.orders[id].status == Completed || s.orders[id].status == Canceled then
              (after, reply) == (s, Err(InvalidInput))
            else
              var was, order := s.orders[id].status, s.orders[id].(status := Canceled);
              && reply == Ok(order) && after.orders == s.orders[id := order]
              && after.history == s.history + [HistoryRow(id, Some(was), Canceled, reason)]
              && after.cache == if env(2).Lost? then s.cache else s.cache[id := Canceled]
  {
    if id != "" {
      if id in s.orders && s.orders[id].status != Completed && s.orders[id].status != Canceled {
        ChangeLeaves(s, id, Cancelling(reason), Canceled, reason, env);
      } else {
        Unfold(s, Reading(id, Cancelling(reason)), env, 0);
      }
    }
  }

  lemma PaymentSucceededGoesThroughIff(s: Store, id: string, env: nat -> Outcome)
    requires (id in s.orders ==> s.orders[id].id == id) && env(0).Done? && env(1).Done?
    ensures var (after, reply) := Complete(s, StartUpdate(id, PaymentSucceeded), env, 0);
            if id == "" then (after, reply) == (s, Err(InvalidInput))
            else if id !in s.orders then (after, reply) == (s, Err(NotFound))
            else
              var was, order := s.orders[id].status, s.orders[id].(status := Paid);
              && reply == Ok(order) && after.orders == s.orders[id := order]
              && after.history == s.history + [HistoryRow(id, Some(was), Paid, "payment.succeeded")]
              && after.cache == if env(2).Lost? then s.cache else s.cache[id := Paid]
  {
    if id != "" {
      if id in s.orders { ChangeLeaves(s, id, PaymentSucceeded, Paid, "payment.succeeded", env); }
      else { Unfold(s, Reading(id, PaymentSucceeded), env, 0); }
    }
  }

  lemma PaymentFailedGoesThroughIff(s: Store, id: string, reason: string, env: nat -> Outcome)
    requires (id in s.orders ==> s.orders[id].id == id) && env(0).Done? && env(1).Done?
    ensures var (after, reply) := Complete(s, StartUpdate(id, PaymentFailing(reason)), env, 0);
            if id == "" then (after, reply) == (s, Err(InvalidInput))
            else if id !in s.orders then (after, reply) == (s, Err(NotFound))
            else
              var was, order := s.orders[id].status, s.orders[id].(status := PaymentFailed);
              && reply == Ok(order) && after.orders == s.orders[id := order]
              && after.history == s.history + [HistoryRow(id, Some(was), PaymentFailed, reason)]
              && after.cache == if env(2).Lost? then s.cache else s.cache[id := PaymentFailed]
  {
    if id != "" {
      if id in s.orders { ChangeLeaves(s, id, PaymentFailing(reason), PaymentFailed, reason, env); }
      else { Unfold(s, Reading(id, PaymentFailing(reason)), env, 0); }
    }
  }

  /** A remote call that is lost leaves nothing, one whose answer is lost leaves what it does; either
      ends the service call with an error, except that a cache write's fault is not reported. */
  lemma FaultEndsTheCall(s: Store, call: Call, o: Outcome)
    requires !call.Returned? && !o.Done?
    ensures var (after, next) := Advance(s, call, o);
            && next.Returned? && (next.reply.Ok? <==> call.Caching?)
            && after == if o.Lost? then s else Advance(s, call, Done).0
  {
  }
}
