/** The order service as the program runs it; each method is one call of the protocol carried to its
    end with nothing in between. */
module OrderService {
  import opened Prelude
  import opened OrderTotal
  import opened OrderProtocol
  import opened OrderHistory

  function Distance(call: Call): nat {
    match call
    case Returned(_) => 0
    case Caching(_) => 1
    case Updating(_, _, _, _) => 2
    case Inserting(_) => 2
    case Reading(_, _) => 3
  }

  /** The store and the reply when a call runs alone; env(k) decides its k-th remote call. */
  function Complete(s: Store, call: Call, env: nat -> Outcome, k: nat): (Store, Reply)
    decreases Distance(call)
  {
    if call.Returned? then (s, call.reply)
    else
      var (after, next) := Advance(s, call, env(k));
      Complete(after, next, env, k + 1)
  }

  lemma Unfold(s: Store, call: Call, env: nat -> Outcome, k: nat)
    requires !call.Returned?
    ensures var (after, next) := Advance(s, call, env(k));
            && Complete(s, call, env, k) == Complete(after, next, env, k + 1)
            && (next.Returned? ==> Complete(s, call, env, k) == (after, next.reply))
  {
  }

  class Service {
    var orders: map<string, Order>
    var history: seq<HistoryRow>
    var cache: map<string, Status>

    constructor ()
      ensures State() == INITIAL.store
    {
      orders, history, cache := map[], [], map[];
    }

    function State(): Store
      reads this
    {
      Store(orders, history, cache)
    }

    method GetByID(id: string, o: Outcome) returns (reply: Reply)
      ensures reply == if !o.Done? then Err(Unavailable) else if id in orders then Ok(orders[id]) else Err(NotFound)
    {
      if !o.Done? { return Err(Unavailable); }
      reply := if id in orders then Ok(orders[id]) else Err(NotFound);
    }

    /** The transaction that inserts an order, its items and its first history row. */
    method InsertOrder(order: Order, o: Outcome) returns (reply: Reply)
      modifies this
      ensures if Insertable(old(orders), order) then
                (State(), if reply.Ok? then Caching(reply.value) else Returned(reply)) ==
                Commit(o, old(State()), order.id, order, HistoryRow(order.id, None, order.status, "order created"))
              else State() == old(State()) && reply == Err(Rejected)
    {
      if order.id in orders || order.total < 0 { return Err(Rejected); }
      var inserted: seq<Item> := [];
      while |inserted| < |order.items|
        invariant inserted <= order.items && forall i | 0 <= i < |inserted| :: ItemStorable(order.items[i])
      {
        var item := order.items[|inserted|];
        if !ItemStorable(item) { return Err(Rejected); }
        inserted := inserted + [item];
      }
      assert inserted == order.items && order.(items := inserted) == order;
      if !o.Lost? {
        orders := orders[order.id := order.(items := inserted)];
        history := history + [HistoryRow(order.id, None, order.status, "order created")];
      }
      reply := if o.Done? then Ok(order) else Err(Unavailable);
    }

    /** The transaction that sets a status and appends its history row. */
    method UpdateOrderStatus(id: string, from: Status, to: Status, reason: string, o: Outcome) returns (reply: Reply)
      modifies this
      ensures if id in old(orders) then
                (State(), if reply.Ok? then Caching(reply.value) else Returned(reply)) ==
                Commit(o, old(State()), id, old(orders)[id].(status := to), HistoryRow(id, Some(from), to, reason))
              else State() == old(State()) && reply == Err(NotFound)
    {
      if id !in orders { return Err(NotFound); }
      var updated := orders[id].(status := to);
      if !o.Lost? {
        orders := orders[id := updated];
        history := history + [HistoryRow(id, Some(from), to, reason)];
      }
      reply := if o.Done? then Ok(updated) else Err(Unavailable);
    }

    method CacheStatus(order: Order, o: Outcome)
      modifies this`cache
      ensures cache == if o.Lost? then old(cache) else old(cache)[order.id := order.status]
    {
      if !o.Lost? { cache := cache[order.id := order.status]; }
    }

    method Create(id: string, customerId: string, items: seq<Item>, env: nat -> Outcome) returns (reply: Reply)
      modifies this
      ensures (State(), reply) == Complete(old(State()), StartCreate(id, customerId, items), env, 0)
    {
      if customerId == "" || |items| == 0 { return Err(InvalidInput); }
      var total := AddUp(items);
      if total.None? { return Err(InvalidInput); }
      var order := Order(id, customerId, items, Created, total.value);
      Unfold(State(), Inserting(order), env, 0);
      reply := InsertOrder(order, env(0));
      if reply.Err? { return; }
      Unfold(State(), Caching(order), env, 1);
      CacheStatus(order, env(1));
    }

    /** The read and the transaction of every status change. */
    method Change(id: string, goal: Goal, env: nat -> Outcome) returns (reply: Reply)
      modifies this
      ensures (State(), reply) == Complete(old(State()), Reading(id, goal), env, 0)
    {
      Unfold(State(), Reading(id, goal), env, 0);
      reply := GetByID(id, env(0));
      if reply.Err? { return; }
      var order := reply.value;
      if goal.Cancelling? && (order.status == Completed || order.status == Canceled) { return Err(InvalidInput); }
      Unfold(State(), Updating(id, order.status, Target(goal), ReasonOf(goal)), env, 1);
      reply := UpdateOrderStatus(id, order.status, Target(goal), ReasonOf(goal), env(1));
      if reply.Err? { return; }
      Unfold(State(), Caching(reply.value), env, 2);
      CacheStatus(reply.value, env(2));
    }

    method UpdateStatus(id: string, status: Status, env: nat -> Outcome) returns (reply: Reply)
      modifies this
      ensures (State(), reply) == Complete(old(State()), StartUpdate(id, Manual(status)), env, 0)
    {
      if id == "" || status.OtherStatus? { return Err(InvalidInput); }
      reply := Change(id, Manual(status), env);
    }

    method Cancel(id: string, reason: string, env: nat -> Outcome) returns (reply: Reply)
      modifies this
      ensures (State(), reply) == Complete(old(State()), StartUpdate(id, Cancelling(reason)), env, 0)
    {
      if id == "" { return Err(InvalidInput); }
      reply := Change(id, Cancelling(reason), env);
    }

    method HandlePaymentSucceeded(id: string, env: nat -> Outcome) returns (reply: Reply)
      modifies this
      ensures (State(), reply) == Complete(old(State()), StartUpdate(id, PaymentSucceeded), env, 0)
    {
      if id == "" { return Err(InvalidInput); }
      reply := Change(id, PaymentSucceeded, env);
    }

    method HandlePaymentFailed(id: string, reason: string, env: nat -> Outcome) returns (reply: Reply)
      modifies this
      ensures (State(), reply) == Complete(old(State()), StartUpdate(id, PaymentFailing(reason)), env, 0)
    {
      if id == "" { return Err(InvalidInput); }
      reply := Change(id, PaymentFailing(reason), env);
    }

    method HandleStockReserved(id: string, o: Outcome) returns (reply: Reply)
      ensures reply == if id == "" then Err(InvalidInput) else if !o.Done? then Err(Unavailable)
                       else if id in orders then Ok(orders[id]) else Err(NotFound)
    {
      if id == "" { return Err(InvalidInput); }
      reply := GetByID(id, o);
    }
  }

  // ---- A client that calls one method at a time ----------------------------------------------

  /** No call but t is between its read and its transaction. */
  ghost predicate Quiet(s: Sys, t: nat) {
    forall u | u in s.calls && u != t :: !s.calls[u].Updating?
  }

  lemma OneMove(actions: seq<Action>, t: nat, o: Outcome, id: string)
    requires Serial(actions, id) && t in Run(actions).calls && Quiet(Run(actions), t)
    ensures var more := actions + [Move(t, o)]; var s := Run(actions);
            var (after, next) := Advance(s.store, s.calls[t], o);
            Run(more) == Sys(after, s.calls[t := next]) && Quiet(Run(more), t) && Serial(more, id)
  {
  }

  /** A method call is a stretch of a schedule, and no other call's update overlaps it. */
  lemma {:induction false} MethodCallIsARun(actions: seq<Action>, env: nat -> Outcome, k: nat, t: nat, id: string)
    returns (more: seq<Action>)
    requires Serial(actions, id) && t in Run(actions).calls && Quiet(Run(actions), t)
    ensures var s := Run(actions);
            var (after, reply) := Complete(s.store, s.calls[t], env, k);
            Run(actions + more) == Sys(after, s.calls[t := Returned(reply)]) && Serial(actions + more, id)
    ensures forall a | a in more :: a.Move? && a.t == t
    decreases Distance(Run(actions).calls[t])
  {
    var s := Run(actions);
    if s.calls[t].Returned? {
      more := [];
      assert actions + [] == actions;
      SetSame(s.calls, t);
    } else {
      var a := Move(t, env(k));
      OneMove(actions, t, env(k), id);
      var rest := MethodCallIsARun(actions + [a], env, k + 1, t, id);
      more := [a] + rest;
      Extended(actions, a, rest);
      Unfold(s.store, s.calls[t], env, k);
      var (after, next) := Advance(s.store, s.calls[t], env(k));
      SetTwice(s.calls, t, next, Returned(Complete(after, next, env, k + 1).1));
    }
  }

  /** Without faults, a status change of a stored order goes through unless it cancels an order that
      is completed or already cancelled; it then leaves one history row and the cached status. */
  lemma ChangeGoesThroughIff(s: Store, id: string, goal: Goal, env: nat -> Outcome)
    requires id != "" && id in s.orders && s.orders[id].id == id && forall k :: env(k).Done?
    requires goal.Manual? ==> !goal.to.OtherStatus?
    ensures var (after, reply) := Complete(s, StartUpdate(id, goal), env, 0);
            var was := s.orders[id].status;
            && (reply.Ok? <==> !(goal.Cancelling? && was in {Completed, Canceled}))
            && (reply.Ok? ==>
                  && reply.value == s.orders[id].(status := Target(goal))
                  && after == Store(s.orders[id := reply.value],
                                    s.history + [HistoryRow(id, Some(was), Target(goal), ReasonOf(goal))],
                                    s.cache[id := Target(goal)]))
            && (reply.Err? ==> after == s && reply == Err(InvalidInput))
  {
    var call := AfterRead(s.orders[id], id, goal);
    assert Complete(s, StartUpdate(id, goal), env, 0) == Complete(s, call, env, 1);
    if call.Updating? {
      var (s1, next) := Advance(s, call, Done);
      assert Complete(s, call, env, 1) == Complete(s1, next, env, 2);
      var s2 := s1.(cache := s1.cache[id := Target(goal)]);
      assert Complete(s1, next, env, 2) == Complete(s2, Returned(Ok(next.order)), env, 3);
    }
  }
}
