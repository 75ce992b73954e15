/** The order service as a step relation: the transaction that changes a status and writes its
    history row is one step, the read before it and the cache write after it are others. */
module OrderProtocol {
  import opened Prelude
  import opened OrderTotal

  datatype Status = Created | Paid | PaymentFailed | Shipped | Completed | Canceled | OtherStatus(name: string)

  datatype Order = Order(id: string, customerId: string, items: seq<Item>, status: Status, total: int64)

  datatype HistoryRow = HistoryRow(orderId: string, from: Option<Status>, to: Status, reason: string)

  datatype Store = Store(orders: map<string, Order>, history: seq<HistoryRow>, cache: map<string, Status>)

  datatype Error = InvalidInput | NotFound | Rejected | Unavailable

  type Reply = Result<Order, Error>

  /** Why a status changes: an operator, a customer, or a message from the payment service. */
  datatype Goal =
    | Manual(to: Status)
    | Cancelling(reason: string)
    | PaymentSucceeded
    | PaymentFailing(reason: string)

  datatype Call =
    | Inserting(order: Order)
    | Reading(id: string, goal: Goal)
    | Updating(id: string, from: Status, to: Status, reason: string)
    | Caching(order: Order)
    | Returned(reply: Reply)

  const MANUAL_REASON := "manual status update"
  const SUCCEEDED_REASON := "payment.succeeded"
  const MAX_QUANTITY := 0x7FFF_FFFF

  function StartCreate(id: string, customerId: string, items: seq<Item>): Call {
    if customerId == "" || StoredTotal(items).None? then Returned(Err(InvalidInput))
    else Inserting(Order(id, customerId, items, Created, StoredTotal(items).value))
  }

  function StartUpdate(id: string, goal: Goal): Call {
    if id == "" || (goal.Manual? && goal.to.OtherStatus?) then Returned(Err(InvalidInput))
    else Reading(id, goal)
  }

  function Target(goal: Goal): Status {
    match goal
    case Manual(to) => to
    case Cancelling(_) => Canceled
    case PaymentSucceeded => Paid
    case PaymentFailing(_) => PaymentFailed
  }

  function ReasonOf(goal: Goal): string {
    match goal
    case Manual(_) => MANUAL_REASON
    case Cancelling(reason) => reason
    case PaymentSucceeded => SUCCEEDED_REASON
    case PaymentFailing(reason) => reason
  }

  function AfterRead(order: Order, id: string, goal: Goal): Call {
    if goal.Cancelling? && (order.status.Completed? || order.status.Canceled?) then Returned(Err(InvalidInput))
    else Updating(id, order.status, Target(goal), ReasonOf(goal))
  }

  /** The checks on an item row, whose quantity is a 32-bit column. */
  predicate ItemStorable(item: Item) {
    0 < item.quantity <= MAX_QUANTITY && item.price >= 0
  }

  /** The primary key and the checks on the order row and its item rows. */
  predicate Insertable(orders: map<string, Order>, order: Order) {
    order.id !in orders && order.total >= 0 && forall i | 0 <= i < |order.items| :: ItemStorable(order.items[i])
  }

  function Commit(o: Outcome, before: Store, id: string, order: Order, row: HistoryRow): (Store, Call) {
    (if o.Lost? then before else before.(orders := before.orders[id := order], history := before.history + [row]),
     if o.Done? then Caching(order) else Returned(Err(Unavailable)))
  }

  function Advance(s: Store, call: Call, o: Outcome): (Store, Call) {
    match call
    case Inserting(order) =>
      if !Insertable(s.orders, order) then (s, Returned(Err(Rejected)))
      else Commit(o, s, order.id, order, HistoryRow(order.id, None, order.status, "order created"))
    case Reading(id, goal) =>
      if !o.Done? then (s, Returned(Err(Unavailable)))
      else if id !in s.orders then (s, Returned(Err(NotFound)))
      else (s, AfterRead(s.orders[id], id, goal))
    case Updating(id, from, to, reason) =>
      if id !in s.orders then (s, Returned(Err(NotFound)))
      else Commit(o, s, id, s.orders[id].(status := to), HistoryRow(id, Some(from), to, reason))
    case Caching(order) =>
      // A cache error is logged and otherwise ignored.
      (if o.Lost? then s else s.(cache := s.cache[order.id := order.status]), Returned(Ok(order)))
    case Returned(_) => (s, call)
  }

  datatype Sys = Sys(store: Store, calls: map<nat, Call>)

  datatype Action =
    | BeginCreate(t: nat, newId: string, customerId: string, items: seq<Item>)
    | BeginUpdate(t: nat, id: string, goal: Goal)
    | Move(t: nat, outcome: Outcome)
    | Evict(id: string)

  const INITIAL := Sys(Store(map[], [], map[]), map[])

  function Step(s: Sys, a: Action): Sys {
    match a
    case BeginCreate(t, id, customerId, items) =>
      if t in s.calls then s else s.(calls := s.calls[t := StartCreate(id, customerId, items)])
    case BeginUpdate(t, id, goal) =>
      if t in s.calls then s else s.(calls := s.calls[t := StartUpdate(id, goal)])
    case Move(t, o) =>
      if t !in s.calls then s
      else
        var (store, call) := Advance(s.store, s.calls[t], o);
        Sys(store, s.calls[t := call])
    case Evict(id) => s.(store := s.store.(cache := s.store.cache - {id}))
  }

  function Run(actions: seq<Action>): Sys {
    if actions == [] then INITIAL else Step(Run(actions[..|actions| - 1]), actions[|actions| - 1])
  }
}
