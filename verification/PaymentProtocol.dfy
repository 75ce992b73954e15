/** The payment protocol as a step relation: any number of Create, Refund, Confirm and Cancel calls,
    each at its own point of its effect chain, with any remote call failing and any Redis entry
    expiring at any time. */
module PaymentProtocol {
  import opened Prelude
  import opened PaymentTypes

  datatype Subject =
    | SubjectCreated | SubjectSucceeded | SubjectFailed | SubjectRefunded | SubjectCancelled

  /** Everything the service leaves in an append-only place, in the order it happened. */
  datatype Effect =
    | Inserted(row: Payment)
    | Updated(row: Payment)
    | Appended(event: Event)
    | RefundRow(paymentId: string, reason: string, amount: int)
    | Published(subject: Subject, event: Event)
    | Mailed(mail: Mail)
    | Charged(payment: Payment, result: ChargeResult)

  datatype Db = Db(rows: map<string, Payment>, index: map<string, string>, trace: seq<Effect>)

  datatype Stage = Saving | Appending | AppendingRefund | Publishing | Charging | Writing | Mailing

  /** Where a call is: the remote call it makes next. A call that holds a copy of a payment also
      holds the event it will append and publish for it. */
  datatype Call =
    | Lookup(input: Checkout)
    | Fetch(key: string, id: string)
    | Insert(input: Checkout)
    | Read(request: Request)
    | Holding(stage: Stage, p: Payment, e: Event)
    | Returned(reply: Reply)

  /** What the environment decides for one remote call. */
  datatype Choice = Choice(outcome: Outcome, id: string, charge: ChargeResult)

  function SubjectOf(s: Status): Subject {
    match s
    case Pending => SubjectCreated
    case Succeeded => SubjectSucceeded
    case Failed => SubjectFailed
    case Refunded => SubjectRefunded
    case Cancelled => SubjectCancelled
  }

  function StartCreate(input: Checkout): Call {
    if ValidCheckout(input) then Lookup(input) else Returned(Err(InvalidInput))
  }

  function StartRequest(r: Request): Call {
    if ValidRequest(r) then Read(r) else Returned(Err(InvalidInput))
  }

  function Emit(db: Db, e: Effect): Db {
    db.(trace := db.trace + [e])
  }

  function Attempt(o: Outcome, before: Db, after: Db, next: Call): (Db, Call) {
    (if o.Lost? then before else after, if o.Done? then next else Returned(Err(Unavailable)))
  }

  /** The primary key and the unique constraint on idempotency_key. */
  predicate Insertable(rows: map<string, Payment>, p: Payment) {
    p.id !in rows && forall id | id in rows :: rows[id].checkout.key != p.checkout.key
  }

  /** The columns that the update statement sets. */
  function Overwrite(row: Payment, p: Payment): Payment {
    row.(status := p.status, txn := p.txn, refundReason := p.refundReason, failureReason := p.failureReason)
  }

  /** The copy a request writes back, given the row it read; None is an invalid state. */
  function Revise(row: Payment, r: Request): Option<Payment> {
    match r
    case RefundRequest(_, reason) =>
      if row.status.Succeeded? then Some(row.(status := Refunded, refundReason := reason)) else None
    case ConfirmRequest(_, txn) =>
      if row.status.Pending? then Some(row.(status := Succeeded, txn := txn)) else None
    case CancelRequest(_, reason) =>
      if row.status.Refunded? || row.status.Cancelled? then None
      else Some(row.(status := Cancelled, failureReason := reason))
  }

  function RequestEvent(p: Payment, r: Request): Event {
    match r
    case ConfirmRequest(_, _) => EventOf(p)
    case RefundRequest(_, reason) => EventOf(p).(reason := reason)
    case CancelRequest(_, reason) => EventOf(p).(reason := reason)
  }

  function AfterRead(row: Payment, r: Request): Call {
    if r.ConfirmRequest? && row.status.Succeeded? then Returned(Ok(row))
    else match Revise(row, r)
         case None => Returned(Err(InvalidState))
         case Some(p) => Holding(Writing, p, RequestEvent(p, r))
  }

  function AfterPublish(p: Payment, e: Event): Call {
    if e.status.Pending? then Holding(Charging, p, e)
    else if Mailable(p.status) then Holding(Mailing, p, e)
    else Returned(Ok(p))
  }

  function AfterCharge(p: Payment, r: ChargeResult): Call {
    if r.status.Succeeded? || r.status.Failed? then
      var charged := p.(status := r.status, txn := r.txn, failureReason := r.failureReason);
      Holding(Writing, charged, EventOf(charged))
    else Returned(Err(InvalidState))
  }

  function AdvanceHolding(db: Db, stage: Stage, p: Payment, e: Event, c: Choice): (Db, Call) {
    match stage
    case Saving =>
      Attempt(c.outcome, db, db.(index := db.index[p.checkout.key := p.id]), Holding(Appending, p, e))
    case Appending =>
      Attempt(c.outcome, db, Emit(db, Appended(e)),
              Holding(if e.status.Refunded? then AppendingRefund else Publishing, p, e))
    case AppendingRefund =>
      Attempt(c.outcome, db, Emit(db, RefundRow(e.paymentId, e.reason, e.amount)), Holding(Publishing, p, e))
    case Publishing =>
      Attempt(c.outcome, db, Emit(db, Published(SubjectOf(e.status), e)), AfterPublish(p, e))
    case Charging =>
      Attempt(c.outcome, db, Emit(db, Charged(p, c.charge)), AfterCharge(p, c.charge))
    case Writing =>
      if p.id !in db.rows then (db, Returned(Err(NotFound)))
      else
        var row := Overwrite(db.rows[p.id], p);
        Attempt(c.outcome, db, Emit(db.(rows := db.rows[p.id := row]), Updated(row)), Holding(Appending, p, e))
    case Mailing =>
      if !Mailable(p.status) then (db, Returned(Ok(p)))
      else Attempt(c.outcome, db, Emit(db, Mailed(MailFor(p))), Returned(Ok(p)))
  }

  /** One remote call of one service call. */
  function Advance(db: Db, call: Call, c: Choice): (Db, Call) {
    match call
    case Lookup(input) =>
      if !c.outcome.Done? then (db, Returned(Err(Unavailable)))
      else if input.key in db.index then (db, Fetch(input.key, db.index[input.key]))
      else (db, Insert(input))
    case Fetch(_, id) =>
      if !c.outcome.Done? then (db, Returned(Err(Unavailable)))
      else if id in db.rows then (db, Returned(Ok(db.rows[id])))
      else (db, Returned(Err(NotFound)))
    case Insert(input) =>
      var p := NewPayment(c.id, input);
      if !Insertable(db.rows, p) then (db, Returned(Err(Conflict)))
      else Attempt(c.outcome, db, Emit(db.(rows := db.rows[p.id := p]), Inserted(p)), Holding(Saving, p, EventOf(p)))
    case Read(r) =>
      if !c.outcome.Done? then (db, Returned(Err(Unavailable)))
      else if r.id !in db.rows then (db, Returned(Err(NotFound)))
      else (db, AfterRead(db.rows[r.id], r))
    case Holding(stage, p, e) => AdvanceHolding(db, stage, p, e, c)
    case Returned(_) => (db, call)
  }

  datatype Sys = Sys(db: Db, calls: map<nat, Call>)

  datatype Action =
    | BeginCreate(t: nat, input: Checkout)
    | BeginRequest(t: nat, request: Request)
    | Move(t: nat, choice: Choice)
    | Evict(key: string)

  const INITIAL := Sys(Db(map[], map[], []), map[])

  function Step(s: Sys, a: Action): Sys {
    match a
    case BeginCreate(t, input) => if t in s.calls then s else s.(calls := s.calls[t := StartCreate(input)])
    case BeginRequest(t, r) => if t in s.calls then s else s.(calls := s.calls[t := StartRequest(r)])
    case Move(t, c) =>
      if t !in s.calls then s
      else
        var (db, call) := Advance(s.db, s.calls[t], c);
        Sys(db, s.calls[t := call])
    case Evict(key) => s.(db := s.db.(index := s.db.index - {key}))
  }

  /** The state after a schedule: the actions in order, whichever calls they belong to. */
  function Run(actions: seq<Action>): Sys {
    if actions == [] then INITIAL else Step(Run(actions[..|actions| - 1]), actions[|actions| - 1])
  }
}
