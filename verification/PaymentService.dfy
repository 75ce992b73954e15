/** The payment service as the program runs it: methods that change the stores in sequence. Each is
    proved to be one call of the protocol, carried to its end with nothing in between. */
module PaymentService {
  import opened Prelude
  import opened PaymentTypes
  import opened PaymentProtocol
  import opened PaymentInterleaving
  import opened PaymentSerial
  import opened PaymentMoney

  // ---- A call carried to its end -------------------------------------------------------------

  /** An upper bound on the remote calls a call still makes. */
  function Distance(call: Call): nat {
    match call
    case Returned(_) => 0
    case Fetch(_, _) => 1
    case Read(_) => 6
    case Insert(_) => 11
    case Lookup(_) => 12
    case Holding(stage, _, e) =>
      match stage
      case Mailing => 1
      case Charging => 6
      case Saving => 10
      case Publishing => if e.status.Pending? then 7 else 2
      case AppendingRefund => if e.status.Pending? then 8 else 3
      case Appending => if e.status.Pending? then 9 else 4
      case Writing => if e.status.Pending? then 10 else 5
  }

  /** The stores and the reply when a call runs alone; env(k) decides its k-th remote call. */
  function Complete(db: Db, call: Call, env: nat -> Choice, k: nat): (Db, Reply)
    decreases Distance(call)
  {
    if call.Returned? then (db, call.reply)
    else
      var (after, next) := Advance(db, call, env(k));
      Complete(after, next, env, k + 1)
  }

  lemma Unfold(db: Db, call: Call, env: nat -> Choice, k: nat)
    requires !call.Returned?
    ensures var (after, next) := Advance(db, call, env(k));
            && Complete(db, call, env, k) == Complete(after, next, env, k + 1)
            && (next.Returned? ==> Complete(db, call, env, k) == (after, next.reply))
  {
  }

  // ---- The program ---------------------------------------------------------------------------

  class Service {
    var rows: map<string, Payment>
    var index: map<string, string>
    var trace: seq<Effect>

    constructor ()
      ensures State() == INITIAL.db
    {
      rows, index, trace := map[], map[], [];
    }

    function State(): Db
      reads this
    {
      Db(rows, index, trace)
    }

    method GetPaymentID(key: string, o: Outcome) returns (found: Option<string>, ok: bool)
      ensures ok == o.Done?
      ensures found == if key in index then Some(index[key]) else None
    {
      found, ok := if key in index then Some(index[key]) else None, o.Done?;
    }

    method SavePaymentID(key: string, id: string, o: Outcome) returns (ok: bool)
      modifies this`index
      ensures ok == o.Done? && index == if o.Lost? then old(index) else old(index)[key := id]
    {
      if !o.Lost? { index := index[key := id]; }
      ok := o.Done?;
    }

    method GetByID(id: string, o: Outcome) returns (reply: Reply)
      ensures reply == if !o.Done? then Err(Unavailable) else if id in rows then Ok(rows[id]) else Err(NotFound)
    {
      if !o.Done? { return Err(Unavailable); }
      reply := if id in rows then Ok(rows[id]) else Err(NotFound);
    }

    method InsertRow(p: Payment, o: Outcome) returns (reply: Reply)
      modifies this`rows, this`trace
      ensures if !Insertable(old(rows), p) then State() == old(State()) && reply == Err(Conflict)
              else
                && State() == (if o.Lost? then old(State())
                               else Emit(old(State()).(rows := old(rows)[p.id := p]), Inserted(p)))
                && reply == if o.Done? then Ok(p) else Err(Unavailable)
    {
      if !Insertable(rows, p) { return Err(Conflict); }
      if !o.Lost? { rows, trace := rows[p.id := p], trace + [Inserted(p)]; }
      reply := if o.Done? then Ok(p) else Err(Unavailable);
    }

    method UpdateRow(p: Payment, o: Outcome) returns (reply: Reply)
      modifies this`rows, this`trace
      ensures if p.id !in old(rows) then State() == old(State()) && reply == Err(NotFound)
              else
                && State() == (if o.Lost? then old(State())
                               else
                                 Emit(old(State()).(rows := old(rows)[p.id := Overwrite(old(rows)[p.id], p)]),
                                      Updated(Overwrite(old(rows)[p.id], p))))
                && reply == if o.Done? then Ok(p) else Err(Unavailable)
    {
      if p.id !in rows { return Err(NotFound); }
      if !o.Lost? {
        var row := Overwrite(rows[p.id], p);
        rows, trace := rows[p.id := row], trace + [Updated(row)];
      }
      reply := if o.Done? then Ok(p) else Err(Unavailable);
    }

    /** Appending to an append-only table, publishing, charging and mailing. */
    method Do(f: Effect, o: Outcome) returns (ok: bool)
      modifies this`trace
      ensures ok == o.Done? && trace == if o.Lost? then old(trace) else old(trace) + [f]
    {
      if !o.Lost? { trace := trace + [f]; }
      ok := o.Done?;
    }

    method Create(input: Checkout, env: nat -> Choice) returns (reply: Reply)
      modifies this
      ensures (State(), reply) == Complete(old(State()), StartCreate(input), env, 0)
    {
      if !ValidCheckout(input) { return Err(InvalidInput); }
      Unfold(State(), Lookup(input), env, 0);
      var found, ok := GetPaymentID(input.key, env(0).outcome);
      if !ok { return Err(Unavailable); }
      if found.Some? {
        Unfold(State(), Fetch(input.key, found.value), env, 1);
        reply := GetByID(found.value, env(1).outcome);
        return;
      }
      Unfold(State(), Insert(input), env, 1);
      var created := NewPayment(env(1).id, input);
      reply := InsertRow(created, env(1).outcome);
      if reply.Err? { return; }
      reply := Open(created, env);
    }

    /** The second half of Create: from saving the key's entry on. */
    method Open(row: Payment, env: nat -> Choice) returns (reply: Reply)
      requires row.status.Pending?
      modifies this
      ensures (State(), reply) == Complete(old(State()), Holding(Saving, row, EventOf(row)), env, 2)
    {
      var created, event := row, EventOf(row);
      Unfold(State(), Holding(Saving, created, event), env, 2);
      var ok := SavePaymentID(created.checkout.key, created.id, env(2).outcome);
      if !ok { return Err(Unavailable); }
      Unfold(State(), Holding(Appending, created, event), env, 3);
      ok := Do(Appended(event), env(3).outcome);
      if !ok { return Err(Unavailable); }
      reply := Announce(created, env);
    }

    /** From publishing the creation on: the charge, and what it came to. */
    method Announce(row: Payment, env: nat -> Choice) returns (reply: Reply)
      requires row.status.Pending?
      modifies this
      ensures (State(), reply) == Complete(old(State()), Holding(Publishing, row, EventOf(row)), env, 4)
    {
      var created, event := row, EventOf(row);
      Unfold(State(), Holding(Publishing, created, event), env, 4);
      var ok := Do(Published(SubjectCreated, event), env(4).outcome);
      if !ok { return Err(Unavailable); }
      Unfold(State(), Holding(Charging, created, event), env, 5);
      ok := Do(Charged(created, env(5).charge), env(5).outcome);
      if !ok { return Err(Unavailable); }
      var result := env(5).charge;
      created := created.(txn := result.txn, failureReason := result.failureReason);
      match result.status {
        case Succeeded => created := created.(status := Succeeded);
        case Failed => created := created.(status := Failed);
        case _ => return Err(InvalidState);
      }
      reply := Finish(created, EventOf(created), env, 6);
    }

    /** The update, event, message and e-mail that end Create, Confirm, Refund and Cancel. */
    method Finish(p: Payment, event: Event, env: nat -> Choice, k: nat) returns (reply: Reply)
      requires !event.status.Pending? && event.status == p.status
      modifies this
      ensures (State(), reply) == Complete(old(State()), Holding(Writing, p, event), env, k)
    {
      Unfold(State(), Holding(Writing, p, event), env, k);
      reply := UpdateRow(p, env(k).outcome);
      if reply.Err? { return; }
      Unfold(State(), Holding(Appending, p, event), env, k + 1);
      var ok := Do(Appended(event), env(k + 1).outcome);
      if !ok { return Err(Unavailable); }
      if event.status == Refunded {
        Unfold(State(), Holding(AppendingRefund, p, event), env, k + 2);
        ok := Do(RefundRow(event.paymentId, event.reason, event.amount), env(k + 2).outcome);
        if !ok { return Err(Unavailable); }
        reply := Notify(p, event, env, k + 3);
      } else {
        reply := Notify(p, event, env, k + 2);
      }
    }

    method Notify(p: Payment, event: Event, env: nat -> Choice, k: nat) returns (reply: Reply)
      requires !event.status.Pending? && event.status == p.status
      modifies this
      ensures (State(), reply) == Complete(old(State()), Holding(Publishing, p, event), env, k)
    {
      Unfold(State(), Holding(Publishing, p, event), env, k);
      var ok := Do(Published(SubjectOf(event.status), event), env(k).outcome);
      if !ok { return Err(Unavailable); }
      if Mailable(p.status) {
        Unfold(State(), Holding(Mailing, p, event), env, k + 1);
        ok := Do(Mailed(MailFor(p)), env(k + 1).outcome);
        if !ok { return Err(Unavailable); }
      }
      reply := Ok(p);
    }

    method Refund(id: string, reason: string, env: nat -> Choice) returns (reply: Reply)
      modifies this
      ensures (State(), reply) == Complete(old(State()), StartRequest(RefundRequest(id, reason)), env, 0)
    {
      if id == "" || reason == "" { return Err(InvalidInput); }
      Unfold(State(), Read(RefundRequest(id, reason)), env, 0);
      reply := GetByID(id, env(0).outcome);
      if reply.Err? { return; }
      var p := reply.value;
      if p.status == Refunded { return Err(InvalidState); }
      if p.status != Succeeded { return Err(InvalidState); }
      p := p.(status := Refunded, refundReason := reason);
      reply := Finish(p, EventOf(p).(reason := reason), env, 1);
    }

    method Confirm(id: string, txn: string, env: nat -> Choice) returns (reply: Reply)
      modifies this
      ensures (State(), reply) == Complete(old(State()), StartRequest(ConfirmRequest(id, txn)), env, 0)
    {
      if id == "" || txn == "" { return Err(InvalidInput); }
      Unfold(State(), Read(ConfirmRequest(id, txn)), env, 0);
      reply := GetByID(id, env(0).outcome);
      if reply.Err? || reply.value.status == Succeeded { return; }
      var p := reply.value;
      if p.status != Pending { return Err(InvalidState); }
      p := p.(status := Succeeded, txn := txn);
      reply := Finish(p, EventOf(p), env, 1);
    }

    method Cancel(id: string, reason: string, env: nat -> Choice) returns (reply: Reply)
      modifies this
      ensures (State(), reply) == Complete(old(State()), StartRequest(CancelRequest(id, reason)), env, 0)
    {
      if id == "" || reason == "" { return Err(InvalidInput); }
      Unfold(State(), Read(CancelRequest(id, reason)), env, 0);
      reply := GetByID(id, env(0).outcome);
      if reply.Err? { return; }
      var p := reply.value;
      if p.status == Refunded || p.status == Cancelled { return Err(InvalidState); }
      p := p.(status := Cancelled, failureReason := reason);
      reply := Finish(p, EventOf(p).(reason := reason), env, 1);
    }
  }

  // ---- A client that calls one method at a time ----------------------------------------------

  /** No other call is in the middle of anything. */
  ghost predicate Quiet(s: Sys, t: nat) {
    forall u | u in s.calls && u != t :: !s.calls[u].Holding?
  }

  lemma OneMove(actions: seq<Action>, t: nat, c: Choice)
    requires AllSerial(actions) && t in Run(actions).calls && Quiet(Run(actions), t)
    ensures var more := actions + [Move(t, c)]; var s := Run(actions);
            var (after, next) := Advance(s.db, s.calls[t], c);
            Run(more) == Sys(after, s.calls[t := next]) && Quiet(Run(more), t) && AllSerial(more)
  {
  }

  lemma {:induction false} CompleteIsARun(actions: seq<Action>, env: nat -> Choice, k: nat, t: nat)
    returns (more: seq<Action>)
    requires t in Run(actions).calls && Quiet(Run(actions), t) && AllSerial(actions)
    ensures var s := Run(actions);
            var (after, reply) := Complete(s.db, s.calls[t], env, k);
            Run(actions + more) == Sys(after, s.calls[t := Returned(reply)]) && AllSerial(actions + more)
    ensures forall a | a in more :: a.Move? && a.t == t
    decreases Distance(Run(actions).calls[t])
  {
    var s := Run(actions);
    if s.calls[t].Returned? {
      more := [];
      assert actions + [] == actions;
      SetSame(s.calls, t);
    } else {
      var a := Move(t, env(k));
      OneMove(actions, t, env(k));
      var rest := CompleteIsARun(actions + [a], env, k + 1, t);
      more := [a] + rest;
      Extended(actions, a, rest);
      Unfold(s.db, s.calls[t], env, k);
      var (after, next) := Advance(s.db, s.calls[t], env(k));
      SetTwice(s.calls, t, next, Returned(Complete(after, next, env, k + 1).1));
    }
  }

  ghost predicate AllReturned(s: Sys) {
    forall t | t in s.calls :: s.calls[t].Returned?
  }

  /** A method call made when no other is under way is a stretch of a schedule that stays serial, so
      what holds of all serial schedules holds of every such client. */
  lemma MethodCallIsARun(actions: seq<Action>, begin: Action, env: nat -> Choice) returns (more: seq<Action>)
    requires AllSerial(actions) && AllReturned(Run(actions))
    requires !begin.Move? && !begin.Evict? && begin.t !in Run(actions).calls
    ensures var call := if begin.BeginCreate? then StartCreate(begin.input) else StartRequest(begin.request);
            var done := actions + [begin] + more;
            var (after, reply) := Complete(Run(actions).db, call, env, 0);
            && AllSerial(done) && AllReturned(Run(done))
            && Run(done) == Sys(after, Run(actions).calls[begin.t := Returned(reply)])
    ensures forall a | a in more :: a.Move? && a.t == begin.t
  {
    var begun := actions + [begin];
    assert begun[..|actions|] == actions;
    forall id ensures Serial(begun, id) { assert Serial(actions, id); }
    more := CompleteIsARun(begun, env, 0, begin.t);
    SetTwice(Run(actions).calls, begin.t, Run(begun).calls[begin.t], Run(begun + more).calls[begin.t]);
  }

  // ---- What a call that runs alone does ------------------------------------------------------

  /** A repeated Create, without faults, changes nothing. The documentation promises that it answers
      with the stored payment; it does so exactly while the key's Redis entry is live. */
  lemma RepeatReturnsRowIffEntryLive(actions: seq<Action>, id: string, input: Checkout, env: nat -> Choice)
    requires ValidCheckout(input) && forall k :: env(k).outcome.Done?
    requires id in Run(actions).db.rows && Run(actions).db.rows[id].checkout.key == input.key
    ensures var db := Run(actions).db;
            var (after, reply) := Complete(db, StartCreate(input), env, 0);
            && after == db
            && (reply == Ok(db.rows[id]) <==> input.key in db.index)
            && (reply.Err? ==> reply == Err(Conflict))
  {
    Interleaving(actions);
    var db := Run(actions).db;
    if input.key in db.index {
      assert KeyOf(db.rows, input.key, db.index[input.key]);
      Unfold(db, Lookup(input), env, 0);
      Unfold(db, Fetch(input.key, id), env, 1);
    } else {
      Unfold(db, Lookup(input), env, 0);
      assert !Insertable(db.rows, NewPayment(env(1).id, input));
      Unfold(db, Insert(input), env, 1);
    }
  }

  /** What the end of a Create, Confirm, Refund or Cancel leaves. */
  function Outcomes(row: Payment, p: Payment, e: Event): seq<Effect> {
    [Updated(row), Appended(e)]
    + (if e.status.Refunded? then [RefundRow(e.paymentId, e.reason, e.amount)] else [])
    + [Published(SubjectOf(e.status), e)]
    + (if Mailable(p.status) then [Mailed(MailFor(p))] else [])
  }

  lemma NotifyLeaves(db: Db, p: Payment, e: Event, env: nat -> Choice, k: nat)
    requires !e.status.Pending? && forall k :: env(k).outcome.Done?
    ensures Complete(db, Holding(Publishing, p, e), env, k) ==
            (db.(trace := db.trace + ([Published(SubjectOf(e.status), e)]
                                      + if Mailable(p.status) then [Mailed(MailFor(p))] else [])), Ok(p))
  {
    var told := [Published(SubjectOf(e.status), e)];
    Unfold(db, Holding(Publishing, p, e), env, k);
    if Mailable(p.status) {
      var published := db.(trace := db.trace + told);
      Unfold(published, Holding(Mailing, p, e), env, k + 1);
      assert Emit(published, Mailed(MailFor(p))).trace == db.trace + (told + [Mailed(MailFor(p))]);
    } else {
      assert told + [] == told;
    }
  }

  lemma FinishLeaves(db: Db, p: Payment, e: Event, env: nat -> Choice, k: nat)
    requires p.id in db.rows && !e.status.Pending? && forall k :: env(k).outcome.Done?
    ensures var row := Overwrite(db.rows[p.id], p);
            Complete(db, Holding(Writing, p, e), env, k) ==
            (Db(db.rows[p.id := row], db.index, db.trace + Outcomes(row, p, e)), Ok(p))
  {
    var row := Overwrite(db.rows[p.id], p);
    Unfold(db, Holding(Writing, p, e), env, k);
    var d1 := Emit(db.(rows := db.rows[p.id := row]), Updated(row));
    Unfold(d1, Holding(Appending, p, e), env, k + 1);
    var d2 := Emit(d1, Appended(e));
    if e.status.Refunded? {
      Unfold(d2, Holding(AppendingRefund, p, e), env, k + 2);
      NotifyLeaves(Emit(d2, RefundRow(e.paymentId, e.reason, e.amount)), p, e, env, k + 3);
    } else {
      NotifyLeaves(d2, p, e, env, k + 2);
    }
    assert Complete(db, Holding(Writing, p, e), env, k).0.trace == db.trace + Outcomes(row, p, e);
  }

  lemma InsertLeaves(db: Db, input: Checkout, env: nat -> Choice)
    requires ValidCheckout(input) && input.key !in db.index && env(0).outcome.Done? && env(1).outcome.Done?
    requires Insertable(db.rows, NewPayment(env(1).id, input))
    ensures var p := NewPayment(env(1).id, input);
            Complete(db, StartCreate(input), env, 0) ==
            Complete(Emit(db.(rows := db.rows[p.id := p]), Inserted(p)), Holding(Saving, p, EventOf(p)), env, 2)
  {
  }

  function Opening(p: Payment, r: ChargeResult): seq<Effect> {
    [Appended(EventOf(p)), Published(SubjectCreated, EventOf(p)), Charged(p, r)]
  }

  lemma OpenLeaves(db: Db, p: Payment, env: nat -> Choice)
    requires p.status.Pending? && forall k :: env(k).outcome.Done?
    ensures Complete(db, Holding(Saving, p, EventOf(p)), env, 2) ==
            Complete(Db(db.rows, db.index[p.checkout.key := p.id], db.trace + Opening(p, env(5).charge)),
                     AfterCharge(p, env(5).charge), env, 6)
  {
    var e := EventOf(p);
    Unfold(db, Holding(Saving, p, e), env, 2);
    var d1 := db.(index := db.index[p.checkout.key := p.id]);
    Unfold(d1, Holding(Appending, p, e), env, 3);
    var d2 := Emit(d1, Appended(e));
    Unfold(d2, Holding(Publishing, p, e), env, 4);
    var d3 := Emit(d2, Published(SubjectCreated, e));
    Unfold(d3, Holding(Charging, p, e), env, 5);
    assert Emit(d3, Charged(p, env(5).charge)).trace == db.trace + Opening(p, env(5).charge);
  }

  /** Any provider that decides leaves the payment as it decided. */
  lemma CreateLeaves(db: Db, input: Checkout, env: nat -> Choice)
    requires ValidCheckout(input) && input.key !in db.index && forall k :: env(k).outcome.Done?
    requires Insertable(db.rows, NewPayment(env(1).id, input))
    requires env(5).charge.status.Succeeded? || env(5).charge.status.Failed?
    ensures var first := NewPayment(env(1).id, input);
            var last := AfterCharge(first, env(5).charge).p;
            Complete(db, StartCreate(input), env, 0) ==
            (Db(db.rows[first.id := last], db.index[input.key := first.id],
                db.trace + [Inserted(first)] + Opening(first, env(5).charge) + Outcomes(last, last, EventOf(last))),
             Ok(last))
  {
    var first := NewPayment(env(1).id, input);
    var last := AfterCharge(first, env(5).charge).p;
    InsertLeaves(db, input, env);
    var d := Emit(db.(rows := db.rows[first.id := first]), Inserted(first));
    OpenLeaves(d, first, env);
    var underway := Db(d.rows, d.index[input.key := first.id], d.trace + Opening(first, env(5).charge));
    FinishLeaves(underway, last, EventOf(last), env, 6);
    assert db.rows[first.id := first][first.id := last] == db.rows[first.id := last];
  }

  // ---- Why the claims about one payment need its calls serialised ----------------------------

  /** From any state with a succeeded payment, a Refund and a Cancel that overlap write first
      refunded and then cancelled over it: Update is a blind write. */
  lemma OverlapBreaksJourneys(s: Sys, id: string, t: nat, u: nat, go: Choice, reason: string)
    requires id in s.db.rows && s.db.rows[id].id == id && s.db.rows[id].status == Succeeded
    requires id != "" && reason != "" && t !in s.calls && u !in s.calls && t != u && go.outcome.Done?
    ensures var begun := Step(Step(s, BeginRequest(t, RefundRequest(id, reason))),
                              BeginRequest(u, CancelRequest(id, reason)));
            var end := Step(Step(Step(Step(begun, Move(t, go)), Move(u, go)), Move(t, go)), Move(u, go));
            var n := |s.db.trace|;
            && end.db.rows[id].status == Cancelled && |end.db.trace| == n + 2
            && end.db.trace[n].Updated? && end.db.trace[n].row.status == Refunded
            && end.db.trace[n + 1].Updated? && end.db.trace[n + 1].row.status == Cancelled
  {
  }
}
