/** Why each status was written, and whether what is refunded was ever charged. */
module PaymentCauses {
  import opened Prelude
  import opened PaymentTypes
  import opened PaymentProtocol
  import opened PaymentInterleaving
  import opened PaymentSerial
  import opened PaymentMoney
  import opened PaymentService

  // ---- In every schedule ---------------------------------------------------------------------

  ghost predicate Asked(actions: seq<Action>, r: Request) {
    exists t: nat :: BeginRequest(t, r) in actions
  }

  /** The provider was asked to charge the payment, and its answer makes it what it is. */
  ghost predicate ChargedAs(before: seq<Effect>, p: Payment) {
    exists i | 0 <= i < |before| && before[i].Charged? ::
      AfterCharge(before[i].payment, before[i].result) == Holding(Writing, p, EventOf(p))
  }

  /** What must lie behind a written payment: the provider's answer to a charge, or a request for just
      this, with this transaction or reason. */
  ghost predicate Cause(actions: seq<Action>, before: seq<Effect>, p: Payment) {
    match p.status
    case Pending => false
    case Succeeded => ChargedAs(before, p) || Asked(actions, ConfirmRequest(p.id, p.txn))
    case Failed => ChargedAs(before, p)
    case Refunded => Asked(actions, RefundRequest(p.id, p.refundReason))
    case Cancelled => Asked(actions, CancelRequest(p.id, p.failureReason))
  }

  ghost predicate CallCause(actions: seq<Action>, trace: seq<Effect>, call: Call) {
    match call
    case Read(r) => Asked(actions, r)
    case Holding(stage, p, _) => stage.Writing? ==> Cause(actions, trace, p)
    case _ => true
  }

  ghost predicate WritesCaused(actions: seq<Action>, trace: seq<Effect>) {
    forall i | 0 <= i < |trace| && trace[i].Updated? :: Cause(actions, trace[..i], trace[i].row)
  }

  ghost predicate CauseInv(actions: seq<Action>, s: Sys) {
    WritesCaused(actions, s.db.trace) && forall t | t in s.calls :: CallCause(actions, s.db.trace, s.calls[t])
  }

  lemma AskedStays(actions: seq<Action>, a: Action, r: Request)
    requires Asked(actions, r)
    ensures Asked(actions + [a], r)
  {
    var t: nat :| BeginRequest(t, r) in actions;
    assert BeginRequest(t, r) in actions + [a];
  }

  lemma ChargedStays(before: seq<Effect>, more: seq<Effect>, p: Payment)
    requires ChargedAs(before, p) && before <= more
    ensures ChargedAs(more, p)
  {
    var i :| 0 <= i < |before| && before[i].Charged? &&
             AfterCharge(before[i].payment, before[i].result) == Holding(Writing, p, EventOf(p));
    assert more[i] == before[i];
  }

  lemma CauseStays(actions: seq<Action>, a: Action, before: seq<Effect>, more: seq<Effect>, p: Payment)
    requires Cause(actions, before, p) && before <= more
    ensures Cause(actions + [a], more, p)
  {
    if ChargedAs(before, p) { ChargedStays(before, more, p); }
    forall r | Asked(actions, r) ensures Asked(actions + [a], r) { AskedStays(actions, a, r); }
  }

  lemma CallCauseStays(actions: seq<Action>, a: Action, trace: seq<Effect>, more: seq<Effect>, call: Call)
    requires CallCause(actions, trace, call) && trace <= more
    ensures CallCause(actions + [a], more, call)
  {
    match call
    case Read(r) => AskedStays(actions, a, r);
    case Holding(stage, p, _) => if stage.Writing? { CauseStays(actions, a, trace, more, p); }
    case _ =>
  }

  /** A call comes to write a payment only by its request's reading or by a charge. */
  lemma ReadCauses(actions: seq<Action>, db: Db, r: Request, c: Choice)
    requires RowsOk(db.rows) && Asked(actions, r)
    ensures CallCause(actions, db.trace, Advance(db, Read(r), c).1)
  {
  }

  lemma ChargeCauses(actions: seq<Action>, db: Db, p: Payment, e: Event, c: Choice)
    ensures var (after, next) := AdvanceHolding(db, Charging, p, e, c); CallCause(actions, after.trace, next)
  {
    var (after, next) := AdvanceHolding(db, Charging, p, e, c);
    if next.Holding? {
      var n := |db.trace|;
      assert after.trace[n] == Charged(p, c.charge);
      assert AfterCharge(after.trace[n].payment, after.trace[n].result) == Holding(Writing, next.p, EventOf(next.p));
    }
  }

  lemma AdvanceCauses(actions: seq<Action>, db: Db, call: Call, c: Choice)
    requires RowsOk(db.rows) && CallOk(db.rows, call) && CallCause(actions, db.trace, call)
    ensures var (after, next) := Advance(db, call, c); CallCause(actions, after.trace, next)
  {
    match call
    case Read(r) => ReadCauses(actions, db, r, c);
    case Holding(stage, p, e) => if stage.Charging? { ChargeCauses(actions, db, p, e, c); }
    case _ =>
  }

  /** What a write leaves is the holder's payment, word for word. */
  lemma AdvanceWrites(db: Db, call: Call, c: Choice)
    requires RowsOk(db.rows) && CallOk(db.rows, call)
    ensures var trace := Advance(db, call, c).0.trace;
            || trace == db.trace
            || (|trace| == |db.trace| + 1 && db.trace <= trace &&
                (trace[|db.trace|].Updated? ==> call.Holding? && call.stage.Writing? && trace[|db.trace|].row == call.p))
  {
  }

  lemma WriteCaused(actions: seq<Action>, a: Action, db: Db, call: Call, c: Choice)
    requires RowsOk(db.rows) && CallOk(db.rows, call)
    requires CallCause(actions, db.trace, call) && WritesCaused(actions, db.trace)
    ensures WritesCaused(actions + [a], Advance(db, call, c).0.trace)
  {
    var trace := Advance(db, call, c).0.trace;
    AdvanceWrites(db, call, c);
    forall i | 0 <= i < |trace| && trace[i].Updated? ensures Cause(actions + [a], trace[..i], trace[i].row) {
      if i < |db.trace| {
        assert trace[..i] == db.trace[..i] && trace[i] == db.trace[i];
        CauseStays(actions, a, db.trace[..i], trace[..i], trace[i].row);
      } else {
        assert trace[..i] == db.trace;
        CauseStays(actions, a, db.trace, db.trace, call.p);
      }
    }
  }

  lemma CauseMove(actions: seq<Action>, s: Sys, t: nat, c: Choice)
    requires StoreInv(s) && CauseInv(actions, s) && t in s.calls
    ensures CauseInv(actions + [Move(t, c)], Step(s, Move(t, c)))
  {
    var a := Move(t, c);
    var (after, next) := Advance(s.db, s.calls[t], c);
    WriteCaused(actions, a, s.db, s.calls[t], c);
    AdvanceCauses(actions, s.db, s.calls[t], c);
    CallCauseStays(actions, a, after.trace, after.trace, next);
    AdvanceWrites(s.db, s.calls[t], c);
    forall u | u in s.calls ensures CallCause(actions + [a], after.trace, s.calls[u]) {
      CallCauseStays(actions, a, s.db.trace, after.trace, s.calls[u]);
    }
    assert Step(s, a) == Sys(after, s.calls[t := next]);
  }

  lemma CauseAside(actions: seq<Action>, s: Sys, a: Action)
    requires CauseInv(actions, s) && (a.Move? ==> a.t !in s.calls)
    ensures CauseInv(actions + [a], Step(s, a))
  {
    var s' := Step(s, a);
    forall i | 0 <= i < |s.db.trace| && s.db.trace[i].Updated?
      ensures Cause(actions + [a], s.db.trace[..i], s.db.trace[i].row)
    {
      CauseStays(actions, a, s.db.trace[..i], s.db.trace[..i], s.db.trace[i].row);
    }
    forall t | t in s'.calls ensures CallCause(actions + [a], s.db.trace, s'.calls[t]) {
      if t in s.calls { CallCauseStays(actions, a, s.db.trace, s.db.trace, s.calls[t]); }
      else if a.BeginRequest? { assert BeginRequest(t, a.request) in actions + [a]; }
    }
  }

  /** In every schedule: a success was written because the provider charged the payment or because
      somebody asked to confirm it with that transaction, a failure because the provider declined, a
      refund or a cancellation because somebody asked for it with that reason. */
  lemma {:induction false} EveryWriteHasItsCause(actions: seq<Action>)
    ensures CauseInv(actions, Run(actions))
  {
    if actions != [] {
      var before, a := actions[..|actions| - 1], actions[|actions| - 1];
      EveryWriteHasItsCause(before);
      Interleaving(before);
      assert actions == before + [a];
      var s := Run(before);
      if a.Move? && a.t in s.calls { CauseMove(before, s, a.t, a.choice); } else { CauseAside(before, s, a); }
    }
  }

  // ---- What is refunded was charged, where nothing is confirmed ------------------------------

  ghost predicate ChargeSucceeded(trace: seq<Effect>, id: string) {
    exists i | 0 <= i < |trace| && trace[i].Charged? ::
      trace[i].payment.id == id && trace[i].result.status.Succeeded?
  }

  ghost function ChargedIds(db: Db): set<string> {
    set id | id in db.rows && ChargeSucceeded(db.trace, id)
  }

  lemma {:induction false} SeenIsShown(trace: seq<Effect>, log: Log, id: string, s: Status)
    requires s in Seen(trace, log, id)
    ensures exists i | 0 <= i < |trace| :: Shows(trace[i], log, id) == Some(s)
  {
    var n := |trace| - 1;
    if s in Seen(trace[..n], log, id) {
      SeenIsShown(trace[..n], log, id, s);
      var i :| 0 <= i < n && Shows(trace[..n][i], log, id) == Some(s);
      assert trace[i] == trace[..n][i];
    }
  }

  /** A payment that reached succeeded without being confirmed was charged, successfully. */
  lemma SuccessWasCharged(actions: seq<Action>, id: string)
    requires id in ReachedSucceeded(Run(actions).db)
    requires forall txn :: !Asked(actions, ConfirmRequest(id, txn))
    ensures id in ChargedIds(Run(actions).db)
  {
    var trace := Run(actions).db.trace;
    EveryWriteHasItsCause(actions);
    Interleaving(actions);
    SeenIsShown(trace, WriteLog, id, Succeeded);
    var i :| 0 <= i < |trace| && Shows(trace[i], WriteLog, id) == Some(Succeeded);
    assert EffectOk(Run(actions).db.rows, trace[i]);
    assert Cause(actions, trace[..i], trace[i].row);
    var row := trace[i].row;
    var j :| 0 <= j < i && trace[..i][j].Charged? &&
             AfterCharge(trace[..i][j].payment, trace[..i][j].result) == Holding(Writing, row, EventOf(row));
    assert trace[j] == trace[..i][j];
  }

  /** Where no payment is confirmed, the refunds table never totals more than the payments that the
      provider charged. */
  lemma RefundsWereCharged(actions: seq<Action>, charged: seq<string>)
    requires AllSerial(actions) && forall id, txn :: !Asked(actions, ConfirmRequest(id, txn))
    requires multiset(charged) == multiset(ChargedIds(Run(actions).db))
    ensures RefundTotal(Run(actions).db.trace) <= Total(Run(actions).db.rows, charged)
  {
    var db := Run(actions).db;
    Interleaving(actions);
    RefundTotalIsOfRows(db.rows, db.trace);
    forall id ensures multiset(RefundIds(db.trace))[id] <= multiset(charged)[id] {
      RefundsOf(db.trace, id);
      assert Serial(actions, id);
      RefundedOnceAfterSuccess(actions, id);
      if id in ReachedSucceeded(db) { SuccessWasCharged(actions, id); }
    }
    TotalMonotone(db.rows, RefundIds(db.trace), charged);
  }

  // ---- A confirmed payment can be refunded without any charge --------------------------------

  function LosesPublish(id: string): nat -> Choice {
    k => Choice(if k == 4 then Lost else Done, id, ChargeResult(Pending, "", ""))
  }

  function Works(): nat -> Choice {
    k => Choice(Done, "", ChargeResult(Pending, "", ""))
  }

  function Abandoned(p: Payment): Db {
    Db(map[p.id := p], map[p.checkout.key := p.id], [Inserted(p), Appended(EventOf(p))])
  }

  lemma CreateAbandoned(input: Checkout, id: string)
    requires ValidCheckout(input)
    ensures Complete(INITIAL.db, StartCreate(input), LosesPublish(id), 0) ==
            (Abandoned(NewPayment(id, input)), Err(Unavailable))
  {
    var p, env := NewPayment(id, input), LosesPublish(id);
    var e := EventOf(p);
    InsertLeaves(INITIAL.db, input, env);
    var d1 := Emit(INITIAL.db.(rows := map[id := p]), Inserted(p));
    assert d1 == Emit(INITIAL.db.(rows := INITIAL.db.rows[id := p]), Inserted(p));
    Unfold(d1, Holding(Saving, p, e), env, 2);
    var d2 := d1.(index := map[input.key := id]);
    assert d1.index[input.key := id] == map[input.key := id];
    Unfold(d2, Holding(Appending, p, e), env, 3);
    var d3 := Emit(d2, Appended(e));
    assert d3 == Abandoned(p);
    Unfold(d3, Holding(Publishing, p, e), env, 4);
  }

  /** A request that finds the one stored payment in a state that allows it. */
  lemma RequestLeaves(db: Db, row: Payment, r: Request)
    requires db.rows == map[row.id := row] && row.id == r.id && ValidRequest(r)
    requires AfterRead(row, r).Holding?
    ensures var p, e := AfterRead(row, r).p, AfterRead(row, r).e;
            Complete(db, StartRequest(r), Works(), 0) == (Db(map[p.id := p], db.index, db.trace + Outcomes(p, p, e)), Ok(p))
  {
    var p, e := AfterRead(row, r).p, AfterRead(row, r).e;
    Unfold(db, Read(r), Works(), 0);
    FinishLeaves(db, p, e, Works(), 1);
    assert db.rows[p.id := p] == map[p.id := p] && Overwrite(row, p) == p;
  }

  lemma {:induction false} RefundTotalConcat(a: seq<Effect>, b: seq<Effect>)
    ensures RefundTotal(a + b) == RefundTotal(a) + RefundTotal(b)
  {
    if b == [] {
      assert a + b == a;
    } else {
      RefundTotalConcat(a, b[..|b| - 1]);
      assert (a + b)[..|a + b| - 1] == a + b[..|b| - 1];
    }
  }

  lemma OutcomesRefund(row: Payment, p: Payment, e: Event)
    ensures RefundTotal(Outcomes(row, p, e)) == if e.status.Refunded? then e.amount else 0
  {
    var first, last := [Updated(row), Appended(e)], if Mailable(p.status) then [Mailed(MailFor(p))] else [];
    var refund := if e.status.Refunded? then [RefundRow(e.paymentId, e.reason, e.amount)] else [];
    RefundTotalConcat(first + refund + [Published(SubjectOf(e.status), e)], last);
    RefundTotalConcat(first + refund, [Published(SubjectOf(e.status), e)]);
    RefundTotalConcat(first, refund);
    assert first[..1] == [Updated(row)];
  }

  predicate NoCharge(trace: seq<Effect>) {
    forall f | f in trace :: !f.Charged?
  }

  /** For every checkout: a Create that loses its first publish, a Confirm and a Refund, one after the
      other and otherwise without faults, refund the amount though the provider was never asked. */
  lemma UnchargedRefund(input: Checkout, id: string, txn: string, reason: string) returns (actions: seq<Action>)
    requires ValidCheckout(input) && id != "" && txn != "" && reason != ""
    ensures AllSerial(actions) && NoCharge(Run(actions).db.trace) && RefundTotal(Run(actions).db.trace) == input.amount
  {
    var confirm, refund := ConfirmRequest(id, txn), RefundRequest(id, reason);
    var p := NewPayment(id, input);
    var paid := AfterRead(p, confirm).p;
    var back := AfterRead(paid, refund).p;
    var paidEvent, backEvent := EventOf(paid), EventOf(back).(reason := reason);
    var more := MethodCallIsARun([], BeginCreate(0, input), LosesPublish(id));
    CreateAbandoned(input, id);
    actions := [] + [BeginCreate(0, input)] + more;
    more := MethodCallIsARun(actions, BeginRequest(1, confirm), Works());
    RequestLeaves(Abandoned(p), p, confirm);
    actions := actions + [BeginRequest(1, confirm)] + more;
    var db := Run(actions).db;
    more := MethodCallIsARun(actions, BeginRequest(2, refund), Works());
    RequestLeaves(db, paid, refund);
    actions := actions + [BeginRequest(2, refund)] + more;
    AbandonedRefund(p, paid, paidEvent, back, backEvent);
  }

  lemma AbandonedRefund(p: Payment, paid: Payment, paidEvent: Event, back: Payment, backEvent: Event)
    requires !paidEvent.status.Refunded? && backEvent.status.Refunded?
    ensures var trace := Abandoned(p).trace + Outcomes(paid, paid, paidEvent) + Outcomes(back, back, backEvent);
            NoCharge(trace) && RefundTotal(trace) == backEvent.amount
  {
    var first := Abandoned(p).trace;
    RefundTotalConcat(first + Outcomes(paid, paid, paidEvent), Outcomes(back, back, backEvent));
    RefundTotalConcat(first, Outcomes(paid, paid, paidEvent));
    OutcomesRefund(paid, paid, paidEvent);
    OutcomesRefund(back, back, backEvent);
    assert first[..1] == [Inserted(p)] && RefundTotal([Inserted(p)]) == RefundTotal([]);
    assert RefundTotal(first) == 0;
  }
}
