/** What each call of the payment service comes to when it runs alone: the rows, the effects and the
    reply, field by field. */
module PaymentResults {
  import opened Prelude
  import opened PaymentTypes
  import opened PaymentProtocol
  import opened PaymentService

  // ---- Without faults ------------------------------------------------------------------------

  lemma {:induction false} NeverInvalidInput(db: Db, call: Call, env: nat -> Choice, k: nat)
    requires call.Returned? ==> call.reply != Err(InvalidInput)
    ensures Complete(db, call, env, k).1 != Err(InvalidInput)
    decreases Distance(call)
  {
    if !call.Returned? {
      var (after, next) := Advance(db, call, env(k));
      NeverInvalidInput(after, next, env, k + 1);
    }
  }

  /** Whatever the environment does: a Create is refused as invalid exactly for these inputs, and then
      leaves nothing. */
  lemma CreateIsRefusedIff(db: Db, input: Checkout, env: nat -> Choice)
    ensures var (after, reply) := Complete(db, StartCreate(input), env, 0);
            && (reply == Err(InvalidInput) <==>
                  || input.orderId == "" || input.customerId == "" || input.email == "" || input.amount <= 0
                  || input.via !in {Card, Kaspi, Wallet} || input.key == "")
            && (reply == Err(InvalidInput) ==> after == db)
  {
    if !StartCreate(input).Returned? { NeverInvalidInput(db, StartCreate(input), env, 0); }
  }

  predicate Accepted(input: Checkout) {
    && input.orderId != "" && input.customerId != "" && input.email != "" && input.amount > 0
    && input.via in {Card, Kaspi, Wallet} && input.key != ""
  }

  /** What a first Create with the production provider leaves behind. */
  lemma FirstCreateLeaves(db: Db, input: Checkout, env: nat -> Choice)
    requires Accepted(input) && input.key !in db.index && forall k :: env(k).outcome.Done?
    requires env(1).id !in db.rows && forall r | r in db.rows :: db.rows[r].checkout.key != input.key
    requires env(5).charge == MockCharge(Payment(env(1).id, input, Pending, "", "", ""))
    ensures var (after, reply) := Complete(db, StartCreate(input), env, 0);
            var id, declined := env(1).id, input.via == Wallet && input.amount > 500000;
            var txn, why := "mock-" + id, if declined then "wallet limit exceeded" else "";
            var status := if declined then Failed else Succeeded;
            var first, last := Payment(id, input, Pending, "", "", ""), Payment(id, input, status, txn, "", why);
            var begun := Event(id, input.orderId, input.customerId, input.amount, Pending, "", "");
            var ended := Event(id, input.orderId, input.customerId, input.amount, status, why, txn);
            && reply == Ok(last)
            && after.rows == db.rows[id := last] && after.index == db.index[input.key := id]
            && after.trace == db.trace +
                 [Inserted(first), Appended(begun), Published(SubjectCreated, begun),
                  Charged(first, ChargeResult(status, txn, why)),
                  Updated(last), Appended(ended), Published(if declined then SubjectFailed else SubjectSucceeded, ended),
                  Mailed(Mail(if declined then FailureNote else Receipt, input.email, id, input.orderId, input.amount, why))]
  {
    CreateLeaves(db, input, env);
  }

  /** A provider that neither charges nor declines: the payment stays pending, and charged. */
  lemma UndecidedCreateLeaves(db: Db, input: Checkout, env: nat -> Choice)
    requires Accepted(input) && input.key !in db.index && forall k :: env(k).outcome.Done?
    requires env(1).id !in db.rows && forall r | r in db.rows :: db.rows[r].checkout.key != input.key
    requires env(5).charge.status != Succeeded && env(5).charge.status != Failed
    ensures var (after, reply) := Complete(db, StartCreate(input), env, 0);
            var id := env(1).id;
            var first := Payment(id, input, Pending, "", "", "");
            var begun := Event(id, input.orderId, input.customerId, input.amount, Pending, "", "");
            && reply == Err(InvalidState)
            && after.rows == db.rows[id := first] && after.index == db.index[input.key := id]
            && after.trace == db.trace + [Inserted(first), Appended(begun), Published(SubjectCreated, begun),
                                          Charged(first, env(5).charge)]
  {
    var first := NewPayment(env(1).id, input);
    InsertLeaves(db, input, env);
    OpenLeaves(Emit(db.(rows := db.rows[first.id := first]), Inserted(first)), first, env);
  }

  lemma RefundGoesThroughIff(db: Db, id: string, reason: string, env: nat -> Choice)
    requires (id in db.rows ==> db.rows[id].id == id) && forall k :: env(k).outcome.Done?
    ensures var (after, reply) := Complete(db, StartRequest(RefundRequest(id, reason)), env, 0);
            if id == "" || reason == "" then (after, reply) == (db, Err(InvalidInput))
            else if id !in db.rows then (after, reply) == (db, Err(NotFound))
            else if db.rows[id].status != Succeeded then (after, reply) == (db, Err(InvalidState))
            else
              var row, c := db.rows[id], db.rows[id].checkout;
              var p := Payment(id, c, Refunded, row.txn, reason, row.failureReason);
              var e := Event(id, c.orderId, c.customerId, c.amount, Refunded, reason, row.txn);
              && reply == Ok(p) && after.rows == db.rows[id := p] && after.index == db.index
              && after.trace == db.trace +
                   [Updated(p), Appended(e), RefundRow(id, reason, c.amount), Published(SubjectRefunded, e),
                    Mailed(Mail(RefundNote, c.email, id, c.orderId, c.amount, reason))]
  {
    var r := RefundRequest(id, reason);
    if ValidRequest(r) {
      Unfold(db, Read(r), env, 0);
      if id in db.rows && db.rows[id].status == Succeeded {
        var next := AfterRead(db.rows[id], r);
        FinishLeaves(db, next.p, next.e, env, 1);
      }
    }
  }

  lemma ConfirmGoesThroughIff(db: Db, id: string, txn: string, env: nat -> Choice)
    requires (id in db.rows ==> db.rows[id].id == id) && forall k :: env(k).outcome.Done?
    ensures var (after, reply) := Complete(db, StartRequest(ConfirmRequest(id, txn)), env, 0);
            if id == "" || txn == "" then (after, reply) == (db, Err(InvalidInput))
            else if id !in db.rows then (after, reply) == (db, Err(NotFound))
            else if db.rows[id].status == Succeeded then (after, reply) == (db, Ok(db.rows[id]))
            else if db.rows[id].status != Pending then (after, reply) == (db, Err(InvalidState))
            else
              var row, c := db.rows[id], db.rows[id].checkout;
              var p := Payment(id, c, Succeeded, txn, row.refundReason, row.failureReason);
              var why := if row.refundReason != "" then row.refundReason else row.failureReason;
              var e := Event(id, c.orderId, c.customerId, c.amount, Succeeded, why, txn);
              && reply == Ok(p) && after.rows == db.rows[id := p] && after.index == db.index
              && after.trace == db.trace +
                   [Updated(p), Appended(e), Published(SubjectSucceeded, e),
                    Mailed(Mail(Receipt, c.email, id, c.orderId, c.amount, ""))]
  {
    var r := ConfirmRequest(id, txn);
    if ValidRequest(r) {
      Unfold(db, Read(r), env, 0);
      if id in db.rows && db.rows[id].status == Pending {
        var next := AfterRead(db.rows[id], r);
        FinishLeaves(db, next.p, next.e, env, 1);
      }
    }
  }

  lemma CancelGoesThroughIff(db: Db, id: string, reason: string, env: nat -> Choice)
    requires (id in db.rows ==> db.rows[id].id == id) && forall k :: env(k).outcome.Done?
    ensures var (after, reply) := Complete(db, StartRequest(CancelRequest(id, reason)), env, 0);
            if id == "" || reason == "" then (after, reply) == (db, Err(InvalidInput))
            else if id !in db.rows then (after, reply) == (db, Err(NotFound))
            else if db.rows[id].status == Refunded || db.rows[id].status == Cancelled then
              (after, reply) == (db, Err(InvalidState))
            else
              var row, c := db.rows[id], db.rows[id].checkout;
              var p := Payment(id, c, Cancelled, row.txn, row.refundReason, reason);
              var e := Event(id, c.orderId, c.customerId, c.amount, Cancelled, reason, row.txn);
              && reply == Ok(p) && after.rows == db.rows[id := p] && after.index == db.index
              && after.trace == db.trace + [Updated(p), Appended(e), Published(SubjectCancelled, e)]
  {
    var r := CancelRequest(id, reason);
    if ValidRequest(r) {
      Unfold(db, Read(r), env, 0);
      if id in db.rows && db.rows[id].status != Refunded && db.rows[id].status != Cancelled {
        var next := AfterRead(db.rows[id], r);
        FinishLeaves(db, next.p, next.e, env, 1);
      }
    }
  }

  // ---- With faults ---------------------------------------------------------------------------

  /** Mailing comes up only for payments that have an e-mail. */
  predicate Sendable(call: Call) {
    call.Holding? && call.stage.Mailing? ==> Mailable(call.p.status)
  }

  /** A remote call that is lost leaves nothing, one whose answer is lost leaves what it does; either
      ends the service call with an error. */
  lemma FaultEndsTheCall(db: Db, call: Call, c: Choice)
    requires !call.Returned? && !c.outcome.Done? && Sendable(call)
    ensures var (after, next) := Advance(db, call, c);
            && next.Returned? && next.reply.Err?
            && after == if c.outcome.Lost? then db else Advance(db, call, c.(outcome := Done)).0
  {
  }

  function Healed(env: nat -> Choice): nat -> Choice {
    (k: nat) => env(k).(outcome := Done)
  }

  lemma AdvanceGrows(db: Db, call: Call, c: Choice)
    requires Sendable(call)
    ensures var (after, next) := Advance(db, call, c); db.trace <= after.trace && Sendable(next)
  {
  }

  lemma {:induction false} CompleteGrows(db: Db, call: Call, env: nat -> Choice, k: nat)
    requires Sendable(call)
    ensures db.trace <= Complete(db, call, env, k).0.trace
    decreases Distance(call)
  {
    if !call.Returned? {
      var (after, next) := Advance(db, call, env(k));
      AdvanceGrows(db, call, env(k));
      CompleteGrows(after, next, env, k + 1);
    }
  }

  /** Faults only cut a call short: it does what it would do without them, or it reports an error and
      leaves the first of the effects it would leave. */
  lemma {:induction false} FaultsOnlyCutShort(db: Db, call: Call, env: nat -> Choice, k: nat)
    requires Sendable(call)
    ensures var (after, reply) := Complete(db, call, env, k);
            var (whole, answer) := Complete(db, call, Healed(env), k);
            && after.trace <= whole.trace
            && (reply.Ok? ==> (after, reply) == (whole, answer))
    decreases Distance(call)
  {
    if !call.Returned? {
      var (healed, further) := Advance(db, call, Healed(env)(k));
      AdvanceGrows(db, call, Healed(env)(k));
      if env(k).outcome.Done? {
        assert env(k) == Healed(env)(k);
        FaultsOnlyCutShort(healed, further, env, k + 1);
      } else {
        FaultEndsTheCall(db, call, env(k));
        CompleteGrows(healed, further, Healed(env), k + 1);
      }
    }
  }
}
