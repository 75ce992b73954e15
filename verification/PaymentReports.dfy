/** Every event, message, refund row, charge and e-mail reports an earlier write, word for word, in
    every schedule. */
module PaymentReports {
  import opened Prelude
  import opened PaymentTypes
  import opened PaymentProtocol
  import opened PaymentInterleaving

  /** The event that a written row calls for: a refund and a cancellation give their own reason, any
      other status the refund reason if there is one and the failure reason otherwise. */
  function NoticeOf(p: Payment): Event {
    var c := p.checkout;
    var reason := if p.status == Refunded then p.refundReason
                  else if p.status == Cancelled || p.refundReason == "" then p.failureReason
                  else p.refundReason;
    Event(p.id, c.orderId, c.customerId, c.amount, p.status, reason, p.txn)
  }

  /** So the event of a lawful row gives the reason of its status, and none where there is none. */
  lemma NoticeGivesItsReason(p: Payment)
    requires Lawful(p)
    ensures NoticeOf(p).reason == match p.status
                                  case Failed => p.failureReason
                                  case Cancelled => p.failureReason
                                  case Refunded => p.refundReason
                                  case _ => ""
    ensures p.status.Failed? || p.status.Cancelled? || p.status.Refunded? <==> NoticeOf(p).reason != ""
    ensures !p.status.Refunded? && !p.status.Cancelled? ==> EventOf(p) == NoticeOf(p)
  {
  }

  ghost predicate Wrote(trace: seq<Effect>, p: Payment) {
    Inserted(p) in trace || Updated(p) in trace
  }

  /** What must already have happened when the effect happens. */
  ghost predicate Reported(before: seq<Effect>, f: Effect) {
    match f
    case Appended(e) => exists p :: Wrote(before, p) && NoticeOf(p) == e
    case RefundRow(id, reason, amount) =>
      exists e :: Appended(e) in before && e.status.Refunded? &&
                  e.paymentId == id && e.reason == reason && e.amount == amount
    case Published(subject, e) => subject == SubjectOf(e.status) && Appended(e) in before
    case Charged(p, _) => Inserted(p) in before && Published(SubjectCreated, NoticeOf(p)) in before
    case Mailed(m) =>
      exists p :: Wrote(before, p) && Mailable(p.status) && MailFor(p) == m &&
                  Published(SubjectOf(p.status), NoticeOf(p)) in before
    case _ => true
  }

  ghost predicate AllReported(trace: seq<Effect>) {
    forall i | 0 <= i < |trace| :: Reported(trace[..i], trace[i])
  }

  /** What has happened by the time a call is where it is. */
  ghost predicate Prepared(trace: seq<Effect>, call: Call) {
    call.Holding? ==>
      && call.e == NoticeOf(call.p)
      && (if call.stage.Writing? then true
          else if call.p.status.Pending? then Inserted(call.p) in trace else Updated(call.p) in trace)
      && (call.stage.AppendingRefund? || call.stage.Publishing? || call.stage.Charging? || call.stage.Mailing? ==>
            Appended(call.e) in trace)
      && (call.stage.Charging? || call.stage.Mailing? ==> Published(SubjectOf(call.p.status), call.e) in trace)
  }

  ghost predicate ReportInv(s: Sys) {
    AllReported(s.db.trace) && forall t | t in s.calls :: Prepared(s.db.trace, s.calls[t])
  }

  lemma PreparedStays(trace: seq<Effect>, more: seq<Effect>, call: Call)
    requires Prepared(trace, call) && trace <= more
    ensures Prepared(more, call)
  {
  }

  lemma ReportEffect(db: Db, stage: Stage, p: Payment, e: Event, c: Choice)
    requires RowsOk(db.rows) && CallOk(db.rows, Holding(stage, p, e)) && Prepared(db.trace, Holding(stage, p, e))
    ensures var after := AdvanceHolding(db, stage, p, e, c).0;
            after.trace == db.trace || exists f :: after.trace == db.trace + [f] && Reported(db.trace, f)
  {
    var after := AdvanceHolding(db, stage, p, e, c).0;
    if after.trace != db.trace {
      var f := after.trace[|db.trace|];
      assert after.trace == db.trace + [f];
      match stage
      case Appending =>
        assert Wrote(db.trace, p) && NoticeOf(p) == e;
      case Mailing =>
        assert Wrote(db.trace, p) && Mailable(p.status) && MailFor(p) == f.mail;
      case _ =>
    }
  }

  lemma ReportNext(db: Db, stage: Stage, p: Payment, e: Event, c: Choice)
    requires RowsOk(db.rows) && CallOk(db.rows, Holding(stage, p, e)) && Prepared(db.trace, Holding(stage, p, e))
    ensures var (after, next) := AdvanceHolding(db, stage, p, e, c); Prepared(after.trace, next)
  {
    if stage.Writing? { assert Overwrite(db.rows[p.id], p) == p; }
  }

  lemma ReportHolding(db: Db, stage: Stage, p: Payment, e: Event, c: Choice)
    requires RowsOk(db.rows) && CallOk(db.rows, Holding(stage, p, e)) && Prepared(db.trace, Holding(stage, p, e))
    ensures var (after, next) := AdvanceHolding(db, stage, p, e, c);
            && (after.trace == db.trace ||
                (exists f :: after.trace == db.trace + [f] && Reported(db.trace, f)))
            && Prepared(after.trace, next)
  {
    ReportEffect(db, stage, p, e, c);
    ReportNext(db, stage, p, e, c);
  }

  lemma ReportAdvance(db: Db, call: Call, c: Choice)
    requires RowsOk(db.rows) && CallOk(db.rows, call) && Prepared(db.trace, call)
    ensures var (after, next) := Advance(db, call, c);
            && (after.trace == db.trace ||
                (exists f :: after.trace == db.trace + [f] && Reported(db.trace, f)))
            && Prepared(after.trace, next)
  {
    match call
    case Holding(stage, p, e) => ReportHolding(db, stage, p, e, c);
    case Insert(input) =>
      var p := NewPayment(c.id, input);
      assert Reported(db.trace, Inserted(p)) && EventOf(p) == NoticeOf(p);
    case _ =>
  }

  lemma ReportStep(s: Sys, a: Action)
    requires StoreInv(s) && ReportInv(s)
    ensures ReportInv(Step(s, a))
  {
    if a.Move? && a.t in s.calls {
      ReportAdvance(s.db, s.calls[a.t], a.choice);
      var after := Advance(s.db, s.calls[a.t], a.choice).0;
      if after.trace != s.db.trace {
        var f :| after.trace == s.db.trace + [f] && Reported(s.db.trace, f);
        forall i | 0 <= i < |after.trace| ensures Reported(after.trace[..i], after.trace[i]) {
          assert after.trace[..i] == if i < |s.db.trace| then s.db.trace[..i] else s.db.trace;
        }
      }
      forall t | t in s.calls ensures Prepared(after.trace, s.calls[t]) {
        PreparedStays(s.db.trace, after.trace, s.calls[t]);
      }
    }
  }

  /** In every schedule: an event repeats a row as it was written; a message repeats an appended
      event on the subject of its status; a charge is of the payment as inserted and announced; a
      refund row repeats an appended refund; an e-mail tells of a written and published outcome. */
  lemma {:induction false} EveryEffectIsReported(actions: seq<Action>)
    ensures ReportInv(Run(actions))
  {
    if actions != [] {
      var n := |actions| - 1;
      EveryEffectIsReported(actions[..n]);
      Interleaving(actions[..n]);
      ReportStep(Run(actions[..n]), actions[n]);
    }
  }
}
