/** What holds of payments in every schedule, with no assumption on which calls overlap. */
module PaymentInterleaving {
  import opened Prelude
  import opened PaymentTypes
  import opened PaymentProtocol

  // ---- The invariant -------------------------------------------------------------------------

  ghost predicate RowsOk(rows: map<string, Payment>) {
    && (forall id | id in rows :: rows[id].id == id && ValidCheckout(rows[id].checkout))
    && (forall a, b | a in rows && b in rows && rows[a].checkout.key == rows[b].checkout.key :: a == b)
  }

  ghost predicate KeyOf(rows: map<string, Payment>, key: string, id: string) {
    id in rows && rows[id].checkout.key == key
  }

  ghost predicate IndexOk(db: Db) {
    forall key | key in db.index :: KeyOf(db.rows, key, db.index[key])
  }

  /** The payment is a copy of a stored row, up to the columns Update writes. */
  ghost predicate CopyOf(rows: map<string, Payment>, p: Payment) {
    p.id in rows && rows[p.id].checkout == p.checkout
  }

  ghost predicate Describes(rows: map<string, Payment>, e: Event) {
    e.paymentId in rows &&
    var c := rows[e.paymentId].checkout;
    e.orderId == c.orderId && e.customerId == c.customerId && e.amount == c.amount
  }

  ghost predicate EffectOk(rows: map<string, Payment>, f: Effect) {
    match f
    case Inserted(p) => CopyOf(rows, p) && p.status.Pending?
    case Updated(p) => CopyOf(rows, p)
    case Charged(p, _) => CopyOf(rows, p)
    case Appended(e) => Describes(rows, e)
    case Published(subject, e) => Describes(rows, e) && subject == SubjectOf(e.status)
    case RefundRow(id, _, amount) => id in rows && rows[id].checkout.amount == amount
    case Mailed(m) =>
      m.paymentId in rows &&
      var c := rows[m.paymentId].checkout; m.to == c.email && m.orderId == c.orderId && m.amount == c.amount
  }

  predicate StageOk(stage: Stage, s: Status) {
    match stage
    case Saving => s.Pending?
    case Charging => s.Pending?
    case Writing => !s.Pending?
    case AppendingRefund => s.Refunded?
    case Mailing => Mailable(s)
    case _ => true
  }

  ghost predicate CallOk(rows: map<string, Payment>, call: Call) {
    match call
    case Lookup(input) => ValidCheckout(input)
    case Insert(input) => ValidCheckout(input)
    case Fetch(key, id) => KeyOf(rows, key, id)
    case Read(r) => ValidRequest(r)
    case Holding(stage, p, e) =>
      CopyOf(rows, p) && Describes(rows, e) && e.paymentId == p.id && e.status == p.status && StageOk(stage, p.status)
    case _ => true
  }

  ghost predicate TraceOk(db: Db) {
    forall i | 0 <= i < |db.trace| :: EffectOk(db.rows, db.trace[i])
  }

  ghost predicate CallsOk(s: Sys) {
    forall t | t in s.calls :: CallOk(s.db.rows, s.calls[t])
  }

  ghost predicate StoreInv(s: Sys) {
    RowsOk(s.db.rows) && IndexOk(s.db) && TraceOk(s.db) && CallsOk(s)
  }

  /** A call that may still charge its payment. */
  predicate WillCharge(call: Call) {
    call.Holding? && call.e.status.Pending?
  }

  ghost predicate Uncharged(trace: seq<Effect>, id: string) {
    forall i | 0 <= i < |trace| && trace[i].Charged? :: trace[i].payment.id != id
  }

  ghost predicate WillChargeUncharged(s: Sys) {
    forall t | t in s.calls && WillCharge(s.calls[t]) :: Uncharged(s.db.trace, s.calls[t].p.id)
  }

  ghost predicate WillChargeApart(s: Sys) {
    forall t, u | t in s.calls && u in s.calls && t != u && WillCharge(s.calls[t]) && WillCharge(s.calls[u]) ::
      s.calls[t].p.id != s.calls[u].p.id
  }

  ghost predicate ChargedOnce(trace: seq<Effect>) {
    forall i, j | 0 <= i < j < |trace| && trace[i].Charged? && trace[j].Charged? ::
      trace[i].payment.id != trace[j].payment.id
  }

  ghost predicate ChargeInv(s: Sys) {
    WillChargeUncharged(s) && WillChargeApart(s) && ChargedOnce(s.db.trace)
  }

  // ---- Every action keeps it -----------------------------------------------------------------

  /** Rows are never removed and never change their checkout. */
  ghost predicate Grows(before: map<string, Payment>, after: map<string, Payment>) {
    forall id | id in before :: id in after && after[id].checkout == before[id].checkout
  }

  lemma CallKept(before: map<string, Payment>, after: map<string, Payment>, call: Call)
    requires Grows(before, after) && CallOk(before, call)
    ensures CallOk(after, call)
  {
  }

  lemma EffectKept(before: map<string, Payment>, after: map<string, Payment>, f: Effect)
    requires Grows(before, after) && EffectOk(before, f)
    ensures EffectOk(after, f)
  {
  }

  lemma InsertKeepsRows(rows: map<string, Payment>, p: Payment)
    requires RowsOk(rows) && ValidCheckout(p.checkout) && Insertable(rows, p)
    ensures RowsOk(rows[p.id := p]) && Grows(rows, rows[p.id := p])
  {
  }

  lemma WriteKeepsRows(rows: map<string, Payment>, p: Payment)
    requires RowsOk(rows) && p.id in rows
    ensures var after := rows[p.id := Overwrite(rows[p.id], p)]; RowsOk(after) && Grows(rows, after)
  {
  }

  lemma AdvanceRows(db: Db, call: Call, c: Choice)
    requires RowsOk(db.rows) && CallOk(db.rows, call)
    ensures var after := Advance(db, call, c).0; RowsOk(after.rows) && Grows(db.rows, after.rows)
  {
    match call
    case Holding(stage, p, e) => WriteKeepsRows(db.rows, p);
    case Insert(input) =>
      if Insertable(db.rows, NewPayment(c.id, input)) { InsertKeepsRows(db.rows, NewPayment(c.id, input)); }
    case _ =>
  }

  lemma AdvanceIndex(db: Db, call: Call, c: Choice)
    requires IndexOk(db) && CallOk(db.rows, call) && Grows(db.rows, Advance(db, call, c).0.rows)
    ensures IndexOk(Advance(db, call, c).0)
  {
  }

  lemma AdvanceCall(db: Db, call: Call, c: Choice)
    requires IndexOk(db) && RowsOk(db.rows) && CallOk(db.rows, call)
    ensures var (after, next) := Advance(db, call, c); CallOk(after.rows, next)
  {
    match call
    case Lookup(input) =>
      if input.key in db.index { assert KeyOf(db.rows, input.key, db.index[input.key]); }
    case Holding(stage, p, e) => HoldingCall(db, stage, p, e, c);
    case _ =>
  }

  lemma HoldingCall(db: Db, stage: Stage, p: Payment, e: Event, c: Choice)
    requires RowsOk(db.rows) && CallOk(db.rows, Holding(stage, p, e))
    ensures var (after, next) := AdvanceHolding(db, stage, p, e, c); CallOk(after.rows, next)
  {
  }

  /** A remote call leaves at most one effect. */
  lemma AdvanceTrace(db: Db, call: Call, c: Choice)
    requires RowsOk(db.rows) && CallOk(db.rows, call)
    ensures var after := Advance(db, call, c).0;
            after.trace == db.trace ||
            (exists f :: after.trace == db.trace + [f] && EffectOk(after.rows, f) &&
                         (f.Charged? ==> WillCharge(call) && f.payment == call.p))
  {
    var after := Advance(db, call, c).0;
    if after.trace != db.trace {
      var f := after.trace[|db.trace|];
      assert after.trace == db.trace + [f];
      assert EffectOk(after.rows, f) && (f.Charged? ==> WillCharge(call) && f.payment == call.p);
    }
  }

  lemma StoreStep(s: Sys, a: Action)
    requires StoreInv(s)
    ensures StoreInv(Step(s, a)) && Grows(s.db.rows, Step(s, a).db.rows)
  {
    if a.Move? && a.t in s.calls {
      var call := s.calls[a.t];
      AdvanceRows(s.db, call, a.choice);
      AdvanceIndex(s.db, call, a.choice);
      AdvanceCall(s.db, call, a.choice);
      AdvanceTrace(s.db, call, a.choice);
      var after := Advance(s.db, call, a.choice).0;
      forall t | t in s.calls ensures CallOk(after.rows, s.calls[t]) { CallKept(s.db.rows, after.rows, s.calls[t]); }
      forall i | 0 <= i < |s.db.trace| ensures EffectOk(after.rows, s.db.trace[i]) {
        EffectKept(s.db.rows, after.rows, s.db.trace[i]);
      }
    }
  }

  /** Only Insert makes a call that will charge, and of a row that was not there before. */
  lemma AdvanceWillCharge(db: Db, call: Call, c: Choice)
    requires CallOk(db.rows, call)
    ensures var (after, next) := Advance(db, call, c);
            WillCharge(next) ==>
              (!call.Holding? && next.p.id !in db.rows && after.trace == db.trace + [Inserted(next.p)]) ||
              (WillCharge(call) && next.p == call.p && !(after.trace != db.trace && after.trace[|db.trace|].Charged?))
  {
  }

  lemma NewIsUncharged(db: Db, id: string)
    requires TraceOk(db) && id !in db.rows
    ensures Uncharged(db.trace, id)
  {
  }

  lemma ApartMove(s: Sys, t: nat, c: Choice)
    requires StoreInv(s) && WillChargeApart(s) && t in s.calls
    ensures WillChargeApart(Step(s, Move(t, c)))
  {
    AdvanceWillCharge(s.db, s.calls[t], c);
    var next := Advance(s.db, s.calls[t], c).1;
    forall u | u in s.calls && u != t && WillCharge(s.calls[u]) && WillCharge(next)
      ensures s.calls[u].p.id != next.p.id
    {
      assert CallOk(s.db.rows, s.calls[u]);
    }
  }

  lemma OnceMove(s: Sys, t: nat, c: Choice)
    requires StoreInv(s) && ChargeInv(s) && t in s.calls
    ensures ChargedOnce(Step(s, Move(t, c)).db.trace)
  {
    AdvanceTrace(s.db, s.calls[t], c);
  }

  lemma UnchargedMove(s: Sys, t: nat, c: Choice)
    requires StoreInv(s) && WillChargeUncharged(s) && WillChargeApart(s) && t in s.calls
    ensures WillChargeUncharged(Step(s, Move(t, c)))
  {
    var (after, next) := Advance(s.db, s.calls[t], c);
    AdvanceTrace(s.db, s.calls[t], c);
    AdvanceWillCharge(s.db, s.calls[t], c);
    if WillCharge(next) && !s.calls[t].Holding? {
      NewIsUncharged(s.db, next.p.id);
    }
    forall u | u in s.calls && u != t && WillCharge(s.calls[u]) ensures Uncharged(after.trace, s.calls[u].p.id) {
      assert Uncharged(s.db.trace, s.calls[u].p.id);
    }
  }

  lemma ChargeStep(s: Sys, a: Action)
    requires StoreInv(s) && ChargeInv(s)
    ensures ChargeInv(Step(s, a))
  {
    if a.Move? && a.t in s.calls {
      ApartMove(s, a.t, a.choice);
      OnceMove(s, a.t, a.choice);
      UnchargedMove(s, a.t, a.choice);
    }
  }

  lemma {:induction false} Interleaving(actions: seq<Action>)
    ensures StoreInv(Run(actions)) && ChargeInv(Run(actions))
  {
    if actions != [] {
      var n := |actions| - 1;
      Interleaving(actions[..n]);
      StoreStep(Run(actions[..n]), actions[n]);
      ChargeStep(Run(actions[..n]), actions[n]);
    }
  }

  // ---- Main results --------------------------------------------------------------------------

  /** However calls interleave, fail or lose their Redis entries: one row and one charge per key. */
  lemma {:induction false} OneChargePerKey(actions: seq<Action>)
    ensures var db := Run(actions).db;
            && (forall a, b | a in db.rows && b in db.rows && db.rows[a].checkout.key == db.rows[b].checkout.key :: a == b)
            && (forall i, j | 0 <= i < j < |db.trace| && db.trace[i].Charged? && db.trace[j].Charged? ::
                  db.trace[i].payment.checkout.key != db.trace[j].payment.checkout.key)
  {
    Interleaving(actions);
    var db := Run(actions).db;
    forall i, j | 0 <= i < j < |db.trace| && db.trace[i].Charged? && db.trace[j].Charged?
      ensures db.trace[i].payment.checkout.key != db.trace[j].payment.checkout.key
    {
      assert EffectOk(db.rows, db.trace[i]) && EffectOk(db.rows, db.trace[j]);
    }
  }

  lemma TraceGrows(s: Sys, a: Action)
    requires StoreInv(s)
    ensures s.db.trace <= Step(s, a).db.trace
  {
    if a.Move? && a.t in s.calls { AdvanceTrace(s.db, s.calls[a.t], a.choice); }
  }

  lemma {:induction false} LaterRows(actions: seq<Action>, more: seq<Action>)
    ensures Grows(Run(actions).db.rows, Run(actions + more).db.rows)
    ensures Run(actions).db.trace <= Run(actions + more).db.trace
  {
    if more == [] {
      assert actions + more == actions;
    } else {
      var n := |more| - 1;
      LaterRows(actions, more[..n]);
      assert (actions + more)[..|actions + more| - 1] == actions + more[..n];
      Interleaving(actions + more[..n]);
      StoreStep(Run(actions + more[..n]), more[n]);
      TraceGrows(Run(actions + more[..n]), more[n]);
    }
  }

  /** Every event, message, e-mail, charge and refund row repeats the order, customer, address and
      amount of its payment's row, whatever has happened to that row since. */
  lemma EffectsRepeatTheRow(actions: seq<Action>, more: seq<Action>, i: nat)
    requires i < |Run(actions).db.trace|
    ensures var later := Run(actions + more).db;
            i < |later.trace| && later.trace[i] == Run(actions).db.trace[i] &&
            EffectOk(later.rows, Run(actions).db.trace[i])
  {
    LaterRows(actions, more);
    Interleaving(actions + more);
  }

  predicate LeavesAlone(t: nat, actions: seq<Action>) {
    forall a | a in actions :: a.Evict? || a.t != t
  }

  lemma {:induction false} CallWaits(actions: seq<Action>, more: seq<Action>, t: nat)
    requires t in Run(actions).calls && LeavesAlone(t, more)
    ensures t in Run(actions + more).calls && Run(actions + more).calls[t] == Run(actions).calls[t]
  {
    if more == [] {
      assert actions + more == actions;
    } else {
      var n := |more| - 1;
      assert more[n] in more;
      CallWaits(actions, more[..n], t);
      assert (actions + more)[..|actions + more| - 1] == actions + more[..n];
    }
  }

  /** A Create that finds its key's entry live answers with the stored payment of that key, even if
      the entry expires before it reads the row; its own steps change nothing. */
  lemma ReplayReturnsTheRow(actions: seq<Action>, more: seq<Action>, t: nat, input: Checkout, c1: Choice, c2: Choice)
    requires t in Run(actions).calls && Run(actions).calls[t] == Lookup(input)
    requires input.key in Run(actions).db.index
    requires c1.outcome.Done? && c2.outcome.Done? && LeavesAlone(t, more)
    ensures Run(actions + [Move(t, c1)]).db == Run(actions).db
    ensures var s := Run(actions + [Move(t, c1)] + more);
            var id := Run(actions).db.index[input.key];
            id in s.db.rows && s.db.rows[id].checkout.key == input.key &&
            Step(s, Move(t, c2)) == s.(calls := s.calls[t := Returned(Ok(s.db.rows[id]))])
  {
    var looked := actions + [Move(t, c1)];
    assert looked[..|looked| - 1] == actions;
    CallWaits(looked, more, t);
    Interleaving(looked + more);
    assert CallOk(Run(looked + more).db.rows, Run(looked + more).calls[t]);
  }

  // ---- What a row's columns say --------------------------------------------------------------

  predicate Lawful(p: Payment) {
    && (p.refundReason != "" <==> p.status.Refunded?)
    && (p.failureReason != "" <==> p.status.Failed? || p.status.Cancelled?)
    && (p.status.Succeeded? || p.status.Failed? || p.status.Refunded? ==> p.txn != "")
  }

  /** The provider's contract is exactly what makes a charged payment lawful. */
  lemma HonestIffLawful(p: Payment, r: ChargeResult)
    requires p.status.Pending? && Lawful(p) && (r.status.Succeeded? || r.status.Failed?)
    ensures Lawful(AfterCharge(p, r).p) <==> Honest(r)
  {
  }

  predicate HonestRun(actions: seq<Action>) {
    forall a | a in actions && a.Move? :: Honest(a.choice.charge)
  }

  ghost predicate LawInv(s: Sys) {
    && (forall id | id in s.db.rows :: Lawful(s.db.rows[id]))
    && (forall t | t in s.calls && s.calls[t].Holding? :: Lawful(s.calls[t].p))
    && WritesLawful(s.db.trace)
  }

  ghost predicate WritesLawful(trace: seq<Effect>) {
    forall i | 0 <= i < |trace| && (trace[i].Inserted? || trace[i].Updated?) :: Lawful(trace[i].row)
  }

  lemma LawTrace(db: Db, call: Call, c: Choice)
    requires RowsOk(db.rows) && CallOk(db.rows, call) && (call.Holding? ==> Lawful(call.p)) && WritesLawful(db.trace)
    ensures WritesLawful(Advance(db, call, c).0.trace)
  {
  }

  lemma LawAdvance(db: Db, call: Call, c: Choice)
    requires CallOk(db.rows, call) && Honest(c.charge)
    requires (forall id | id in db.rows :: Lawful(db.rows[id])) && (call.Holding? ==> Lawful(call.p))
    ensures var (after, next) := Advance(db, call, c);
            (forall id | id in after.rows :: Lawful(after.rows[id])) && (next.Holding? ==> Lawful(next.p))
  {
    if call.Holding? && call.stage.Charging? && AfterCharge(call.p, c.charge).Holding? {
      HonestIffLawful(call.p, c.charge);
    }
  }

  /** In every schedule with an honest provider, of every row and every write: a refund reason is there
      exactly when the payment is refunded, a failure reason exactly when it failed or was cancelled,
      and a payment that was charged or confirmed keeps its provider transaction. */
  lemma {:induction false} RowsAreLawful(actions: seq<Action>)
    requires HonestRun(actions)
    ensures LawInv(Run(actions))
  {
    if actions != [] {
      var n := |actions| - 1;
      assert forall a | a in actions[..n] :: a in actions;
      RowsAreLawful(actions[..n]);
      Interleaving(actions[..n]);
      var s, a := Run(actions[..n]), actions[n];
      assert a in actions;
      if a.Move? && a.t in s.calls {
        LawAdvance(s.db, s.calls[a.t], a.choice);
        LawTrace(s.db, s.calls[a.t], a.choice);
      }
    }
  }
}
