/** Payments, the network between them and orders. The network may lose, repeat and reorder messages:
    a delivery picks any published message, any number of times. */
module Settlement {
  import opened Prelude
  import PT = PaymentTypes
  import P = PaymentProtocol
  import PI = PaymentInterleaving
  import PS = PaymentSerial
  import PR = PaymentReports
  import O = OrderProtocol
  import OH = OrderHistory
  import OC = OrderConsumer

  datatype Joint = Joint(pay: P.Sys, ord: O.Sys)

  datatype Action =
    | Pay(p: P.Action)
    | Client(o: O.Action)
    | Deliver(i: nat, t: nat)

  const INITIAL := Joint(P.INITIAL, O.INITIAL)

  predicate FromConsumer(a: O.Action) {
    a.BeginUpdate? && (a.goal.PaymentSucceeded? || a.goal.PaymentFailing?)
  }

  /** What an action asks of the order service. */
  function OrderActions(j: Joint, a: Action): seq<O.Action> {
    match a
    case Pay(_) => []
    case Client(o) => if FromConsumer(o) then [] else [o]
    case Deliver(i, t) =>
      if i < |j.pay.db.trace| && j.pay.db.trace[i].Published? then
        var e := j.pay.db.trace[i].event;
        match OC.GoalOf(OC.Payments(j.pay.db.trace[i].subject), e.reason)
        case None => []
        case Some(goal) => [O.BeginUpdate(t, e.orderId, goal)]
      else []
  }

  function Step(j: Joint, a: Action): Joint {
    var os := OrderActions(j, a);
    Joint(if a.Pay? then P.Step(j.pay, a.p) else j.pay,
          if os == [] then j.ord else O.Step(j.ord, os[0]))
  }

  function Run(actions: seq<Action>): Joint {
    if actions == [] then INITIAL else Step(Run(actions[..|actions| - 1]), actions[|actions| - 1])
  }

  // ---- Each side of a joint run is a run of its own ------------------------------------------

  function PaySide(actions: seq<Action>): seq<P.Action> {
    if actions == [] then []
    else
      var rest, a := PaySide(actions[..|actions| - 1]), actions[|actions| - 1];
      if a.Pay? then rest + [a.p] else rest
  }

  function OrderSide(actions: seq<Action>): seq<O.Action> {
    if actions == [] then []
    else
      var before := actions[..|actions| - 1];
      OrderSide(before) + OrderActions(Run(before), actions[|actions| - 1])
  }

  lemma PaySideMoves(before: seq<Action>, a: Action)
    requires Run(before).pay == P.Run(PaySide(before))
    ensures Run(before + [a]).pay == P.Run(PaySide(before + [a]))
  {
    assert (before + [a])[..|before|] == before;
    if a.Pay? { assert (PaySide(before) + [a.p])[..|PaySide(before)|] == PaySide(before); }
  }

  lemma OrderSideMoves(before: seq<Action>, a: Action)
    requires Run(before).ord == O.Run(OrderSide(before))
    ensures Run(before + [a]).ord == O.Run(OrderSide(before + [a]))
  {
    assert (before + [a])[..|before|] == before;
    var os := OrderActions(Run(before), a);
    if os == [] {
      assert OrderSide(before) + [] == OrderSide(before);
    } else {
      assert os == [os[0]];
      assert (OrderSide(before) + os)[..|OrderSide(before)|] == OrderSide(before);
    }
  }

  lemma {:induction false} SidesAreRuns(actions: seq<Action>)
    ensures Run(actions) == Joint(P.Run(PaySide(actions)), O.Run(OrderSide(actions)))
  {
    if actions != [] {
      var before, a := actions[..|actions| - 1], actions[|actions| - 1];
      SidesAreRuns(before);
      assert actions == before + [a];
      PaySideMoves(before, a);
      OrderSideMoves(before, a);
    }
  }

  // ---- An order is paid only for a payment that succeeded ------------------------------------

  /** A payment of the order had its success written, then recorded, then published. */
  ghost predicate Caused(trace: seq<P.Effect>, orderId: string) {
    exists i, j, k | 0 <= i < j < k < |trace| && trace[i].Updated? ::
      && trace[i].row.status.Succeeded? && trace[i].row.checkout.orderId == orderId
      && trace[j] == P.Appended(PR.NoticeOf(trace[i].row))
      && trace[k] == P.Published(P.SubjectSucceeded, PR.NoticeOf(trace[i].row))
  }

  lemma CausedStays(trace: seq<P.Effect>, more: seq<P.Effect>, orderId: string)
    requires Caused(trace, orderId) && trace <= more
    ensures Caused(more, orderId)
  {
  }

  lemma SuccessMessageIsCaused(db: P.Db, k: nat)
    requires PR.AllReported(db.trace) && PI.TraceOk(db)
    requires k < |db.trace| && db.trace[k].Published? && db.trace[k].subject.SubjectSucceeded?
    ensures Caused(db.trace, db.trace[k].event.orderId)
  {
  }

  ghost predicate CallCaused(trace: seq<P.Effect>, call: O.Call) {
    match call
    case Reading(id, goal) => goal.PaymentSucceeded? ==> Caused(trace, id)
    case Updating(id, _, to, reason) => to.Paid? && reason == O.SUCCEEDED_REASON ==> Caused(trace, id)
    case _ => true
  }

  ghost predicate CauseInv(j: Joint) {
    && (forall t | t in j.ord.calls :: CallCaused(j.pay.db.trace, j.ord.calls[t]))
    && (forall r | r in j.ord.store.history && r.to.Paid? && r.reason == O.SUCCEEDED_REASON ::
          Caused(j.pay.db.trace, r.orderId))
  }

  lemma CauseOrderStep(trace: seq<P.Effect>, s: O.Sys, a: O.Action)
    requires CauseInv(Joint(P.Sys(P.Db(map[], map[], trace), map[]), s))
    requires a.BeginUpdate? && a.goal.PaymentSucceeded? ==> Caused(trace, a.id)
    ensures CauseInv(Joint(P.Sys(P.Db(map[], map[], trace), map[]), O.Step(s, a)))
  {
  }

  lemma CausePayStep(j: Joint, a: P.Action)
    requires CauseInv(j) && PI.StoreInv(j.pay)
    ensures CauseInv(Joint(P.Step(j.pay, a), j.ord))
  {
    PI.TraceGrows(j.pay, a);
    var trace, more := j.pay.db.trace, P.Step(j.pay, a).db.trace;
    forall id | Caused(trace, id) ensures Caused(more, id) { CausedStays(trace, more, id); }
    forall t | t in j.ord.calls ensures CallCaused(more, j.ord.calls[t]) { assert CallCaused(trace, j.ord.calls[t]); }
  }

  /** At every moment of every joint run, a history row that says payment.succeeded made the order
      paid has its cause behind it. Histories and traces only grow, so the cause came first. */
  lemma {:induction false} PaidOnlyForSuccess(actions: seq<Action>)
    ensures CauseInv(Run(actions))
  {
    if actions != [] {
      var before, a := actions[..|actions| - 1], actions[|actions| - 1];
      PaidOnlyForSuccess(before);
      var j := Run(before);
      SidesAreRuns(before);
      PI.Interleaving(PaySide(before));
      PR.EveryEffectIsReported(PaySide(before));
      if a.Pay? {
        CausePayStep(j, a.p);
      } else {
        var os := OrderActions(j, a);
        if os != [] {
          if a.Deliver? && os[0].goal.PaymentSucceeded? { SuccessMessageIsCaused(j.pay.db, a.i); }
          CauseOrderStep(j.pay.db.trace, j.ord, os[0]);
        }
      }
    }
  }

  // ---- An order settles at its payment's outcome ---------------------------------------------

  /** The run leaves the order to its one payment, whose calls do not overlap. */
  ghost predicate Calm(actions: seq<Action>, orderId: string, paymentId: string) {
    actions == [] ||
    (var j, a := Run(actions), actions[|actions| - 1];
     && Calm(actions[..|actions| - 1], orderId, paymentId)
     && PS.OneHolder(j.pay, paymentId)
     && (forall id | id in j.pay.db.rows && j.pay.db.rows[id].checkout.orderId == orderId :: id == paymentId)
     && !(a.Client? && a.o.BeginUpdate? && a.o.id == orderId))
  }

  lemma {:induction false} CalmIsSerial(actions: seq<Action>, orderId: string, paymentId: string)
    requires Calm(actions, orderId, paymentId)
    ensures PS.Serial(PaySide(actions), paymentId)
  {
    if actions != [] {
      var before, a := actions[..|actions| - 1], actions[|actions| - 1];
      CalmIsSerial(before, orderId, paymentId);
      SidesAreRuns(actions);
      if a.Pay? { assert PaySide(actions)[..|PaySide(before)|] == PaySide(before); }
    }
  }

  /** The payment has published the outcome that brings its order to this status. */
  ghost predicate Announced(trace: seq<P.Effect>, paymentId: string, to: O.Status) {
    var messages := PS.Seen(trace, PS.MessageLog, paymentId);
    (to.Paid? && PT.Succeeded in messages) || (to.PaymentFailed? && PT.Failed in messages)
  }

  ghost predicate CallAnnounced(trace: seq<P.Effect>, call: O.Call, orderId: string, paymentId: string) {
    match call
    case Reading(id, goal) => id == orderId ==> Announced(trace, paymentId, O.Target(goal))
    case Updating(id, _, to, _) => id == orderId ==> Announced(trace, paymentId, to)
    case _ => true
  }

  ghost predicate AnnounceInv(trace: seq<P.Effect>, s: O.Sys, orderId: string, paymentId: string) {
    && (forall t | t in s.calls :: CallAnnounced(trace, s.calls[t], orderId, paymentId))
    && (forall r | r in s.store.history && r.orderId == orderId && r.from.Some? :: Announced(trace, paymentId, r.to))
  }

  lemma {:induction false} SeenHas(trace: seq<P.Effect>, i: nat, paymentId: string)
    requires i < |trace| && trace[i].Published? && trace[i].event.paymentId == paymentId
    ensures trace[i].event.status in PS.Seen(trace, PS.MessageLog, paymentId)
  {
    if i < |trace| - 1 { SeenHas(trace[..|trace| - 1], i, paymentId); }
  }

  lemma {:induction false} AnnouncedStays(trace: seq<P.Effect>, more: seq<P.Effect>, paymentId: string, to: O.Status)
    requires Announced(trace, paymentId, to) && trace <= more
    ensures Announced(more, paymentId, to)
  {
    if trace != more {
      AnnouncedStays(trace, more[..|more| - 1], paymentId, to);
    }
  }

  lemma AnnounceOrderStep(trace: seq<P.Effect>, s: O.Sys, a: O.Action, orderId: string, paymentId: string)
    requires AnnounceInv(trace, s, orderId, paymentId)
    requires a.BeginUpdate? && a.id == orderId ==> Announced(trace, paymentId, O.Target(a.goal))
    ensures AnnounceInv(trace, O.Step(s, a), orderId, paymentId)
  {
  }

  lemma AnnouncePayStep(trace: seq<P.Effect>, more: seq<P.Effect>, s: O.Sys, orderId: string, paymentId: string)
    requires AnnounceInv(trace, s, orderId, paymentId) && trace <= more
    ensures AnnounceInv(more, s, orderId, paymentId)
  {
    forall to | Announced(trace, paymentId, to) ensures Announced(more, paymentId, to) {
      AnnouncedStays(trace, more, paymentId, to);
    }
    forall t | t in s.calls ensures CallAnnounced(more, s.calls[t], orderId, paymentId) {
      assert CallAnnounced(trace, s.calls[t], orderId, paymentId);
    }
  }

  lemma DeliveredIsAnnounced(db: P.Db, i: nat, orderId: string, paymentId: string, goal: O.Goal)
    requires PI.TraceOk(db) && i < |db.trace| && db.trace[i].Published? && db.trace[i].event.orderId == orderId
    requires forall id | id in db.rows && db.rows[id].checkout.orderId == orderId :: id == paymentId
    requires OC.GoalOf(OC.Payments(db.trace[i].subject), db.trace[i].event.reason) == Some(goal)
    ensures Announced(db.trace, paymentId, O.Target(goal))
  {
    assert PI.EffectOk(db.rows, db.trace[i]);
    SeenHas(db.trace, i, paymentId);
  }

  lemma {:induction false} ChangesAreAnnounced(actions: seq<Action>, orderId: string, paymentId: string)
    requires Calm(actions, orderId, paymentId)
    ensures AnnounceInv(Run(actions).pay.db.trace, Run(actions).ord, orderId, paymentId)
  {
    if actions != [] {
      var before, a := actions[..|actions| - 1], actions[|actions| - 1];
      ChangesAreAnnounced(before, orderId, paymentId);
      var j := Run(before);
      SidesAreRuns(before);
      PI.Interleaving(PaySide(before));
      if a.Pay? {
        PI.TraceGrows(j.pay, a.p);
        AnnouncePayStep(j.pay.db.trace, Run(actions).pay.db.trace, j.ord, orderId, paymentId);
      } else {
        var os := OrderActions(j, a);
        if os != [] {
          if a.Deliver? && os[0].id == orderId {
            DeliveredIsAnnounced(j.pay.db, a.i, orderId, paymentId, os[0].goal);
          }
          AnnounceOrderStep(j.pay.db.trace, j.ord, os[0], orderId, paymentId);
        }
      }
    }
  }

  lemma OneOutcome(actions: seq<Action>, orderId: string, paymentId: string)
    requires Calm(actions, orderId, paymentId)
    ensures var trace := Run(actions).pay.db.trace;
            !(Announced(trace, paymentId, O.Paid) && Announced(trace, paymentId, O.PaymentFailed))
  {
    CalmIsSerial(actions, orderId, paymentId);
    SidesAreRuns(actions);
    PS.NothingTwice(PaySide(actions), paymentId, PS.MessageLog);
    var m := PS.Seen(Run(actions).pay.db.trace, PS.MessageLog, paymentId);
    if PT.Succeeded in m && PT.Failed in m { PS.ClimbsApart(m, PT.Succeeded, PT.Failed); }
  }

  lemma {:induction false} RowsOfAreRows(history: seq<O.HistoryRow>, id: string)
    ensures forall r | r in OH.HistoryOf(history, id) :: r in history && r.orderId == id
  {
    if history != [] { RowsOfAreRows(history[..|history| - 1], id); }
  }

  /** Whatever messages are lost, repeated or reordered: the order is still created, or it is where
      its payment's one published outcome leads, and once there it never goes anywhere else. */
  lemma OrderSettlesAtOutcome(actions: seq<Action>, orderId: string, paymentId: string)
    requires Calm(actions, orderId, paymentId) && orderId in Run(actions).ord.store.orders
    ensures var j := Run(actions);
            var h := OH.HistoryOf(j.ord.store.history, orderId);
            var status := j.ord.store.orders[orderId].status;
            && (status == O.Created || Announced(j.pay.db.trace, paymentId, status))
            && (forall i | 0 < i < |h| :: h[i].to == status)
            && (status == O.Created ==> |h| == 1)
  {
    var j := Run(actions);
    var h := OH.HistoryOf(j.ord.store.history, orderId);
    SidesAreRuns(actions);
    OH.HistoryAccountsForStatus(OrderSide(actions), orderId);
    ChangesAreAnnounced(actions, orderId, paymentId);
    OneOutcome(actions, orderId, paymentId);
    RowsOfAreRows(j.ord.store.history, orderId);
    forall i | 0 < i < |h| ensures Announced(j.pay.db.trace, paymentId, h[i].to) {
      assert h[i] in h;
    }
  }

  // ---- A handled outcome takes its order there -----------------------------------------------

  predicate Moves(a: Action, t: nat) {
    a.Client? && a.o.Move? && a.o.t == t
  }

  predicate LeavesAlone(t: nat, actions: seq<Action>) {
    forall a | a in actions :: !Moves(a, t)
  }

  lemma Append(actions: seq<Action>, a: Action)
    ensures Run(actions + [a]) == Step(Run(actions), a)
  {
    assert (actions + [a])[..|actions|] == actions;
  }

  ghost predicate Grown(s: O.Store, s': O.Store) {
    (forall id | id in s.orders :: id in s'.orders) && s.history <= s'.history
  }

  /** Orders and history rows are never removed, and a call waits while others move. */
  lemma OrderStepKeeps(s: O.Sys, a: O.Action)
    ensures Grown(s.store, O.Step(s, a).store)
    ensures forall t | t in s.calls && !(a.Move? && a.t == t) ::
              t in O.Step(s, a).calls && O.Step(s, a).calls[t] == s.calls[t]
  {
  }

  lemma StepKeeps(j: Joint, a: Action)
    ensures Grown(j.ord.store, Step(j, a).ord.store)
    ensures forall t | t in j.ord.calls && !Moves(a, t) ::
              t in Step(j, a).ord.calls && Step(j, a).ord.calls[t] == j.ord.calls[t]
  {
    var os := OrderActions(j, a);
    if os != [] { OrderStepKeeps(j.ord, os[0]); }
  }

  lemma {:induction false} Grows(actions: seq<Action>, more: seq<Action>)
    ensures Grown(Run(actions).ord.store, Run(actions + more).ord.store)
  {
    if more == [] {
      assert actions + more == actions;
    } else {
      var n := |more| - 1;
      Grows(actions, more[..n]);
      assert actions + more == actions + more[..n] + [more[n]];
      Append(actions + more[..n], more[n]);
      StepKeeps(Run(actions + more[..n]), more[n]);
    }
  }

  lemma {:induction false} Waits(actions: seq<Action>, more: seq<Action>, t: nat)
    requires t in Run(actions).ord.calls && LeavesAlone(t, more)
    ensures t in Run(actions + more).ord.calls && Run(actions + more).ord.calls[t] == Run(actions).ord.calls[t]
  {
    if more == [] {
      assert actions + more == actions;
    } else {
      var n := |more| - 1;
      assert more[n] in more;
      Waits(actions, more[..n], t);
      assert actions + more == actions + more[..n] + [more[n]];
      Append(actions + more[..n], more[n]);
      StepKeeps(Run(actions + more[..n]), more[n]);
    }
  }

  /** A published message whose subject asks this of the order service. */
  predicate Delivers(j: Joint, i: nat, goal: O.Goal) {
    var trace := j.pay.db.trace;
    && i < |trace| && trace[i].Published?
    && OC.GoalOf(OC.Payments(trace[i].subject), trace[i].event.reason) == Some(goal)
  }

  lemma MessagesNameAnOrder(actions: seq<Action>, i: nat)
    requires i < |Run(actions).pay.db.trace| && Run(actions).pay.db.trace[i].Published?
    ensures Run(actions).pay.db.trace[i].event.orderId != ""
  {
    SidesAreRuns(actions);
    PI.Interleaving(PaySide(actions));
    var db := Run(actions).pay.db;
    assert PI.EffectOk(db.rows, db.trace[i]);
  }

  lemma DeliveryStep(j: Joint, i: nat, t: nat, goal: O.Goal)
    requires Delivers(j, i, goal) && t !in j.ord.calls && j.pay.db.trace[i].event.orderId != ""
    ensures Step(j, Deliver(i, t)).ord ==
            j.ord.(calls := j.ord.calls[t := O.Reading(j.pay.db.trace[i].event.orderId, goal)])
  {
  }

  /** The message becomes a call that reads its order. */
  lemma DeliveryReads(actions: seq<Action>, i: nat, t: nat, goal: O.Goal)
    requires Delivers(Run(actions), i, goal) && t !in Run(actions).ord.calls
    ensures var j, j' := Run(actions), Run(actions + [Deliver(i, t)]);
            j'.ord == j.ord.(calls := j.ord.calls[t := O.Reading(j.pay.db.trace[i].event.orderId, goal)])
  {
    MessagesNameAnOrder(actions, i);
    DeliveryStep(Run(actions), i, t, goal);
    Append(actions, Deliver(i, t));
  }

  lemma ReadMoves(actions: seq<Action>, t: nat, id: string, goal: O.Goal)
    requires var s := Run(actions).ord;
             && t in s.calls && s.calls[t] == O.Reading(id, goal) && id in s.store.orders && !goal.Cancelling?
    ensures var s, s' := Run(actions).ord, Run(actions + [Client(O.Move(t, Done))]).ord;
            s' == s.(calls := s.calls[t := O.Updating(id, s.store.orders[id].status, O.Target(goal), O.ReasonOf(goal))])
  {
    Append(actions, Client(O.Move(t, Done)));
  }

  lemma UpdateMoves(actions: seq<Action>, t: nat, id: string, from: O.Status, to: O.Status, reason: string)
    requires var s := Run(actions).ord;
             t in s.calls && s.calls[t] == O.Updating(id, from, to, reason) && id in s.store.orders
    ensures var s, s' := Run(actions).ord, Run(actions + [Client(O.Move(t, Done))]).ord;
            s'.store.history == s.store.history + [O.HistoryRow(id, Some(from), to, reason)]
  {
    Append(actions, Client(O.Move(t, Done)));
  }

  lemma {:induction false} RowIsOfOrder(history: seq<O.HistoryRow>, row: O.HistoryRow)
    requires row in history
    ensures row in OH.HistoryOf(history, row.orderId)
  {
    var n := |history| - 1;
    if row in history[..n] { RowIsOfOrder(history[..n], row); }
  }

  /** A delivery and the two moves that handle it, with anything else going on in between. */
  function Handled(actions: seq<Action>, i: nat, t: nat, first: seq<Action>, second: seq<Action>): seq<Action> {
    actions + [Deliver(i, t)] + first + [Client(O.Move(t, Done))] + second + [Client(O.Move(t, Done))]
  }

  /** A published outcome of a payment. */
  predicate IsOutcome(trace: seq<P.Effect>, i: nat) {
    i < |trace| && trace[i].Published? && (trace[i].subject == P.SubjectSucceeded || trace[i].subject == P.SubjectFailed)
  }

  /** A delivered outcome of a stored order that is read and written without a fault leaves its row in
      the history, however its handling interleaves with everything else: paid for a success, and
      payment_failed with the message's reason for a failure, from the status that was read. */
  lemma HandledOutcomeIsRecorded(
      actions: seq<Action>, i: nat, t: nat, first: seq<Action>, second: seq<Action>)
    returns (row: O.HistoryRow)
    requires IsOutcome(Run(actions).pay.db.trace, i) && t !in Run(actions).ord.calls
    requires Run(actions).pay.db.trace[i].event.orderId in Run(actions).ord.store.orders
    requires LeavesAlone(t, first) && LeavesAlone(t, second)
    ensures row in Run(Handled(actions, i, t, first, second)).ord.store.history
    ensures var f := Run(actions).pay.db.trace[i];
            var orders := Run(actions + [Deliver(i, t)] + first).ord.store.orders;
            && f.event.orderId in orders
            && row == (if f.subject == P.SubjectSucceeded then
                         O.HistoryRow(f.event.orderId, Some(orders[f.event.orderId].status), O.Paid, "payment.succeeded")
                       else
                         O.HistoryRow(f.event.orderId, Some(orders[f.event.orderId].status), O.PaymentFailed, f.event.reason))
  {
    var f := Run(actions).pay.db.trace[i];
    var id := f.event.orderId;
    var goal := if f.subject == P.SubjectSucceeded then O.PaymentSucceeded else O.PaymentFailing(f.event.reason);
    var a1 := actions + [Deliver(i, t)];
    DeliveryReads(actions, i, t, goal);
    Waits(a1, first, t);
    Grows(a1, first);
    var a2 := a1 + first + [Client(O.Move(t, Done))];
    ReadMoves(a1 + first, t, id, goal);
    var from := Run(a1 + first).ord.store.orders[id].status;
    Waits(a2, second, t);
    Grows(a2, second);
    UpdateMoves(a2 + second, t, id, from, O.Target(goal), O.ReasonOf(goal));
    row := O.HistoryRow(id, Some(from), O.Target(goal), O.ReasonOf(goal));
  }

  /** So in a calm run the order is at that outcome from then on. */
  lemma HandledOutcomeSettles(actions: seq<Action>, i: nat, t: nat, first: seq<Action>, second: seq<Action>,
                              more: seq<Action>, paymentId: string)
    requires IsOutcome(Run(actions).pay.db.trace, i) && t !in Run(actions).ord.calls
    requires Run(actions).pay.db.trace[i].event.orderId in Run(actions).ord.store.orders
    requires LeavesAlone(t, first) && LeavesAlone(t, second)
    requires Calm(Handled(actions, i, t, first, second) + more, Run(actions).pay.db.trace[i].event.orderId, paymentId)
    ensures var f := Run(actions).pay.db.trace[i];
            var orders := Run(Handled(actions, i, t, first, second) + more).ord.store.orders;
            f.event.orderId in orders &&
            orders[f.event.orderId].status == if f.subject == P.SubjectSucceeded then O.Paid else O.PaymentFailed
  {
    var handled := Handled(actions, i, t, first, second);
    var row := HandledOutcomeIsRecorded(actions, i, t, first, second);
    Grows(handled, more);
    RecordedOutcomeStays(handled + more, row, paymentId);
  }

  /** With an honest provider, the reason that a failure's message brings is that of a payment of the
      order that was written as failed, and there is one. */
  lemma FailureMessageGivesReason(actions: seq<Action>, i: nat) returns (p: PT.Payment)
    requires PI.HonestRun(PaySide(actions))
    requires IsOutcome(Run(actions).pay.db.trace, i) && Run(actions).pay.db.trace[i].subject == P.SubjectFailed
    ensures var trace, e := Run(actions).pay.db.trace, Run(actions).pay.db.trace[i].event;
            && P.Updated(p) in trace[..i] && p.status == PT.Failed
            && p.id == e.paymentId && p.checkout.orderId == e.orderId
            && e.reason == p.failureReason != ""
  {
    SidesAreRuns(actions);
    PI.Interleaving(PaySide(actions));
    PI.RowsAreLawful(PaySide(actions));
    PR.EveryEffectIsReported(PaySide(actions));
    var db := Run(actions).pay.db;
    assert PR.Reported(db.trace[..i], db.trace[i]) && PI.EffectOk(db.rows, db.trace[i]);
    var j :| 0 <= j < i && db.trace[j] == P.Appended(db.trace[i].event);
    p := EventHasWrite(db, j);
    PR.NoticeGivesItsReason(p);
  }

  lemma EventHasWrite(db: P.Db, j: nat) returns (p: PT.Payment)
    requires PR.AllReported(db.trace) && PI.TraceOk(db) && PI.WritesLawful(db.trace)
    requires j < |db.trace| && db.trace[j].Appended? && db.trace[j].event.status == PT.Failed
    ensures P.Updated(p) in db.trace[..j] && PR.NoticeOf(p) == db.trace[j].event && PI.Lawful(p)
  {
    assert PR.Reported(db.trace[..j], db.trace[j]);
    p :| PR.Wrote(db.trace[..j], p) && PR.NoticeOf(p) == db.trace[j].event;
    var k :| 0 <= k < j && (db.trace[k] == P.Inserted(p) || db.trace[k] == P.Updated(p));
    assert PI.EffectOk(db.rows, db.trace[k]);
  }

  lemma RecordedOutcomeStays(actions: seq<Action>, row: O.HistoryRow, paymentId: string)
    requires Calm(actions, row.orderId, paymentId) && row in Run(actions).ord.store.history && row.from.Some?
    ensures var orders := Run(actions).ord.store.orders;
            row.orderId in orders && orders[row.orderId].status == row.to
  {
    SidesAreRuns(actions);
    OH.HistoryAccountsForStatus(OrderSide(actions), row.orderId);
    var h := OH.HistoryOf(Run(actions).ord.store.history, row.orderId);
    RowIsOfOrder(Run(actions).ord.store.history, row);
    OrderSettlesAtOutcome(actions, row.orderId, paymentId);
    var k :| 0 <= k < |h| && h[k] == row;
  }
}
