/** What holds of one payment when the calls that hold a copy of it do not overlap; calls on every
    other payment are scheduled freely, and any remote call may fail. */
module PaymentSerial {
  import opened Prelude
  import opened PaymentTypes
  import opened PaymentProtocol
  import opened PaymentInterleaving

  // ---- The five logs of one payment ----------------------------------------------------------

  datatype Log = WriteLog | EventLog | RefundLog | MessageLog | MailLog

  function StatusOfMail(k: MailKind): Status {
    match k
    case Receipt => Succeeded
    case RefundNote => Refunded
    case FailureNote => Failed
  }

  /** The status that an effect shows in a log of a payment, if it belongs there. */
  function Shows(f: Effect, log: Log, id: string): Option<Status> {
    match f
    case Inserted(p) => if log.WriteLog? && p.id == id then Some(p.status) else None
    case Updated(p) => if log.WriteLog? && p.id == id then Some(p.status) else None
    case Appended(e) => if log.EventLog? && e.paymentId == id then Some(e.status) else None
    case RefundRow(of, _, _) => if log.RefundLog? && of == id then Some(Refunded) else None
    case Published(_, e) => if log.MessageLog? && e.paymentId == id then Some(e.status) else None
    case Mailed(m) => if log.MailLog? && m.paymentId == id then Some(StatusOfMail(m.kind)) else None
    case Charged(_, _) => None
  }

  function Seen(trace: seq<Effect>, log: Log, id: string): seq<Status> {
    if trace == [] then []
    else
      var rest := Seen(trace[..|trace| - 1], log, id);
      match Shows(trace[|trace| - 1], log, id)
      case None => rest
      case Some(s) => rest + [s]
  }

  datatype View = View(writes: seq<Status>, events: seq<Status>, refunds: seq<Status>,
                       messages: seq<Status>, mails: seq<Status>)

  function ViewOf(trace: seq<Effect>, id: string): View {
    View(Seen(trace, WriteLog, id), Seen(trace, EventLog, id), Seen(trace, RefundLog, id),
         Seen(trace, MessageLog, id), Seen(trace, MailLog, id))
  }

  function Entry(f: Effect, log: Log, id: string): seq<Status> {
    match Shows(f, log, id) case None => [] case Some(s) => [s]
  }

  function Note(v: View, f: Effect, id: string): View {
    View(v.writes + Entry(f, WriteLog, id), v.events + Entry(f, EventLog, id), v.refunds + Entry(f, RefundLog, id),
         v.messages + Entry(f, MessageLog, id), v.mails + Entry(f, MailLog, id))
  }

  lemma ViewOfEmit(trace: seq<Effect>, f: Effect, id: string)
    ensures ViewOf(trace + [f], id) == Note(ViewOf(trace, id), f, id)
  {
  }

  // ---- Journeys and subsequences -------------------------------------------------------------

  predicate Follows(from: Status, to: Status) {
    match from
    case Pending => to.Succeeded? || to.Failed? || to.Cancelled?
    case Succeeded => to.Refunded? || to.Cancelled?
    case Failed => to.Cancelled?
    case _ => false
  }

  function Rank(s: Status): nat {
    match s
    case Pending => 0
    case Succeeded => 1
    case Failed => 1
    case Refunded => 2
    case Cancelled => 2
  }

  ghost predicate Journey(w: seq<Status>) {
    w != [] && w[0].Pending? && forall i | 0 < i < |w| :: Follows(w[i - 1], w[i])
  }

  ghost predicate Climbs(w: seq<Status>) {
    forall i, j | 0 <= i < j < |w| :: Rank(w[i]) < Rank(w[j])
  }

  lemma {:induction false} JourneysClimb(w: seq<Status>)
    requires Journey(w)
    ensures Climbs(w) && |w| <= Rank(w[|w| - 1]) + 1 <= 3
  {
    if |w| > 1 {
      var n := |w| - 1;
      JourneysClimb(w[..n]);
      assert Follows(w[n - 1], w[n]);
    }
  }

  /** a is b with some elements left out. */
  predicate Within<T(==)>(a: seq<T>, b: seq<T>) {
    a == [] ||
    (b != [] && ((a[|a| - 1] == b[|b| - 1] && Within(a[..|a| - 1], b[..|b| - 1])) || Within(a, b[..|b| - 1])))
  }

  lemma {:induction false} WithinTransitive<T>(a: seq<T>, b: seq<T>, c: seq<T>)
    requires Within(a, b) && Within(b, c)
    ensures Within(a, c)
    decreases |b| + |c|
  {
    if a != [] {
      var b', c' := b[..|b| - 1], c[..|c| - 1];
      if b[|b| - 1] == c[|c| - 1] && Within(b', c') {
        if a[|a| - 1] == b[|b| - 1] && Within(a[..|a| - 1], b') {
          WithinTransitive(a[..|a| - 1], b', c');
        } else {
          WithinTransitive(a, b', c');
        }
      } else {
        WithinTransitive(a, b, c');
      }
    }
  }

  lemma {:induction false} WithinClimbs(a: seq<Status>, b: seq<Status>)
    requires Within(a, b) && Climbs(b)
    ensures Climbs(a) && forall s | s in a :: s in b
  {
    if a != [] {
      var b' := b[..|b| - 1];
      if a[|a| - 1] == b[|b| - 1] && Within(a[..|a| - 1], b') {
        var a' := a[..|a| - 1];
        WithinClimbs(a', b');
        assert a == a' + [a[|a| - 1]];
        forall i | 0 <= i < |a'| ensures Rank(a'[i]) < Rank(a[|a| - 1]) { assert a'[i] in b'; }
      } else {
        WithinClimbs(a, b');
      }
    }
  }

  function Due(s: seq<Status>, wanted: set<Status>): seq<Status> {
    if s == [] then []
    else
      var last := s[|s| - 1];
      if last in wanted then Due(s[..|s| - 1], wanted) + [last] else Due(s[..|s| - 1], wanted)
  }

  function MailsDue(messages: seq<Status>): seq<Status> { Due(messages, {Succeeded, Failed, Refunded}) }

  function RefundsDue(events: seq<Status>): seq<Status> { Due(events, {Refunded}) }

  lemma {:induction false} DueWithin(s: seq<Status>, wanted: set<Status>)
    ensures Within(Due(s, wanted), s)
  {
    if s != [] {
      DueWithin(s[..|s| - 1], wanted);
      var d := Due(s[..|s| - 1], wanted);
      assert (d + [s[|s| - 1]])[..|d|] == d;
    }
  }

  // ---- The invariant -------------------------------------------------------------------------

  /** A log has caught up with what it should show: exactly in a run without faults, as a
      subsequence otherwise. */
  ghost predicate Matches(exact: bool, log: seq<Status>, full: seq<Status>) {
    if exact then log == full else Within(log, full)
  }

  /** A log has caught up with all but the last element, which is s. */
  ghost predicate Owes(exact: bool, log: seq<Status>, full: seq<Status>, s: Status) {
    full != [] && full[|full| - 1] == s && Matches(exact, log, full[..|full| - 1])
  }

  lemma Pay(exact: bool, log: seq<Status>, full: seq<Status>, s: Status)
    requires Owes(exact, log, full, s)
    ensures Matches(exact, log + [s], full)
    ensures !exact ==> Matches(exact, log, full)
  {
  }

  lemma Owe(exact: bool, log: seq<Status>, full: seq<Status>, s: Status)
    requires Matches(exact, log, full)
    ensures Owes(exact, log, full + [s], s)
  {
  }

  ghost predicate Chain(exact: bool, v: View) {
    && Matches(exact, v.events, v.writes)
    && Matches(exact, v.refunds, RefundsDue(v.events))
    && Matches(exact, v.messages, v.events)
    && Matches(exact, v.mails, MailsDue(v.messages))
  }

  /** The logs while a call holds the payment: which of them still owes the latest status. */
  ghost predicate StageInv(exact: bool, v: View, stage: Stage, s: Status) {
    && (if stage == Writing then v.writes != [] && Follows(v.writes[|v.writes| - 1], s)
        else v.writes != [] && v.writes[|v.writes| - 1] == s)
    && (if stage == Saving || stage == Appending then Owes(exact, v.events, v.writes, s)
        else Matches(exact, v.events, v.writes))
    && (if stage == AppendingRefund then Owes(exact, v.refunds, RefundsDue(v.events), Refunded)
        else Matches(exact, v.refunds, RefundsDue(v.events)))
    && (if stage == AppendingRefund || stage == Publishing then Owes(exact, v.messages, v.events, s)
        else Matches(exact, v.messages, v.events))
    && (if stage == Mailing then Owes(exact, v.mails, MailsDue(v.messages), s)
        else Matches(exact, v.mails, MailsDue(v.messages)))
  }

  predicate Holds(call: Call, id: string) {
    call.Holding? && call.p.id == id
  }

  ghost predicate Free(s: Sys, id: string) {
    forall t | t in s.calls :: !Holds(s.calls[t], id)
  }

  ghost predicate OneHolder(s: Sys, id: string) {
    forall t, u | t in s.calls && u in s.calls && Holds(s.calls[t], id) && Holds(s.calls[u], id) :: t == u
  }

  /** What is known of a payment's row and writes. */
  ghost predicate RowInv(db: Db, id: string) {
    id in db.rows &&
    var w := Seen(db.trace, WriteLog, id);
    Journey(w) && w[|w| - 1] == db.rows[id].status
  }

  ghost predicate HoldersInv(s: Sys, v: View, id: string, exact: bool) {
    && (forall t | t in s.calls && Holds(s.calls[t], id) :: StageInv(exact, v, s.calls[t].stage, s.calls[t].p.status))
    && (Free(s, id) ==> Chain(exact, v))
  }

  const UNBORN := View([], [], [], [], [])

  ghost predicate SerialInv(s: Sys, id: string, exact: bool) {
    if id in s.db.rows then RowInv(s.db, id) && HoldersInv(s, ViewOf(s.db.trace, id), id, exact)
    else ViewOf(s.db.trace, id) == UNBORN && Free(s, id)
  }

  // ---- Every action keeps it -----------------------------------------------------------------

  lemma AbandonKeepsChain(v: View, stage: Stage, s: Status)
    requires StageInv(false, v, stage, s)
    ensures Chain(false, v)
  {
  }

  /** What a stage adds to the logs. */
  function Entered(v: View, stage: Stage, s: Status): View {
    match stage
    case Writing => v.(writes := v.writes + [s])
    case Appending => v.(events := v.events + [s])
    case AppendingRefund => v.(refunds := v.refunds + [s])
    case Publishing => v.(messages := v.messages + [s])
    case Mailing => v.(mails := v.mails + [s])
    case _ => v
  }

  ghost predicate AfterStage(exact: bool, v: View, stage: Stage, s: Status) {
    match stage
    case Writing => StageInv(exact, v, Appending, s)
    case Saving => StageInv(exact, v, Appending, s)
    case Appending => StageInv(exact, v, if s.Refunded? then AppendingRefund else Publishing, s)
    case AppendingRefund => StageInv(exact, v, Publishing, s)
    case Publishing =>
      if s.Pending? then StageInv(exact, v, Charging, s)
      else if Mailable(s) then StageInv(exact, v, Mailing, s) else Chain(exact, v)
    case Charging => Chain(exact, v)
    case Mailing => Chain(exact, v)
  }

  lemma AppendingEffect(exact: bool, v: View, s: Status)
    requires StageInv(exact, v, Appending, s)
    ensures AfterStage(exact, Entered(v, Appending, s), Appending, s)
  {
  }

  lemma PublishingEffect(exact: bool, v: View, s: Status)
    requires StageInv(exact, v, Publishing, s)
    ensures AfterStage(exact, Entered(v, Publishing, s), Publishing, s)
  {
  }

  lemma StageEffect(exact: bool, v: View, stage: Stage, s: Status)
    requires StageInv(exact, v, stage, s) && StageOk(stage, s)
    ensures AfterStage(exact, Entered(v, stage, s), stage, s)
  {
    match stage
    case Writing => Owe(exact, v.events, v.writes, s);
    case Appending => AppendingEffect(exact, v, s);
    case AppendingRefund => Pay(exact, v.refunds, RefundsDue(v.events), s);
    case Publishing => PublishingEffect(exact, v, s);
    case Mailing => Pay(exact, v.mails, MailsDue(v.messages), s);
    case _ =>
  }

  /** The effect a stage leaves when it is not lost. */
  function Leaves(db: Db, stage: Stage, p: Payment, e: Event, r: ChargeResult): seq<Effect>
    requires p.id in db.rows && StageOk(stage, p.status)
  {
    match stage
    case Saving => []
    case Appending => [Appended(e)]
    case AppendingRefund => [RefundRow(e.paymentId, e.reason, e.amount)]
    case Publishing => [Published(SubjectOf(e.status), e)]
    case Charging => [Charged(p, r)]
    case Writing => [Updated(Overwrite(db.rows[p.id], p))]
    case Mailing => [Mailed(MailFor(p))]
  }

  lemma LeavesTrace(db: Db, stage: Stage, p: Payment, e: Event, c: Choice)
    requires CallOk(db.rows, Holding(stage, p, e))
    ensures AdvanceHolding(db, stage, p, e, c).0.trace ==
            db.trace + if c.outcome.Lost? then [] else Leaves(db, stage, p, e, c.charge)
  {
  }

  lemma NoteIsEntered(db: Db, v: View, stage: Stage, p: Payment, e: Event, r: ChargeResult, id: string)
    requires RowsOk(db.rows) && CallOk(db.rows, Holding(stage, p, e)) && Leaves(db, stage, p, e, r) != []
    ensures Note(v, Leaves(db, stage, p, e, r)[0], id) == if p.id == id then Entered(v, stage, p.status) else v
  {
  }

  lemma NoLeavesNoEntry(db: Db, v: View, stage: Stage, p: Payment, e: Event, r: ChargeResult)
    requires p.id in db.rows && StageOk(stage, p.status) && Leaves(db, stage, p, e, r) == []
    ensures Entered(v, stage, p.status) == v
  {
  }

  /** A holder's remote call writes the holder's next status into its own log, or nothing. */
  lemma HolderTrace(db: Db, stage: Stage, p: Payment, e: Event, c: Choice, id: string)
    requires RowsOk(db.rows) && CallOk(db.rows, Holding(stage, p, e))
    ensures var after := AdvanceHolding(db, stage, p, e, c).0;
            ViewOf(after.trace, id) ==
            if p.id == id && !c.outcome.Lost? then Entered(ViewOf(db.trace, id), stage, p.status)
            else ViewOf(db.trace, id)
  {
    LeavesTrace(db, stage, p, e, c);
    var left := Leaves(db, stage, p, e, c.charge);
    if c.outcome.Lost? || left == [] {
      assert db.trace + [] == db.trace;
      if left == [] { NoLeavesNoEntry(db, ViewOf(db.trace, id), stage, p, e, c.charge); }
    } else {
      assert left == [left[0]];
      ViewOfEmit(db.trace, left[0], id);
      NoteIsEntered(db, ViewOf(db.trace, id), stage, p, e, c.charge, id);
    }
  }

  lemma HolderStatus(db: Db, stage: Stage, p: Payment, e: Event, c: Choice)
    requires p.id in db.rows
    ensures var rows := AdvanceHolding(db, stage, p, e, c).0.rows;
            p.id in rows &&
            rows[p.id].status == if stage.Writing? && !c.outcome.Lost? then p.status else db.rows[p.id].status
  {
  }

  lemma JourneyAppend(w: seq<Status>, s: Status)
    requires Journey(w) && Follows(w[|w| - 1], s)
    ensures Journey(w + [s])
  {
  }

  lemma HolderRow(db: Db, stage: Stage, p: Payment, e: Event, c: Choice, exact: bool)
    requires RowsOk(db.rows) && CallOk(db.rows, Holding(stage, p, e)) && RowInv(db, p.id)
    requires StageInv(exact, ViewOf(db.trace, p.id), stage, p.status)
    ensures RowInv(AdvanceHolding(db, stage, p, e, c).0, p.id)
  {
    HolderTrace(db, stage, p, e, c, p.id);
    HolderStatus(db, stage, p, e, c);
    var w := ViewOf(db.trace, p.id).writes;
    var after := AdvanceHolding(db, stage, p, e, c).0;
    assert Seen(after.trace, WriteLog, p.id) == ViewOf(after.trace, p.id).writes;
    if stage.Writing? { JourneyAppend(w, p.status); }
  }

  lemma HolderStage(db: Db, stage: Stage, p: Payment, e: Event, c: Choice, exact: bool)
    requires RowsOk(db.rows) && CallOk(db.rows, Holding(stage, p, e))
    requires StageInv(exact, ViewOf(db.trace, p.id), stage, p.status)
    requires exact ==> c.outcome.Done?
    ensures var (after, next) := AdvanceHolding(db, stage, p, e, c);
            var v := ViewOf(after.trace, p.id);
            if next.Holding? then next.p.id == p.id && StageInv(exact, v, next.stage, next.p.status)
            else Chain(exact, v)
  {
    HolderTrace(db, stage, p, e, c, p.id);
    var v := ViewOf(db.trace, p.id);
    StageEffect(exact, v, stage, p.status);
    if c.outcome.Lost? {
      AbandonKeepsChain(v, stage, p.status);
    } else if c.outcome.Unacked? {
      var next := AdvanceHolding(db, stage, p, e, c.(outcome := Done)).1;
      if next.Holding? && !stage.Charging? {
        AbandonKeepsChain(Entered(v, stage, p.status), next.stage, p.status);
      }
    }
  }

  lemma HolderAside(db: Db, stage: Stage, p: Payment, e: Event, c: Choice, id: string)
    requires RowsOk(db.rows) && CallOk(db.rows, Holding(stage, p, e)) && p.id != id
    ensures var after := AdvanceHolding(db, stage, p, e, c).0;
            && ViewOf(after.trace, id) == ViewOf(db.trace, id)
            && (id in after.rows <==> id in db.rows) && (id in db.rows ==> after.rows[id] == db.rows[id])
  {
    HolderTrace(db, stage, p, e, c, id);
  }

  lemma InsertAside(db: Db, input: Checkout, c: Choice, id: string)
    requires c.id != id
    ensures var after := Advance(db, Insert(input), c).0;
            && ViewOf(after.trace, id) == ViewOf(db.trace, id)
            && (id in after.rows <==> id in db.rows) && (id in db.rows ==> after.rows[id] == db.rows[id])
  {
    ViewOfEmit(db.trace, Inserted(NewPayment(c.id, input)), id);
  }

  lemma InsertAgain(db: Db, input: Checkout, c: Choice)
    requires c.id in db.rows
    ensures Advance(db, Insert(input), c).0 == db
  {
  }

  /** A call that does not hold the payment leaves its row and its logs alone, unless it creates it. */
  lemma OthersAside(db: Db, call: Call, c: Choice, id: string)
    requires RowsOk(db.rows) && CallOk(db.rows, call) && !Holds(call, id) && id in db.rows
    ensures var after := Advance(db, call, c).0;
            ViewOf(after.trace, id) == ViewOf(db.trace, id) && id in after.rows && after.rows[id] == db.rows[id]
  {
    match call
    case Holding(stage, p, e) => HolderAside(db, stage, p, e, c, id);
    case Insert(input) =>
      if c.id == id { InsertAgain(db, input, c); } else { InsertAside(db, input, c, id); }
    case _ =>
  }

  lemma HolderKeepsPayment(db: Db, stage: Stage, p: Payment, e: Event, c: Choice)
    ensures var next := AdvanceHolding(db, stage, p, e, c).1; next.Holding? ==> next.p.id == p.id
  {
  }

  /** A call that starts to hold a payment has just created it, or has read its row. */
  lemma NewHolder(db: Db, call: Call, c: Choice, id: string)
    requires RowsOk(db.rows) && CallOk(db.rows, call) && !Holds(call, id) && Holds(Advance(db, call, c).1, id)
    ensures var (after, next) := Advance(db, call, c);
            if id in db.rows then after == db && next.stage.Writing? && Follows(db.rows[id].status, next.p.status)
            else
              && after.trace == db.trace + [Inserted(next.p)] && after.rows == db.rows[id := next.p]
              && next.stage.Saving? && next.p.status.Pending?
  {
  }

  /** An absent payment stays out of every log until a call creates it. */
  lemma AbsentAside(db: Db, call: Call, c: Choice, id: string)
    requires RowsOk(db.rows) && CallOk(db.rows, call) && id !in db.rows
    ensures var (after, next) := Advance(db, call, c);
            if id !in after.rows then ViewOf(after.trace, id) == ViewOf(db.trace, id) && !Holds(next, id)
            else
              && ViewOf(after.trace, id) == Note(ViewOf(db.trace, id), Inserted(after.rows[id]), id)
              && after.rows[id].status.Pending?
              && (Holds(next, id) ==> next.stage.Saving? && next.p == after.rows[id])
              && (c.outcome.Done? ==> Holds(next, id))
  {
    match call
    case Holding(stage, p, e) =>
      HolderAside(db, stage, p, e, c, id);
      HolderKeepsPayment(db, stage, p, e, c);
    case Insert(input) =>
      if c.id == id { ViewOfEmit(db.trace, Inserted(NewPayment(c.id, input)), id); } else { InsertAside(db, input, c, id); }
    case _ =>
  }

  lemma HolderMove(s: Sys, t: nat, c: Choice, id: string, exact: bool)
    requires StoreInv(s) && SerialInv(s, id, exact) && OneHolder(s, id)
    requires t in s.calls && Holds(s.calls[t], id) && id in s.db.rows && (exact ==> c.outcome.Done?)
    ensures SerialInv(Step(s, Move(t, c)), id, exact)
  {
    var call := s.calls[t];
    var (after, next) := Advance(s.db, call, c);
    HolderRow(s.db, call.stage, call.p, call.e, c, exact);
    HolderStage(s.db, call.stage, call.p, call.e, c, exact);
    var s' := Step(s, Move(t, c));
    assert s' == Sys(after, s.calls[t := next]);
    forall u | u in s'.calls && Holds(s'.calls[u], id) ensures u == t {}
    if Free(s', id) { assert !Holds(s'.calls[t], id); }
  }

  lemma FreeBefore(s: Sys, t: nat, c: Choice, id: string)
    requires t in s.calls && !Holds(s.calls[t], id)
    requires var s' := Step(s, Move(t, c));
             Free(s', id) || (OneHolder(s', id) && Holds(s'.calls[t], id))
    ensures Free(s, id)
  {
    var s' := Step(s, Move(t, c));
    forall u | u in s.calls ensures !Holds(s.calls[u], id) { assert u == t || s'.calls[u] == s.calls[u]; }
  }

  lemma OtherMove(s: Sys, t: nat, c: Choice, id: string, exact: bool)
    requires StoreInv(s) && SerialInv(s, id, exact) && t in s.calls && !Holds(s.calls[t], id) && id in s.db.rows
    requires OneHolder(Step(s, Move(t, c)), id)
    ensures SerialInv(Step(s, Move(t, c)), id, exact)
  {
    var (after, next) := Advance(s.db, s.calls[t], c);
    OthersAside(s.db, s.calls[t], c, id);
    var s' := Step(s, Move(t, c));
    assert s' == Sys(after, s.calls[t := next]);
    if Free(s', id) { FreeBefore(s, t, c, id); }
    forall u | u in s'.calls && Holds(s'.calls[u], id)
      ensures StageInv(exact, ViewOf(after.trace, id), s'.calls[u].stage, s'.calls[u].p.status)
    {
      if u == t {
        FreeBefore(s, t, c, id);
        NewHolder(s.db, s.calls[t], c, id);
      } else {
        assert s'.calls[u] == s.calls[u];
      }
    }
  }

  lemma BornAlone(s: Sys, t: nat, id: string, exact: bool)
    requires t in s.calls && id in s.db.rows && s.db.rows[id].status.Pending?
    requires ViewOf(s.db.trace, id) == View([Pending], [], [], [], [])
    requires forall u | u in s.calls && Holds(s.calls[u], id) :: u == t
    requires Holds(s.calls[t], id) ==> s.calls[t].stage.Saving? && s.calls[t].p.status.Pending?
    requires exact ==> Holds(s.calls[t], id)
    ensures SerialInv(s, id, exact)
  {
  }

  lemma AloneAfter(s: Sys, t: nat, c: Choice, id: string)
    requires t in s.calls && Free(s, id)
    ensures var s' := Step(s, Move(t, c));
            forall u | u in s'.calls && Holds(s'.calls[u], id) :: u == t
  {
  }

  lemma AbsentMove(s: Sys, t: nat, c: Choice, id: string, exact: bool)
    requires StoreInv(s) && SerialInv(s, id, exact) && t in s.calls && id !in s.db.rows
    requires exact ==> c.outcome.Done?
    ensures SerialInv(Step(s, Move(t, c)), id, exact)
  {
    var (after, next) := Advance(s.db, s.calls[t], c);
    var s' := Step(s, Move(t, c));
    assert s' == Sys(after, s.calls[t := next]);
    AbsentAside(s.db, s.calls[t], c, id);
    AloneAfter(s, t, c, id);
    if id in after.rows {
      NoteBirth(after.rows[id], id);
      BornAlone(s', t, id, exact);
    } else {
      assert Free(s', id);
    }
  }

  lemma NoteBirth(p: Payment, id: string)
    requires p.id == id && p.status.Pending?
    ensures Note(UNBORN, Inserted(p), id) == View([Pending], [], [], [], [])
  {
  }

  lemma SerialStep(s: Sys, a: Action, id: string, exact: bool)
    requires StoreInv(s) && SerialInv(s, id, exact) && OneHolder(s, id) && OneHolder(Step(s, a), id)
    requires exact && a.Move? ==> a.choice.outcome.Done?
    ensures SerialInv(Step(s, a), id, exact)
  {
    if a.Move? && a.t in s.calls {
      if id !in s.db.rows { AbsentMove(s, a.t, a.choice, id, exact); }
      else if Holds(s.calls[a.t], id) { HolderMove(s, a.t, a.choice, id, exact); }
      else { OtherMove(s, a.t, a.choice, id, exact); }
    } else {
      BeginAside(s, a, id);
    }
  }

  lemma BeginAside(s: Sys, a: Action, id: string)
    requires !a.Move? || a.t !in s.calls
    ensures var s' := Step(s, a);
            && s'.db.rows == s.db.rows && s'.db.trace == s.db.trace && (Free(s', id) ==> Free(s, id))
            && (Free(s, id) ==> Free(s', id))
            && forall t | t in s'.calls && Holds(s'.calls[t], id) :: t in s.calls && s'.calls[t] == s.calls[t]
  {
    var s' := Step(s, a);
    if Free(s', id) {
      forall t | t in s.calls ensures !Holds(s.calls[t], id) { assert t in s'.calls && s'.calls[t] == s.calls[t]; }
    }
  }

  /** In no state of the schedule do two calls hold a copy of the payment. */
  ghost predicate Serial(actions: seq<Action>, id: string) {
    actions == [] || (Serial(actions[..|actions| - 1], id) && OneHolder(Run(actions), id))
  }

  predicate FaultFree(actions: seq<Action>) {
    forall a | a in actions && a.Move? :: a.choice.outcome.Done?
  }

  lemma {:induction false} Serialised(actions: seq<Action>, id: string, exact: bool)
    requires Serial(actions, id) && (exact ==> FaultFree(actions))
    ensures SerialInv(Run(actions), id, exact) && OneHolder(Run(actions), id)
  {
    if actions != [] {
      var n := |actions| - 1;
      assert forall a | a in actions[..n] :: a in actions;
      Serialised(actions[..n], id, exact);
      Interleaving(actions[..n]);
      assert actions[n] in actions;
      SerialStep(Run(actions[..n]), actions[n], id, exact);
    }
  }

  // ---- Main results --------------------------------------------------------------------------

  lemma LogsFollow(v: View, stage: Stage, s: Status)
    requires Chain(false, v) || StageInv(false, v, stage, s)
    ensures Within(v.events, v.writes) && Within(v.messages, v.events)
    ensures Within(v.mails, MailsDue(v.messages)) && Within(v.refunds, RefundsDue(v.events))
  {
  }

  lemma AllWithinWrites(v: View)
    requires Within(v.events, v.writes) && Within(v.messages, v.events)
    requires Within(v.mails, MailsDue(v.messages)) && Within(v.refunds, RefundsDue(v.events))
    ensures Within(v.mails, v.writes) && Within(v.refunds, v.writes)
  {
    DueWithin(v.messages, {Succeeded, Failed, Refunded});
    DueWithin(v.events, {Refunded});
    WithinTransitive(v.mails, MailsDue(v.messages), v.messages);
    WithinTransitive(v.mails, v.messages, v.events);
    WithinTransitive(v.mails, v.events, v.writes);
    WithinTransitive(v.refunds, RefundsDue(v.events), v.events);
    WithinTransitive(v.refunds, v.events, v.writes);
  }

  /** However its remote calls fail: the statuses written for a payment form a journey that climbs
      from pending, its events are some of those writes, its messages some of those events, its
      e-mails some of those messages and its refund rows some of those events, all in order. */
  lemma EffectsFollowWrites(actions: seq<Action>, id: string)
    requires Serial(actions, id) && id in Run(actions).db.rows
    ensures var v := ViewOf(Run(actions).db.trace, id);
            && Journey(v.writes) && Climbs(v.writes) && |v.writes| <= 3
            && v.writes[|v.writes| - 1] == Run(actions).db.rows[id].status
            && Within(v.events, v.writes) && Within(v.messages, v.events)
            && Within(v.mails, MailsDue(v.messages)) && Within(v.refunds, RefundsDue(v.events))
            && Within(v.mails, v.writes) && Within(v.refunds, v.writes)
  {
    Serialised(actions, id, false);
    var s := Run(actions);
    var v := ViewOf(s.db.trace, id);
    JourneysClimb(v.writes);
    if Free(s, id) {
      LogsFollow(v, Saving, Pending);
    } else {
      var t :| t in s.calls && Holds(s.calls[t], id);
      LogsFollow(v, s.calls[t].stage, s.calls[t].p.status);
    }
    AllWithinWrites(v);
  }

  lemma ClimbsApart(w: seq<Status>, a: Status, b: Status)
    requires Climbs(w) && a in w && b in w && Rank(a) == Rank(b)
    ensures a == b
  {
  }

  /** So no status is written, logged, published or mailed twice: one receipt, one refund row. */
  lemma NothingTwice(actions: seq<Action>, id: string, log: Log)
    requires Serial(actions, id)
    ensures Climbs(Seen(Run(actions).db.trace, log, id))
    ensures forall s | s in Seen(Run(actions).db.trace, log, id) :: s in Seen(Run(actions).db.trace, WriteLog, id)
  {
    var v := ViewOf(Run(actions).db.trace, id);
    if id in Run(actions).db.rows {
      EffectsFollowWrites(actions, id);
      WithinClimbs(v.events, v.writes);
      WithinClimbs(v.messages, v.events);
      DueWithin(v.messages, {Succeeded, Failed, Refunded});
      DueWithin(v.events, {Refunded});
      WithinClimbs(MailsDue(v.messages), v.messages);
      WithinClimbs(RefundsDue(v.events), v.events);
      WithinClimbs(v.mails, MailsDue(v.messages));
      WithinClimbs(v.refunds, RefundsDue(v.events));
    } else {
      Serialised(actions, id, false);
      assert Seen(Run(actions).db.trace, log, id) == [];
    }
  }

  /** Without faults, once no call holds the payment, every log is complete: each write has its
      event and message, each outcome its e-mail, and a refund its row. */
  lemma FaultFreeRunsAreComplete(actions: seq<Action>, id: string)
    requires Serial(actions, id) && FaultFree(actions)
    requires id in Run(actions).db.rows && Free(Run(actions), id)
    ensures var v := ViewOf(Run(actions).db.trace, id);
            && v.events == v.writes && v.messages == v.writes
            && v.mails == MailsDue(v.writes) && v.refunds == RefundsDue(v.writes)
            && Journey(v.writes) && v.writes[|v.writes| - 1] == Run(actions).db.rows[id].status
  {
    Serialised(actions, id, true);
  }
}
