/** The status history accounts for every order's status. */
module OrderHistory {
  import opened Prelude
  import opened OrderProtocol

  function HistoryOf(history: seq<HistoryRow>, id: string): seq<HistoryRow> {
    if history == [] then []
    else
      var rest, row := HistoryOf(history[..|history| - 1], id), history[|history| - 1];
      if row.orderId == id then rest + [row] else rest
  }

  ghost predicate Visited(h: seq<HistoryRow>, s: Status) {
    exists i | 0 <= i < |h| :: h[i].to == s
  }

  // ---- In every schedule ---------------------------------------------------------------------

  /** A history begins with the creation, and each later row leaves a status already entered. */
  ghost predicate Accounted(h: seq<HistoryRow>) {
    && h != [] && h[0].from == None && h[0].to == Created
    && forall i | 0 < i < |h| :: h[i].from.Some? && Visited(h[..i], h[i].from.value)
  }

  ghost predicate CallOk(h: seq<HistoryRow>, call: Call, id: string) {
    match call
    case Inserting(order) => order.status.Created?
    case Updating(of, from, _, _) => of == id ==> Visited(h, from)
    case Caching(order) => order.id == id ==> Visited(h, order.status)
    case _ => true
  }

  ghost predicate StoreInv(s: Store, id: string) {
    var h := HistoryOf(s.history, id);
    && (forall of | of in s.orders :: s.orders[of].id == of)
    && (if id in s.orders then Accounted(h) && h[|h| - 1].to == s.orders[id].status else h == [])
    && (id in s.cache ==> Visited(h, s.cache[id]))
  }

  ghost predicate HistoryInv(s: Sys, id: string) {
    StoreInv(s.store, id) && forall t | t in s.calls :: CallOk(HistoryOf(s.store.history, id), s.calls[t], id)
  }

  lemma VisitedStays(h: seq<HistoryRow>, row: HistoryRow, s: Status)
    requires Visited(h, s)
    ensures Visited(h + [row], s)
  {
    var i :| 0 <= i < |h| && h[i].to == s;
    assert (h + [row])[i].to == s;
  }

  lemma AccountedAppend(h: seq<HistoryRow>, row: HistoryRow)
    requires Accounted(h) && row.from.Some? && Visited(h, row.from.value)
    ensures Accounted(h + [row])
  {
    var more := h + [row];
    forall i | 0 < i < |more| ensures more[i].from.Some? && Visited(more[..i], more[i].from.value) {
      assert more[..i] == if i < |h| then h[..i] else h;
    }
  }

  /** The call's next step commits a transaction on the order, and this is its history row. */
  predicate Commits(s: Store, call: Call, o: Outcome, id: string) {
    !o.Lost? &&
    ((call.Inserting? && call.order.id == id && Insertable(s.orders, call.order)) ||
     (call.Updating? && call.id == id && id in s.orders))
  }

  function RowOf(call: Call): HistoryRow
    requires call.Inserting? || call.Updating?
  {
    if call.Inserting? then HistoryRow(call.order.id, None, call.order.status, "order created")
    else HistoryRow(call.id, Some(call.from), call.to, call.reason)
  }

  /** An order and its history change together, in one transaction, or not at all. */
  lemma AdvanceHistory(s: Store, call: Call, o: Outcome, id: string)
    ensures var after := Advance(s, call, o).0;
            var h, h' := HistoryOf(s.history, id), HistoryOf(after.history, id);
            if Commits(s, call, o, id) then
              h' == h + [RowOf(call)] && id in after.orders && after.orders[id].status == RowOf(call).to
            else
              && h' == h && (id in after.orders <==> id in s.orders)
              && (id in s.orders ==> after.orders[id] == s.orders[id])
  {
  }

  lemma CallStays(h: seq<HistoryRow>, row: HistoryRow, call: Call, id: string)
    requires CallOk(h, call, id)
    ensures CallOk(h + [row], call, id)
  {
    if call.Updating? && call.id == id { VisitedStays(h, row, call.from); }
    if call.Caching? && call.order.id == id { VisitedStays(h, row, call.order.status); }
  }

  lemma CommitStep(s: Store, call: Call, o: Outcome, id: string)
    requires StoreInv(s, id) && CallOk(HistoryOf(s.history, id), call, id) && Commits(s, call, o, id)
    ensures var (after, next) := Advance(s, call, o);
            StoreInv(after, id) && CallOk(HistoryOf(after.history, id), next, id)
  {
    var h, row := HistoryOf(s.history, id), RowOf(call);
    AdvanceHistory(s, call, o, id);
    if call.Updating? { AccountedAppend(h, row); }
    assert (h + [row])[|h|].to == row.to;
    assert Visited(h + [row], row.to);
    if id in s.cache { VisitedStays(h, row, s.cache[id]); }
  }

  lemma OtherStep(s: Store, call: Call, o: Outcome, id: string)
    requires StoreInv(s, id) && CallOk(HistoryOf(s.history, id), call, id) && !Commits(s, call, o, id)
    ensures var (after, next) := Advance(s, call, o);
            StoreInv(after, id) && CallOk(HistoryOf(after.history, id), next, id)
  {
    var h := HistoryOf(s.history, id);
    AdvanceHistory(s, call, o, id);
    if call.Reading? && call.id == id && id in s.orders {
      assert h[|h| - 1].to == s.orders[id].status;
    }
  }

  lemma OwnStep(s: Store, call: Call, o: Outcome, id: string)
    requires StoreInv(s, id) && CallOk(HistoryOf(s.history, id), call, id)
    ensures var (after, next) := Advance(s, call, o);
            StoreInv(after, id) && CallOk(HistoryOf(after.history, id), next, id)
  {
    if Commits(s, call, o, id) { CommitStep(s, call, o, id); } else { OtherStep(s, call, o, id); }
  }

  lemma OthersStay(s: Store, call: Call, o: Outcome, other: Call, id: string)
    requires CallOk(HistoryOf(s.history, id), other, id)
    ensures CallOk(HistoryOf(Advance(s, call, o).0.history, id), other, id)
  {
    AdvanceHistory(s, call, o, id);
    if Commits(s, call, o, id) { CallStays(HistoryOf(s.history, id), RowOf(call), other, id); }
  }

  lemma HistoryMove(s: Sys, t: nat, o: Outcome, id: string)
    requires HistoryInv(s, id) && t in s.calls
    ensures HistoryInv(Step(s, Move(t, o)), id)
  {
    OwnStep(s.store, s.calls[t], o, id);
    var s' := Step(s, Move(t, o));
    forall u | u in s'.calls ensures CallOk(HistoryOf(s'.store.history, id), s'.calls[u], id) {
      if u != t { OthersStay(s.store, s.calls[t], o, s.calls[u], id); }
    }
  }

  /** However calls interleave and fail: an order's history begins with its creation, its last row
      enters the order's status, each row leaves a status entered before, and a cached status is one
      the order has had. */
  lemma {:induction false} HistoryAccountsForStatus(actions: seq<Action>, id: string)
    ensures HistoryInv(Run(actions), id)
  {
    if actions != [] {
      var n := |actions| - 1;
      HistoryAccountsForStatus(actions[..n], id);
      var s, a := Run(actions[..n]), actions[n];
      if a.Move? && a.t in s.calls { HistoryMove(s, a.t, a.outcome, id); }
    }
  }

  // ---- When calls on the order do not overlap ------------------------------------------------

  /** Replays a history strictly: each row must leave the status the previous one entered. */
  function Replay(h: seq<HistoryRow>): Result<Option<Status>, HistoryRow> {
    if h == [] then Ok(None)
    else
      match Replay(h[..|h| - 1])
      case Err(row) => Err(row)
      case Ok(at) =>
        var row := h[|h| - 1];
        if row.from == at then Ok(Some(row.to)) else Err(row)
  }

  predicate Updates(call: Call, id: string) {
    call.Updating? && call.id == id
  }

  /** At most one call has read the order's status and has still to change it. */
  ghost predicate OneUpdate(s: Sys, id: string) {
    forall t, u | t in s.calls && u in s.calls && Updates(s.calls[t], id) && Updates(s.calls[u], id) :: t == u
  }

  ghost predicate Serial(actions: seq<Action>, id: string) {
    actions == [] || (Serial(actions[..|actions| - 1], id) && OneUpdate(Run(actions), id))
  }

  ghost predicate ReplayInv(s: Sys, id: string) {
    && Replay(HistoryOf(s.store.history, id)) ==
       Ok(if id in s.store.orders then Some(s.store.orders[id].status) else None)
    && forall t | t in s.calls && Updates(s.calls[t], id) ::
         id in s.store.orders && s.calls[t].from == s.store.orders[id].status
  }

  lemma ReplayMove(s: Sys, t: nat, o: Outcome, id: string)
    requires HistoryInv(s, id) && ReplayInv(s, id) && t in s.calls && OneUpdate(s, id)
    ensures ReplayInv(Step(s, Move(t, o)), id)
  {
    var call := s.calls[t];
    var (after, next) := Advance(s.store, call, o);
    var h := HistoryOf(s.store.history, id);
    AdvanceHistory(s.store, call, o, id);
    var s' := Step(s, Move(t, o));
    assert s' == Sys(after, s.calls[t := next]);
    if Commits(s.store, call, o, id) {
      assert (h + [RowOf(call)])[..|h|] == h;
      forall u | u in s'.calls ensures !Updates(s'.calls[u], id) {
        if u != t && Updates(s.calls[u], id) { assert Updates(call, id); }
      }
    }
  }

  /** Serialised calls leave a history that replays, row by row, to the order's status. */
  lemma {:induction false} SerialHistoryReplays(actions: seq<Action>, id: string)
    requires Serial(actions, id)
    ensures ReplayInv(Run(actions), id) && OneUpdate(Run(actions), id)
  {
    if actions != [] {
      var n := |actions| - 1;
      SerialHistoryReplays(actions[..n], id);
      HistoryAccountsForStatus(actions[..n], id);
      var s, a := Run(actions[..n]), actions[n];
      if a.Move? && a.t in s.calls { ReplayMove(s, a.t, a.outcome, id); }
    }
  }
}
