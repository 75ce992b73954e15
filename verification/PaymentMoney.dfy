/** Conservation: what is refunded had succeeded. */
module PaymentMoney {
  import opened Prelude
  import opened PaymentTypes
  import opened PaymentProtocol
  import opened PaymentInterleaving
  import opened PaymentSerial

  function RefundTotal(trace: seq<Effect>): int {
    if trace == [] then 0
    else
      var f := trace[|trace| - 1];
      if f.RefundRow? then RefundTotal(trace[..|trace| - 1]) + f.amount else RefundTotal(trace[..|trace| - 1])
  }

  function RefundIds(trace: seq<Effect>): seq<string> {
    if trace == [] then []
    else
      var f := trace[|trace| - 1];
      if f.RefundRow? then RefundIds(trace[..|trace| - 1]) + [f.paymentId] else RefundIds(trace[..|trace| - 1])
  }

  function Amount(rows: map<string, Payment>, id: string): int {
    if id in rows then rows[id].checkout.amount else 0
  }

  function Total(rows: map<string, Payment>, ids: seq<string>): int {
    if ids == [] then 0 else Total(rows, ids[..|ids| - 1]) + Amount(rows, ids[|ids| - 1])
  }

  lemma {:induction false} TotalAppend(rows: map<string, Payment>, a: seq<string>, b: seq<string>)
    ensures Total(rows, a + b) == Total(rows, a) + Total(rows, b)
  {
    if b == [] {
      assert a + b == a;
    } else {
      TotalAppend(rows, a, b[..|b| - 1]);
      assert (a + b)[..|a + b| - 1] == a + b[..|b| - 1];
    }
  }

  lemma Without(rows: map<string, Payment>, b: seq<string>, k: nat)
    requires k < |b|
    ensures var rest := b[..k] + b[k + 1..];
            multiset(b) == multiset(rest) + multiset{b[k]} && Total(rows, b) == Total(rows, rest) + Amount(rows, b[k])
  {
    var l, r := b[..k], b[k + 1..];
    assert b == l + ([b[k]] + r);
    TotalAppend(rows, l, [b[k]] + r);
    TotalAppend(rows, [b[k]], r);
    TotalAppend(rows, l, r);
    assert Total(rows, [b[k]]) == Amount(rows, b[k]);
  }

  lemma {:induction false} TotalMonotone(rows: map<string, Payment>, a: seq<string>, b: seq<string>)
    requires RowsOk(rows) && multiset(a) <= multiset(b)
    ensures Total(rows, a) <= Total(rows, b)
    decreases |a| + |b|
  {
    if a != [] {
      var n := |a| - 1;
      assert a[n] in multiset(b) by { assert a[n] in multiset(a); }
      var k :| 0 <= k < |b| && b[k] == a[n];
      Without(rows, b, k);
      Without(rows, a, n);
      assert a[..n] + a[n + 1..] == a[..n];
      assert multiset(a[..n]) <= multiset(b[..k] + b[k + 1..]) by {
        forall y ensures multiset(a[..n])[y] <= multiset(b[..k] + b[k + 1..])[y] {
          assert multiset(a)[y] <= multiset(b)[y];
        }
      }
      TotalMonotone(rows, a[..n], b[..k] + b[k + 1..]);
    } else if b != [] {
      TotalMonotone(rows, [], b[..|b| - 1]);
      assert Amount(rows, b[|b| - 1]) >= 0;
    }
  }

  lemma {:induction false} RefundTotalIsOfRows(rows: map<string, Payment>, trace: seq<Effect>)
    requires forall i | 0 <= i < |trace| :: EffectOk(rows, trace[i])
    ensures RefundTotal(trace) == Total(rows, RefundIds(trace))
  {
    if trace != [] {
      var n := |trace| - 1;
      RefundTotalIsOfRows(rows, trace[..n]);
      assert EffectOk(rows, trace[n]);
      if trace[n].RefundRow? {
        var ids := RefundIds(trace[..n]);
        assert (ids + [trace[n].paymentId])[..|ids|] == ids;
      }
    }
  }

  /** The refund log of a payment is its share of the refunds table. */
  lemma {:induction false} RefundsOf(trace: seq<Effect>, id: string)
    ensures multiset(RefundIds(trace))[id] == |Seen(trace, RefundLog, id)|
    ensures forall s | s in Seen(trace, RefundLog, id) :: s == Refunded
  {
    if trace != [] {
      var n := |trace| - 1;
      RefundsOf(trace[..n], id);
      if trace[n].RefundRow? {
        assert multiset(RefundIds(trace)) == multiset(RefundIds(trace[..n])) + multiset{trace[n].paymentId};
      } else {
        assert Shows(trace[n], RefundLog, id) == None;
      }
    }
  }

  ghost predicate AllSerial(actions: seq<Action>) {
    forall id :: Serial(actions, id)
  }

  function ReachedSucceeded(db: Db): set<string> {
    set id | id in db.rows && Succeeded in Seen(db.trace, WriteLog, id)
  }

  function NowRefunded(db: Db): set<string> {
    set id | id in db.rows && db.rows[id].status == Refunded
  }

  lemma RefundedOnceAfterSuccess(actions: seq<Action>, id: string)
    requires Serial(actions, id)
    ensures var db := Run(actions).db; var r := Seen(db.trace, RefundLog, id);
            |r| <= if id in ReachedSucceeded(db) then 1 else 0
  {
    var db := Run(actions).db;
    var r := Seen(db.trace, RefundLog, id);
    if r != [] {
      NothingTwice(actions, id, RefundLog);
      RefundsOf(db.trace, id);
      Serialised(actions, id, false);
      var w := Seen(db.trace, WriteLog, id);
      assert ViewOf(db.trace, id).writes == w && ViewOf(db.trace, id).refunds == r;
      assert r[0] in r;
      var k :| 0 <= k < |w| && w[k] == Refunded;
      assert k > 0 && Follows(w[k - 1], w[k]);
      assert w[k - 1] in w;
    }
  }

  /** With calls on each payment serialised, whatever fails: the refunds table never totals more than
      the payments that reached succeeded. */
  lemma RefundsAreCovered(actions: seq<Action>, paid: seq<string>)
    requires AllSerial(actions)
    requires multiset(paid) == multiset(ReachedSucceeded(Run(actions).db))
    ensures RefundTotal(Run(actions).db.trace) <= Total(Run(actions).db.rows, paid)
  {
    var db := Run(actions).db;
    Interleaving(actions);
    RefundTotalIsOfRows(db.rows, db.trace);
    forall id ensures multiset(RefundIds(db.trace))[id] <= multiset(paid)[id] {
      RefundsOf(db.trace, id);
      assert Serial(actions, id);
      RefundedOnceAfterSuccess(actions, id);
    }
    TotalMonotone(db.rows, RefundIds(db.trace), paid);
  }

  lemma RefundRowIffRefunded(actions: seq<Action>, id: string)
    requires Serial(actions, id) && FaultFree(actions) && Free(Run(actions), id)
    ensures var db := Run(actions).db;
            |Seen(db.trace, RefundLog, id)| == if id in NowRefunded(db) then 1 else 0
  {
    var db := Run(actions).db;
    var r, w := Seen(db.trace, RefundLog, id), Seen(db.trace, WriteLog, id);
    if id in db.rows {
      FaultFreeRunsAreComplete(actions, id);
      var n := |w| - 1;
      assert RefundsDue(w[..n]) == [] by {
        JourneysClimb(w);
        NoRefundBelow(w[..n]);
      }
    } else {
      Serialised(actions, id, true);
      assert ViewOf(db.trace, id).refunds == r;
    }
  }

  lemma {:induction false} NoRefundBelow(w: seq<Status>)
    requires forall i | 0 <= i < |w| :: Rank(w[i]) < 2
    ensures RefundsDue(w) == []
  {
    if w != [] {
      NoRefundBelow(w[..|w| - 1]);
      assert Rank(w[|w| - 1]) < 2;
    }
  }

  /** Without faults and with no call under way, it totals exactly the payments now refunded. */
  lemma RefundsBalance(actions: seq<Action>, refunded: seq<string>)
    requires AllSerial(actions) && FaultFree(actions) && forall id :: Free(Run(actions), id)
    requires multiset(refunded) == multiset(NowRefunded(Run(actions).db))
    ensures RefundTotal(Run(actions).db.trace) == Total(Run(actions).db.rows, refunded)
  {
    var db := Run(actions).db;
    Interleaving(actions);
    RefundTotalIsOfRows(db.rows, db.trace);
    forall id ensures multiset(RefundIds(db.trace))[id] == multiset(refunded)[id] {
      RefundsOf(db.trace, id);
      assert Serial(actions, id) && Free(Run(actions), id);
      RefundRowIffRefunded(actions, id);
    }
    assert multiset(RefundIds(db.trace)) == multiset(refunded);
    TotalMonotone(db.rows, RefundIds(db.trace), refunded);
    TotalMonotone(db.rows, refunded, RefundIds(db.trace));
  }
}
