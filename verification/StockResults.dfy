/** What each stock operation comes to when it runs alone, column by column. */
module StockResults {
  import opened Prelude
  import opened Stock

  /** What Postgres checks of a stored row. */
  predicate RowChecked(b: Backend, s: Store, id: string) {
    b.Postgres? && id in s.products ==> 0 <= s.products[id].stock <= 0x7FFF_FFFF && s.products[id].price >= 0
  }

  lemma CreateGoesThroughIff(b: Backend, s: Store, id: string, p: Product, env: nat -> Outcome)
    requires env(0).Done?
    ensures var (after, reply) := Complete(b, s, StartCreate(id, p), env, 0);
            if p.name == "" || p.price < 0 || p.stock < 0 then (after, reply) == (s, Err(InvalidInput))
            else if b == Postgres && (id in s.products || p.stock > 0x7FFF_FFFF) then (after, reply) == (s, Err(Rejected))
            else
              reply == Ok(p) && after.products == s.products[id := p] &&
              after.book == s.book + [Entry(id, Created(p.stock))]
  {
    if StartCreate(id, p).Inserting? { Unfold(b, s, Inserting(id, p), env, 0); }
  }

  /** The read and the write of a stock change. */
  lemma ChangeLeaves(b: Backend, s: Store, id: string, c: Change, n: int64, env: nat -> Outcome)
    requires id in s.products && env(0).Done? && env(1).Done? && Changed(s.products[id].stock, c) == Some(n)
    ensures var p := s.products[id].(stock := n);
            Complete(b, s, Reading(id, c), env, 0) ==
            if b.Postgres? && !(0 <= n <= MAX_COLUMN && p.price >= 0) then (s, Err(Rejected))
            else (Store(s.products[id := p], s.book + [Entry(id, c)]), Ok(p))
  {
    Unfold(b, s, Reading(id, c), env, 0);
    Unfold(b, s, Writing(id, s.products[id].(stock := n), c), env, 1);
  }

  lemma UpdateStockGoesThroughIff(b: Backend, s: Store, id: string, n: int64, env: nat -> Outcome)
    requires env(0).Done? && env(1).Done? && RowChecked(b, s, id)
    ensures var (after, reply) := Complete(b, s, StartChange(id, SetTo(n)), env, 0);
            if id == "" || n < 0 then (after, reply) == (s, Err(InvalidInput))
            else if id !in s.products then (after, reply) == (s, Err(NotFound))
            else if b == Postgres && n > 0x7FFF_FFFF then (after, reply) == (s, Err(Rejected))
            else
              var p := Product(s.products[id].name, s.products[id].price, n);
              reply == Ok(p) && after.products == s.products[id := p] && after.book == s.book + [Entry(id, SetTo(n))]
  {
    if id != "" && n >= 0 {
      if id in s.products { ChangeLeaves(b, s, id, SetTo(n), n, env); }
      else { Unfold(b, s, Reading(id, SetTo(n)), env, 0); }
    }
  }

  lemma ReserveStockGoesThroughIff(b: Backend, s: Store, id: string, n: int64, env: nat -> Outcome)
    requires env(0).Done? && env(1).Done? && RowChecked(b, s, id)
    ensures var (after, reply) := Complete(b, s, StartChange(id, Reserve(n)), env, 0);
            if id == "" || n <= 0 then (after, reply) == (s, Err(InvalidInput))
            else if id !in s.products then (after, reply) == (s, Err(NotFound))
            else if s.products[id].stock < n then (after, reply) == (s, Err(InvalidInput))
            else
              var p := Product(s.products[id].name, s.products[id].price, s.products[id].stock - n);
              reply == Ok(p) && after.products == s.products[id := p] && after.book == s.book + [Entry(id, Reserve(n))]
  {
    if id != "" && n > 0 {
      if id in s.products && s.products[id].stock >= n {
        ChangeLeaves(b, s, id, Reserve(n), s.products[id].stock - n, env);
      } else {
        Unfold(b, s, Reading(id, Reserve(n)), env, 0);
      }
    }
  }

  lemma ReleaseStockGoesThroughIff(b: Backend, s: Store, id: string, n: int64, env: nat -> Outcome)
    requires env(0).Done? && env(1).Done? && RowChecked(b, s, id)
    ensures var (after, reply) := Complete(b, s, StartChange(id, Release(n)), env, 0);
            if id == "" || n <= 0 then (after, reply) == (s, Err(InvalidInput))
            else if id !in s.products then (after, reply) == (s, Err(NotFound))
            else if b == Postgres && s.products[id].stock + n > 0x7FFF_FFFF then (after, reply) == (s, Err(Rejected))
            else
              var p := Product(s.products[id].name, s.products[id].price, Wrap64(s.products[id].stock + n));
              reply == Ok(p) && after.products == s.products[id := p] && after.book == s.book + [Entry(id, Release(n))]
  {
    if id != "" && n > 0 {
      if id in s.products { ChangeLeaves(b, s, id, Release(n), Wrap64(s.products[id].stock + n), env); }
      else { Unfold(b, s, Reading(id, Release(n)), env, 0); }
    }
  }

  /** An access that is lost leaves nothing, one whose answer is lost leaves what it does; either ends
      the call with an error. */
  lemma FaultEndsTheCall(b: Backend, s: Store, call: Call, o: Outcome)
    requires !call.Returned? && !o.Done?
    ensures var (after, next) := Advance(b, s, call, o);
            next.Returned? && next.reply.Err? && after == if o.Lost? then s else Advance(b, s, call, Done).0
  {
  }

  // ---- In every interleaving -----------------------------------------------------------------

  predicate SameColumns(p: Product, q: Product) {
    p.name == q.name && p.price == q.price
  }

  /** Every copy under way has the stored name and price. */
  ghost predicate CopiesOk(s: Sys) {
    forall t | t in s.calls && s.calls[t].Writing? ::
      s.calls[t].id in s.store.products && SameColumns(s.calls[t].p, s.store.products[s.calls[t].id])
  }

  lemma CopiesStep(s: Sys, a: Action)
    requires CopiesOk(s)
    ensures CopiesOk(Step(Postgres, s, a))
    ensures forall id | id in s.store.products ::
              id in Step(Postgres, s, a).store.products &&
              SameColumns(Step(Postgres, s, a).store.products[id], s.store.products[id])
  {
  }

  lemma {:induction false} CopiesAlways(actions: seq<Action>)
    ensures CopiesOk(Run(Postgres, actions))
  {
    if actions != [] {
      CopiesAlways(actions[..|actions| - 1]);
      CopiesStep(Run(Postgres, actions[..|actions| - 1]), actions[|actions| - 1]);
    }
  }

  /** Over Postgres, however changes of stock interleave and fail, a product keeps its name and price. */
  lemma {:induction false} OtherColumnsStay(actions: seq<Action>, more: seq<Action>, id: string)
    requires id in Run(Postgres, actions).store.products
    ensures var before, after := Run(Postgres, actions).store.products, Run(Postgres, actions + more).store.products;
            id in after && SameColumns(after[id], before[id])
  {
    if more == [] {
      assert actions + more == actions;
    } else {
      var n := |more| - 1;
      OtherColumnsStay(actions, more[..n], id);
      assert (actions + more)[..|actions + more| - 1] == actions + more[..n];
      CopiesAlways(actions + more[..n]);
      CopiesStep(Run(Postgres, actions + more[..n]), more[n]);
    }
  }
}
