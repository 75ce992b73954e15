/** Product stock: each change reads a row, computes a copy and writes the whole row back. */
module Stock {
  import opened Prelude

  datatype Product = Product(name: string, price: int64, stock: int64)

  /** Postgres keeps stock in a checked 32-bit column; the in-memory store keeps any Go int. */
  datatype Backend = Memory | Postgres

  const MAX_COLUMN := 0x7FFF_FFFF

  datatype Change = Created(n: int64) | SetTo(n: int64) | Reserve(n: int64) | Release(n: int64)

  datatype Error = InvalidInput | NotFound | Rejected | Unavailable

  datatype Call =
    | Inserting(id: string, p: Product)
    | Reading(id: string, change: Change)
    | Writing(id: string, p: Product, change: Change)
    | Returned(reply: Result<Product, Error>)

  /** book records the changes that were written, in order. */
  datatype Entry = Entry(id: string, change: Change)

  datatype Store = Store(products: map<string, Product>, book: seq<Entry>)

  predicate Storable(b: Backend, p: Product) {
    b.Memory? || (0 <= p.stock <= MAX_COLUMN && p.price >= 0)
  }

  function StartCreate(id: string, p: Product): Call {
    if p.name == "" || p.price < 0 || p.stock < 0 then Returned(Err(InvalidInput)) else Inserting(id, p)
  }

  function StartChange(id: string, c: Change): Call {
    if id == "" || c.Created? || (c.SetTo? && c.n < 0) || (!c.SetTo? && c.n <= 0) then Returned(Err(InvalidInput))
    else Reading(id, c)
  }

  /** The stock the copy gets, in 64-bit arithmetic; None when there is not enough to reserve. */
  function Changed(stock: int64, c: Change): Option<int64> {
    match c
    case Created(n) => Some(n)
    case SetTo(n) => Some(n)
    case Reserve(n) => if stock < n then None else Some(Wrap64(stock - n))
    case Release(n) => Some(Wrap64(stock + n))
  }

  function Write(b: Backend, o: Outcome, s: Store, id: string, p: Product, c: Change): (Store, Call) {
    if !Storable(b, p) then (s, Returned(Err(Rejected)))
    else
      (if o.Lost? then s else Store(s.products[id := p], s.book + [Entry(id, c)]),
       Returned(if o.Done? then Ok(p) else Err(Unavailable)))
  }

  function Advance(b: Backend, s: Store, call: Call, o: Outcome): (Store, Call) {
    match call
    case Inserting(id, p) =>
      // Only Postgres has a primary key; the in-memory store replaces a product of the same id.
      if b.Postgres? && id in s.products then (s, Returned(Err(Rejected))) else Write(b, o, s, id, p, Created(p.stock))
    case Reading(id, c) =>
      if !o.Done? then (s, Returned(Err(Unavailable)))
      else if id !in s.products then (s, Returned(Err(NotFound)))
      else
        (s, match Changed(s.products[id].stock, c)
            case None => Returned(Err(InvalidInput))
            case Some(n) => Writing(id, s.products[id].(stock := n), c))
    case Writing(id, p, c) =>
      if id !in s.products then (s, Returned(Err(NotFound))) else Write(b, o, s, id, p, c)
    case Returned(_) => (s, call)
  }

  datatype Sys = Sys(store: Store, calls: map<nat, Call>)

  datatype Action =
    | BeginCreate(t: nat, id: string, p: Product)
    | BeginChange(t: nat, id: string, change: Change)
    | Move(t: nat, outcome: Outcome)

  const INITIAL := Sys(Store(map[], []), map[])

  function Step(b: Backend, s: Sys, a: Action): Sys {
    match a
    case BeginCreate(t, id, p) => if t in s.calls then s else s.(calls := s.calls[t := StartCreate(id, p)])
    case BeginChange(t, id, c) => if t in s.calls then s else s.(calls := s.calls[t := StartChange(id, c)])
    case Move(t, o) =>
      if t !in s.calls then s
      else
        var (store, call) := Advance(b, s.store, s.calls[t], o);
        Sys(store, s.calls[t := call])
  }

  function Run(b: Backend, actions: seq<Action>): Sys {
    if actions == [] then INITIAL else Step(b, Run(b, actions[..|actions| - 1]), actions[|actions| - 1])
  }

  // ---- Never negative ------------------------------------------------------------------------

  /** A release leaves the copy non-negative exactly when the sum fits in a Go int. */
  lemma ReleaseFitsIff(stock: int64, n: int64)
    requires stock >= 0 && n > 0
    ensures Changed(stock, Release(n)).value >= 0 <==> stock + n < TWO63
    ensures stock + n < TWO63 ==> Changed(stock, Release(n)).value == stock + n
  {
  }

  /** The call's next step does not read a stock that its release would overflow. */
  predicate Fits(s: Store, call: Call) {
    call.Reading? && call.change.Release? && call.id in s.products ==>
      s.products[call.id].stock + call.change.n < TWO63
  }

  /** Only the in-memory store needs releases that fit; Postgres refuses the copies that do not. */
  ghost predicate Tame(b: Backend, actions: seq<Action>) {
    b.Postgres? || actions == [] ||
    (var s, a := Run(b, actions[..|actions| - 1]), actions[|actions| - 1];
     Tame(b, actions[..|actions| - 1]) && (a.Move? && a.t in s.calls ==> Fits(s.store, s.calls[a.t])))
  }

  predicate CallOk(b: Backend, call: Call) {
    match call
    case Inserting(_, p) => p.stock >= 0
    case Reading(_, c) => !c.Created? && c.n >= 0 && (c.SetTo? || c.n > 0)
    case Writing(_, p, c) => !c.Created? && (p.stock >= 0 || (b.Postgres? && c.Release?))
    case _ => true
  }

  ghost predicate StoreOk(b: Backend, s: Store) {
    forall id | id in s.products :: 0 <= s.products[id].stock && (b.Postgres? ==> s.products[id].stock <= MAX_COLUMN)
  }

  ghost predicate Inv(b: Backend, s: Sys) {
    StoreOk(b, s.store) && forall t | t in s.calls :: CallOk(b, s.calls[t])
  }

  lemma InvAdvance(b: Backend, s: Store, call: Call, o: Outcome)
    requires StoreOk(b, s) && CallOk(b, call) && (b.Postgres? || Fits(s, call))
    ensures var (after, next) := Advance(b, s, call, o); StoreOk(b, after) && CallOk(b, next)
  {
  }

  lemma InvMove(b: Backend, s: Sys, t: nat, o: Outcome)
    requires Inv(b, s) && t in s.calls && (b.Postgres? || Fits(s.store, s.calls[t]))
    ensures Inv(b, Step(b, s, Move(t, o)))
  {
    InvAdvance(b, s.store, s.calls[t], o);
  }

  /** However reads and writes interleave and fail, no stored stock is negative. */
  lemma {:induction false} StockIsNeverNegative(b: Backend, actions: seq<Action>)
    requires Tame(b, actions)
    ensures Inv(b, Run(b, actions))
  {
    if actions != [] {
      var before, a := actions[..|actions| - 1], actions[|actions| - 1];
      StockIsNeverNegative(b, before);
      var s := Run(b, before);
      if a.Move? && a.t in s.calls { InvMove(b, s, a.t, a.outcome); }
    }
  }

  // ---- Conservation --------------------------------------------------------------------------

  /** The stock that the book of a product says it has: the last created or set value, plus the later
      releases, minus the later reservations. */
  function Balance(book: seq<Entry>, id: string): int {
    if book == [] then 0
    else
      var e, before := book[|book| - 1], Balance(book[..|book| - 1], id);
      if e.id != id then before
      else
        match e.change
        case Created(n) => n
        case SetTo(n) => n
        case Reserve(n) => before - n
        case Release(n) => before + n
  }

  predicate Writes(call: Call, id: string) {
    (call.Writing? || call.Inserting?) && call.id == id
  }

  ghost predicate OneWriter(s: Sys, id: string) {
    forall t, u | t in s.calls && u in s.calls && Writes(s.calls[t], id) && Writes(s.calls[u], id) :: t == u
  }

  ghost predicate Serial(b: Backend, actions: seq<Action>, id: string) {
    actions == [] || (Serial(b, actions[..|actions| - 1], id) && OneWriter(Run(b, actions), id))
  }

  /** The copy is what the book says, changed; or it will be refused. */
  ghost predicate CopyOk(b: Backend, s: Store, call: Call, id: string) {
    call.Writing? && call.id == id ==>
      id in s.products && (Storable(b, call.p) ==> call.p.stock == Balance(s.book + [Entry(id, call.change)], id))
  }

  ghost predicate BalanceInv(b: Backend, s: Sys, id: string) {
    && (id in s.store.products ==> s.store.products[id].stock == Balance(s.store.book, id))
    && (forall t | t in s.calls :: CopyOk(b, s.store, s.calls[t], id))
  }

  /** What an entry of its own does to a product's balance. */
  lemma BookAppend(book: seq<Entry>, id: string, c: Change)
    ensures Balance(book + [Entry(id, c)], id) ==
            match c
            case Created(n) => n
            case SetTo(n) => n
            case Reserve(n) => Balance(book, id) - n
            case Release(n) => Balance(book, id) + n
  {
    assert (book + [Entry(id, c)])[..|book|] == book;
  }

  lemma ReadCopies(b: Backend, s: Store, call: Call, o: Outcome, id: string)
    requires call.Reading? && CallOk(b, call) && (b.Postgres? || Fits(s, call))
    requires id in s.products ==> 0 <= s.products[id].stock == Balance(s.book, id)
    requires id in s.products && b.Postgres? ==> s.products[id].stock <= MAX_COLUMN
    ensures CopyOk(b, s, Advance(b, s, call, o).1, id)
  {
    if call.id == id && id in s.products {
      BookAppend(s.book, id, call.change);
      if call.change.Release? { ReleaseFitsIff(s.products[id].stock, call.change.n); }
    }
  }

  /** A write of another product changes neither the balance nor what a copy should be. */
  lemma CopyStays(b: Backend, s: Store, e: Entry, products: map<string, Product>, call: Call, id: string)
    requires CopyOk(b, s, call, id) && (e.id != id || !Writes(call, id)) && (id in s.products ==> id in products)
    ensures CopyOk(b, Store(products, s.book + [e]), call, id)
  {
  }

  lemma OwnBalance(b: Backend, s: Store, call: Call, o: Outcome, id: string)
    requires CallOk(b, call) && CopyOk(b, s, call, id)
    requires id in s.products ==> s.products[id].stock == Balance(s.book, id)
    ensures var after := Advance(b, s, call, o).0;
            && (id in after.products ==> after.products[id].stock == Balance(after.book, id))
            && (id in s.products ==> id in after.products)
            && (after == s || after.book == s.book + [Entry((if call.Inserting? || call.Writing? then call.id else id),
                                                            after.book[|s.book|].change)])
  {
  }

  lemma BalanceMove(b: Backend, s: Sys, t: nat, o: Outcome, id: string)
    requires Inv(b, s) && BalanceInv(b, s, id) && t in s.calls && (b.Postgres? || Fits(s.store, s.calls[t]))
    requires OneWriter(s, id)
    ensures BalanceInv(b, Step(b, s, Move(t, o)), id)
  {
    var call := s.calls[t];
    var (after, next) := Advance(b, s.store, call, o);
    assert CallOk(b, call) && CopyOk(b, s.store, call, id);
    OwnBalance(b, s.store, call, o, id);
    if call.Reading? { ReadCopies(b, s.store, call, o, id); }
    var s' := Step(b, s, Move(t, o));
    forall u | u in s'.calls ensures CopyOk(b, after, s'.calls[u], id) {
      if u != t && after != s.store {
        assert CopyOk(b, s.store, s.calls[u], id);
        CopyStays(b, s.store, after.book[|s.store.book|], after.products, s.calls[u], id);
      }
    }
  }

  /** In runs whose writes of the product do not overlap, its stock is what its book says. */
  lemma {:induction false} StockBalances(b: Backend, actions: seq<Action>, id: string)
    requires Tame(b, actions) && Serial(b, actions, id)
    ensures BalanceInv(b, Run(b, actions), id) && OneWriter(Run(b, actions), id)
  {
    if actions != [] {
      var before, a := actions[..|actions| - 1], actions[|actions| - 1];
      StockBalances(b, before, id);
      StockIsNeverNegative(b, before);
      var s := Run(b, before);
      if a.Move? && a.t in s.calls { BalanceMove(b, s, a.t, a.outcome, id); }
    }
  }

  /** Why: two reservations that overlap are both granted and both booked, and one is lost. */
  lemma OverlapLosesAReservation(b: Backend, s: Sys, id: string, n: int64, m: int64)
    requires id != "" && id in s.store.products && s.calls == map[] && s.store.products[id].price >= 0
    requires 0 < n <= s.store.products[id].stock <= MAX_COLUMN && 0 < m <= s.store.products[id].stock
    ensures var begun := Step(b, Step(b, s, BeginChange(0, id, Reserve(n))), BeginChange(1, id, Reserve(m)));
            var read := Step(b, Step(b, begun, Move(0, Done)), Move(1, Done));
            var end := Step(b, Step(b, read, Move(0, Done)), Move(1, Done));
            && end.store.book == s.store.book + [Entry(id, Reserve(n)), Entry(id, Reserve(m))]
            && end.store.products[id].stock == s.store.products[id].stock - m
            && end.calls[0].reply.Ok? && end.calls[1].reply.Ok?
  {
  }

  // ---- The program ---------------------------------------------------------------------------

  function Distance(call: Call): nat {
    match call
    case Returned(_) => 0
    case Inserting(_, _) => 1
    case Writing(_, _, _) => 1
    case Reading(_, _) => 2
  }

  /** The store and the reply when a call runs alone; env(k) decides its k-th access to the store. */
  function Complete(b: Backend, s: Store, call: Call, env: nat -> Outcome, k: nat): (Store, Result<Product, Error>)
    decreases Distance(call)
  {
    if call.Returned? then (s, call.reply)
    else
      var (after, next) := Advance(b, s, call, env(k));
      Complete(b, after, next, env, k + 1)
  }

  lemma Unfold(b: Backend, s: Store, call: Call, env: nat -> Outcome, k: nat)
    requires !call.Returned?
    ensures var (after, next) := Advance(b, s, call, env(k));
            && Complete(b, s, call, env, k) == Complete(b, after, next, env, k + 1)
            && (next.Returned? ==> Complete(b, s, call, env, k) == (after, next.reply))
  {
  }

  // ---- A client that calls one method at a time ----------------------------------------------

  /** No other call is about to write. */
  ghost predicate Quiet(s: Sys, t: nat) {
    forall u | u in s.calls && u != t :: !s.calls[u].Writing? && !s.calls[u].Inserting?
  }

  lemma OneMove(b: Backend, actions: seq<Action>, t: nat, o: Outcome, id: string)
    requires Serial(b, actions, id) && t in Run(b, actions).calls && Quiet(Run(b, actions), t)
    ensures var more := actions + [Move(t, o)]; var s := Run(b, actions);
            var (after, next) := Advance(b, s.store, s.calls[t], o);
            Run(b, more) == Sys(after, s.calls[t := next]) && Quiet(Run(b, more), t) && Serial(b, more, id)
  {
    assert (actions + [Move(t, o)])[..|actions|] == actions;
  }

  /** A method call is a stretch of a run, and no other call's write overlaps it. */
  lemma {:induction false} MethodCallIsARun(
      b: Backend, actions: seq<Action>, env: nat -> Outcome, k: nat, t: nat, id: string) returns (more: seq<Action>)
    requires Serial(b, actions, id) && t in Run(b, actions).calls && Quiet(Run(b, actions), t)
    ensures var s := Run(b, actions);
            var (after, reply) := Complete(b, s.store, s.calls[t], env, k);
            Run(b, actions + more) == Sys(after, s.calls[t := Returned(reply)]) && Serial(b, actions + more, id)
    ensures forall a | a in more :: a.Move? && a.t == t
    decreases Distance(Run(b, actions).calls[t])
  {
    var s := Run(b, actions);
    if s.calls[t].Returned? {
      more := [];
      assert actions + [] == actions;
      SetSame(s.calls, t);
    } else {
      var a := Move(t, env(k));
      OneMove(b, actions, t, env(k), id);
      var rest := MethodCallIsARun(b, actions + [a], env, k + 1, t, id);
      more := [a] + rest;
      Extended(actions, a, rest);
      Unfold(b, s.store, s.calls[t], env, k);
      var (after, next) := Advance(b, s.store, s.calls[t], env(k));
      SetTwice(s.calls, t, next, Returned(Complete(b, after, next, env, k + 1).1));
    }
  }

  /** Without faults, a release of the in-memory store goes through, and leaves the sum in stock, not
      negative, exactly when the sum fits in a Go int. */
  lemma ReleaseStaysIffItFits(s: Store, id: string, n: int64, env: nat -> Outcome)
    requires id != "" && id in s.products && s.products[id].stock >= 0 && n > 0 && forall k :: env(k).Done?
    ensures var (after, reply) := Complete(Memory, s, StartChange(id, Release(n)), env, 0);
            var sum := s.products[id].stock + n;
            && reply.Ok? && id in after.products
            && (after.products[id].stock >= 0 <==> sum < TWO63)
            && (after.products[id].stock == sum <==> sum < TWO63)
  {
    Unfold(Memory, s, Reading(id, Release(n)), env, 0);
    var p := s.products[id].(stock := Wrap64(s.products[id].stock + n));
    Unfold(Memory, s, Writing(id, p, Release(n)), env, 1);
  }

  class Service {
    const backend: Backend
    var products: map<string, Product>
    ghost var book: seq<Entry>

    constructor (backend: Backend)
      ensures this.backend == backend && Observed() == INITIAL.store
    {
      this.backend := backend;
      products, book := map[], [];
    }

    ghost function Observed(): Store
      reads this
    {
      Store(products, book)
    }

    /** A whole-row insert or update. */
    method WriteRow(id: string, p: Product, ghost c: Change, o: Outcome) returns (reply: Result<Product, Error>)
      modifies this
      ensures (Observed(), Returned(reply)) == Write(backend, o, old(Observed()), id, p, c)
    {
      if !Storable(backend, p) { return Err(Rejected); }
      if !o.Lost? { products, book := products[id := p], book + [Entry(id, c)]; }
      reply := if o.Done? then Ok(p) else Err(Unavailable);
    }

    method Create(id: string, p: Product, env: nat -> Outcome) returns (reply: Result<Product, Error>)
      modifies this
      ensures (Observed(), reply) == Complete(backend, old(Observed()), StartCreate(id, p), env, 0)
    {
      if p.name == "" || p.price < 0 || p.stock < 0 { return Err(InvalidInput); }
      if backend.Postgres? && id in products { return Err(Rejected); }
      reply := WriteRow(id, p, Created(p.stock), env(0));
    }

    method GetByID(id: string, o: Outcome) returns (reply: Result<Product, Error>)
      ensures reply == if !o.Done? then Err(Unavailable) else if id in products then Ok(products[id]) else Err(NotFound)
    {
      if !o.Done? { return Err(Unavailable); }
      reply := if id in products then Ok(products[id]) else Err(NotFound);
    }

    method UpdateStock(id: string, stock: int64, env: nat -> Outcome) returns (reply: Result<Product, Error>)
      modifies this
      ensures (Observed(), reply) == Complete(backend, old(Observed()), StartChange(id, SetTo(stock)), env, 0)
    {
      if id == "" || stock < 0 { return Err(InvalidInput); }
      Unfold(backend, Observed(), Reading(id, SetTo(stock)), env, 0);
      reply := GetByID(id, env(0));
      if reply.Err? { return; }
      Unfold(backend, Observed(), Writing(id, reply.value.(stock := stock), SetTo(stock)), env, 1);
      reply := WriteRow(id, reply.value.(stock := stock), SetTo(stock), env(1));
    }

    method ReserveStock(id: string, quantity: int64, env: nat -> Outcome) returns (reply: Result<Product, Error>)
      modifies this
      ensures (Observed(), reply) == Complete(backend, old(Observed()), StartChange(id, Reserve(quantity)), env, 0)
    {
      if id == "" || quantity <= 0 { return Err(InvalidInput); }
      Unfold(backend, Observed(), Reading(id, Reserve(quantity)), env, 0);
      reply := GetByID(id, env(0));
      if reply.Err? { return; }
      var p := reply.value;
      if p.stock < quantity { return Err(InvalidInput); }
      Unfold(backend, Observed(), Writing(id, p.(stock := Wrap64(p.stock - quantity)), Reserve(quantity)), env, 1);
      reply := WriteRow(id, p.(stock := Wrap64(p.stock - quantity)), Reserve(quantity), env(1));
    }

    method ReleaseStock(id: string, quantity: int64, env: nat -> Outcome) returns (reply: Result<Product, Error>)
      modifies this
      ensures (Observed(), reply) == Complete(backend, old(Observed()), StartChange(id, Release(quantity)), env, 0)
    {
      if id == "" || quantity <= 0 { return Err(InvalidInput); }
      Unfold(backend, Observed(), Reading(id, Release(quantity)), env, 0);
      reply := GetByID(id, env(0));
      if reply.Err? { return; }
      var p := reply.value;
      Unfold(backend, Observed(), Writing(id, p.(stock := Wrap64(p.stock + quantity)), Release(quantity)), env, 1);
      reply := WriteRow(id, p.(stock := Wrap64(p.stock + quantity)), Release(quantity), env(1));
    }
  }
}
