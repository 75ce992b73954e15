/** The rating cache beside the reviews table. A writer changes a row, deletes the cached rating and
    publishes a new one, in separate steps; a reader that misses queries and fills in two steps. */
module ReviewCache {
  import opened Prelude
  import opened ReviewRating

  datatype Error = InvalidInput | NotFound | Rejected | Unavailable

  /** past and touched record the states the table has been in and the product each write changed;
      given records the ratings answered and published. Ids come from the clock and are not reused. */
  datatype Store = Store(rows: Rows, used: set<string>, cache: map<string, Rating>,
                         past: seq<Rows>, touched: seq<string>, given: seq<Rating>)

  datatype Call =
    | Inserting(id: string, review: Review)
    | ReadingToUpdate(id: string, rating: int, comment: string)
    | Writing(id: string, productId: string, rating: int, comment: string)
    | ReadingToDelete(id: string)
    | Deleting(id: string, productId: string)
    | Invalidating(productId: string)
    | Republishing(productId: string)
    | Looking(productId: string)
    | Querying(productId: string)
    | Filling(r: Rating, stamp: nat)
    | Finished(error: Option<Error>)

  function StartCreate(id: string, review: Review): Call {
    if review.productId == "" || review.customerId == "" || review.rating < 1 || review.rating > 5 then
      Finished(Some(InvalidInput))
    else Inserting(id, review)
  }

  function StartUpdate(id: string, rating: int, comment: string): Call {
    if id == "" || rating < 1 || rating > 5 then Finished(Some(InvalidInput)) else ReadingToUpdate(id, rating, comment)
  }

  function StartRating(productId: string): Call {
    if productId == "" then Finished(Some(InvalidInput)) else Looking(productId)
  }

  /** A write of the table; every later step of its call concerns its product. */
  function Change(o: Outcome, s: Store, rows: Rows, productId: string): (Store, Call) {
    (if o.Lost? then s else s.(rows := rows, past := s.past + [rows], touched := s.touched + [productId]),
     if o.Done? then Invalidating(productId) else Finished(Some(Unavailable)))
  }

  ghost function Advance(s: Store, call: Call, o: Outcome): (Store, Call) {
    match call
    case Inserting(id, review) =>
      if id in s.used then (s, Finished(Some(Rejected)))
      else Change(o, if o.Lost? then s else s.(used := s.used + {id}), s.rows[id := review], review.productId)
    case ReadingToUpdate(id, rating, comment) =>
      if !o.Done? then (s, Finished(Some(Unavailable)))
      else if id !in s.rows then (s, Finished(Some(NotFound)))
      else (s, Writing(id, s.rows[id].productId, rating, comment))
    case Writing(id, productId, rating, comment) =>
      if id !in s.rows then (s, Finished(Some(NotFound)))
      else Change(o, s, s.rows[id := s.rows[id].(rating := rating, comment := comment)], productId)
    case ReadingToDelete(id) =>
      if !o.Done? then (s, Finished(Some(Unavailable)))
      else if id !in s.rows then (s, Finished(Some(NotFound)))
      else (s, Deleting(id, s.rows[id].productId))
    case Deleting(id, productId) =>
      if id !in s.rows then (s, Finished(Some(NotFound))) else Change(o, s, s.rows - {id}, productId)
    case Invalidating(productId) =>
      // The result of the delete is ignored.
      (if o.Lost? then s else s.(cache := s.cache - {productId}), Republishing(productId))
    case Republishing(productId) =>
      (if o.Done? then s.(given := s.given + [RatingOf(s.rows, productId)]) else s, Finished(None))
    case Looking(productId) =>
      if o.Done? && productId in s.cache then (s.(given := s.given + [s.cache[productId]]), Finished(None))
      else (s, Querying(productId))
    case Querying(productId) =>
      if !o.Done? then (s, Finished(Some(Unavailable)))
      else (s, Filling(RatingOf(s.rows, productId), |s.touched|))
    case Filling(r, _) =>
      // The result of the fill is ignored.
      (s.(cache := if o.Lost? then s.cache else s.cache[r.productId := r], given := s.given + [r]), Finished(None))
    case Finished(_) => (s, call)
  }

  datatype Sys = Sys(store: Store, calls: map<nat, Call>)

  datatype Action =
    | BeginCreate(t: nat, newId: string, review: Review)
    | BeginUpdate(t: nat, id: string, rating: int, comment: string)
    | BeginDelete(t: nat, id: string)
    | BeginRating(t: nat, productId: string)
    | Move(t: nat, outcome: Outcome)
    | Expire(productId: string)

  const INITIAL := Sys(Store(map[], {}, map[], [map[]], [], []), map[])

  function StartOf(a: Action): Call {
    match a
    case BeginCreate(_, id, review) => StartCreate(id, review)
    case BeginUpdate(_, id, rating, comment) => StartUpdate(id, rating, comment)
    case BeginDelete(_, id) => ReadingToDelete(id)
    case BeginRating(_, p) => StartRating(p)
    case _ => Finished(None)
  }

  ghost function Step(s: Sys, a: Action): Sys {
    match a
    case Move(t, o) =>
      if t !in s.calls then s
      else
        var (store, call) := Advance(s.store, s.calls[t], o);
        Sys(store, s.calls[t := call])
    case Expire(p) => s.(store := s.store.(cache := s.store.cache - {p}))
    case _ => if a.t in s.calls then s else s.(calls := s.calls[a.t := StartOf(a)])
  }

  ghost function Run(actions: seq<Action>): Sys {
    if actions == [] then INITIAL else Step(Run(actions[..|actions| - 1]), actions[|actions| - 1])
  }

  // ---- In every schedule: ratings are exact, if perhaps old ----------------------------------

  ghost predicate WasRating(past: seq<Rows>, r: Rating) {
    exists k | 0 <= k < |past| :: r == RatingOf(past[k], r.productId)
  }

  ghost predicate StoreInv(s: Store) {
    && s.past != [] && s.past[|s.past| - 1] == s.rows && s.rows.Keys <= s.used
    && (forall k | 0 <= k < |s.past| :: InRange(s.past[k]))
    && (forall p | p in s.cache :: s.cache[p].productId == p && WasRating(s.past, s.cache[p]))
    && (forall i | 0 <= i < |s.given| :: WasRating(s.past, s.given[i]))
  }

  ghost predicate CallOk(s: Store, call: Call) {
    match call
    case Inserting(_, review) => 1 <= review.rating <= 5
    case ReadingToUpdate(_, rating, _) => 1 <= rating <= 5
    case Writing(id, p, rating, _) => 1 <= rating <= 5 && id in s.used && (id in s.rows ==> s.rows[id].productId == p)
    case Deleting(id, p) => id in s.used && (id in s.rows ==> s.rows[id].productId == p)
    case Filling(r, stamp) => stamp <= |s.touched| && WasRating(s.past, r)
    case _ => true
  }

  ghost predicate Inv(s: Sys) {
    StoreInv(s.store) && forall t | t in s.calls :: CallOk(s.store, s.calls[t])
  }

  lemma WasStays(past: seq<Rows>, rows: Rows, r: Rating)
    requires WasRating(past, r)
    ensures WasRating(past + [rows], r)
  {
    var k :| 0 <= k < |past| && r == RatingOf(past[k], r.productId);
    assert (past + [rows])[k] == past[k];
  }

  lemma NowIsRating(s: Store, productId: string)
    requires StoreInv(s)
    ensures WasRating(s.past, RatingOf(s.rows, productId))
  {
  }

  predicate Writes(call: Call) {
    call.Inserting? || call.Writing? || call.Deleting?
  }

  /** A step that changes the table, seen from any other call and from the cache. */
  ghost predicate Extends(s: Store, after: Store) {
    && after.past == s.past + [after.rows] && after.cache == s.cache && after.given == s.given
    && s.used <= after.used && |after.touched| == |s.touched| + 1
    && (forall id | id in s.used && id in after.rows ::
          id in s.rows && after.rows[id].productId == s.rows[id].productId)
  }

  lemma ExtendStore(s: Store, after: Store)
    requires StoreInv(s) && Extends(s, after) && InRange(after.rows) && after.rows.Keys <= after.used
    ensures StoreInv(after)
  {
    forall r | WasRating(s.past, r) ensures WasRating(after.past, r) { WasStays(s.past, after.rows, r); }
  }

  lemma ExtendCall(s: Store, after: Store, call: Call)
    requires Extends(s, after) && CallOk(s, call)
    ensures CallOk(after, call)
  {
    if call.Filling? { WasStays(s.past, after.rows, call.r); }
  }

  lemma WriteExtends(s: Store, call: Call, o: Outcome)
    requires StoreInv(s) && CallOk(s, call) && Writes(call) && Advance(s, call, o).0 != s
    ensures var after := Advance(s, call, o).0;
            Extends(s, after) && InRange(after.rows) && after.rows.Keys <= after.used
  {
  }

  lemma ReadStore(s: Store, call: Call, o: Outcome)
    requires StoreInv(s) && CallOk(s, call) && !Writes(call)
    ensures StoreInv(Advance(s, call, o).0)
  {
    match call
    case Republishing(p) => NowIsRating(s, p); Given(s, RatingOf(s.rows, p));
    case Looking(p) => if p in s.cache { Given(s, s.cache[p]); }
    case Filling(r, _) =>
      Given(s, r);
      Cached(s.(given := s.given + [r]), r);
    case _ =>
  }

  lemma Given(s: Store, r: Rating)
    requires StoreInv(s) && WasRating(s.past, r)
    ensures StoreInv(s.(given := s.given + [r]))
  {
  }

  lemma Cached(s: Store, r: Rating)
    requires StoreInv(s) && WasRating(s.past, r)
    ensures StoreInv(s.(cache := s.cache[r.productId := r]))
  {
  }

  lemma ReadCall(s: Store, call: Call, o: Outcome)
    requires StoreInv(s) && CallOk(s, call) && !Writes(call)
    ensures var (after, next) := Advance(s, call, o); CallOk(after, next)
  {
  }

  lemma OwnStep(s: Store, call: Call, o: Outcome)
    requires StoreInv(s) && CallOk(s, call)
    ensures var (after, next) := Advance(s, call, o); StoreInv(after) && CallOk(after, next)
  {
    var after := Advance(s, call, o).0;
    if !Writes(call) {
      ReadStore(s, call, o);
      ReadCall(s, call, o);
    } else if after != s {
      WriteExtends(s, call, o);
      ExtendStore(s, after);
    }
  }

  lemma OthersStay(s: Store, call: Call, o: Outcome, other: Call)
    requires StoreInv(s) && CallOk(s, call) && CallOk(s, other)
    ensures CallOk(Advance(s, call, o).0, other)
  {
    var after := Advance(s, call, o).0;
    if Writes(call) && after != s {
      WriteExtends(s, call, o);
      ExtendCall(s, after, other);
    }
  }

  lemma InvMove(s: Sys, t: nat, o: Outcome)
    requires Inv(s) && t in s.calls
    ensures Inv(Step(s, Move(t, o)))
  {
    var (after, next) := Advance(s.store, s.calls[t], o);
    OwnStep(s.store, s.calls[t], o);
    forall u | u in s.calls ensures CallOk(after, s.calls[u]) { OthersStay(s.store, s.calls[t], o, s.calls[u]); }
    assert Step(s, Move(t, o)) == Sys(after, s.calls[t := next]);
  }

  lemma InvBegin(s: Sys, a: Action)
    requires Inv(s) && !a.Move? && !a.Expire?
    ensures Inv(Step(s, a))
  {
    assert CallOk(s.store, StartOf(a));
  }

  lemma InvExpire(s: Sys, productId: string)
    requires Inv(s)
    ensures Inv(Step(s, Expire(productId)))
  {
    var after := s.store.(cache := s.store.cache - {productId});
    assert StoreInv(after);
    forall t | t in s.calls ensures CallOk(after, s.calls[t]) { assert CallOk(s.store, s.calls[t]); }
  }

  lemma InvStep(s: Sys, a: Action)
    requires Inv(s)
    ensures Inv(Step(s, a))
  {
    if a.Expire? { InvExpire(s, a.productId); }
    else if !a.Move? { InvBegin(s, a); }
    else if a.t in s.calls { InvMove(s, a.t, a.outcome); }
  }

  lemma {:induction false} InvAlways(actions: seq<Action>)
    ensures Inv(Run(actions))
  {
    if actions != [] {
      InvAlways(actions[..|actions| - 1]);
      InvStep(Run(actions[..|actions| - 1]), actions[|actions| - 1]);
    }
  }

  lemma WasIsSensible(s: Store, r: Rating)
    requires StoreInv(s) && WasRating(s.past, r)
    ensures Sensible(r)
  {
    var k :| 0 <= k < |s.past| && r == RatingOf(s.past[k], r.productId);
    AverageInRange(s.past[k], r.productId);
  }

  /** Every rating answered or published is the exact aggregate of its product in a state the table
      has been in, with an average from 1 to 5, or 0 when there was no review. */
  lemma RatingsWereExact(actions: seq<Action>, i: nat)
    requires i < |Run(actions).store.given|
    ensures var s := Run(actions).store; WasRating(s.past, s.given[i]) && Sensible(s.given[i])
  {
    InvAlways(actions);
    WasIsSensible(Run(actions).store, Run(actions).store.given[i]);
  }

  // ---- When the cached rating is current -----------------------------------------------------

  /** Some writer has changed the product's rows and has still to delete its cached rating. */
  ghost predicate Pending(s: Sys, productId: string) {
    exists t | t in s.calls :: s.calls[t] == Invalidating(productId)
  }

  /** No write of the product came between a reader's query and its fill, or its writer will still
      delete what the fill leaves. */
  ghost predicate SafeFill(s: Sys, call: Call) {
    call.Filling? ==>
      call.stamp <= |s.store.touched| &&
      (call.r.productId !in s.store.touched[call.stamp..] || Pending(s, call.r.productId))
  }

  /** Of all the faults there are, only two could leave a stale entry with nobody to delete it: a
      delete of the entry that is lost, and a write of the table that is done but reported as failed.
      A fill that does happen must be safe. */
  ghost predicate Harmless(s: Sys, call: Call, o: Outcome) {
    (call.Invalidating? ==> !o.Lost?) && (Writes(call) ==> !o.Unacked?) && (o.Lost? || SafeFill(s, call))
  }

  /** An atomic miss-and-fill is safe: nothing is written between its query and its fill. */
  lemma AtomicFillIsSafe(s: Sys, t: nat)
    requires t in s.calls && s.calls[t].Querying?
    ensures var queried := Step(s, Move(t, Done)); SafeFill(queried, queried.calls[t])
  {
  }

  /** Every fill follows its own query at once. */
  ghost predicate AtomicReads(actions: seq<Action>) {
    actions == [] ||
    (var before, a := actions[..|actions| - 1], actions[|actions| - 1];
     && AtomicReads(before)
     && (a.Move? && a.t in Run(before).calls && Run(before).calls[a.t].Filling? ==>
           && before != [] && before[|before| - 1] == Move(a.t, Done)
           && a.t in Run(before[..|before| - 1]).calls && Run(before[..|before| - 1]).calls[a.t].Querying?))
  }

  ghost predicate HarmlessFaults(actions: seq<Action>) {
    actions == [] ||
    (var s, a := Run(actions[..|actions| - 1]), actions[|actions| - 1];
     && HarmlessFaults(actions[..|actions| - 1])
     && (a.Move? && a.t in s.calls ==>
           (s.calls[a.t].Invalidating? ==> !a.outcome.Lost?) && (Writes(s.calls[a.t]) ==> !a.outcome.Unacked?)))
  }

  ghost predicate Careful(actions: seq<Action>) {
    actions == [] ||
    (var s, a := Run(actions[..|actions| - 1]), actions[|actions| - 1];
     && Careful(actions[..|actions| - 1])
     && (a.Move? && a.t in s.calls ==> Harmless(s, s.calls[a.t], a.outcome)))
  }

  /** With atomic reads, harmless faults are enough. */
  lemma {:induction false} AtomicReadsAreCareful(actions: seq<Action>)
    requires AtomicReads(actions) && HarmlessFaults(actions)
    ensures Careful(actions)
  {
    if actions != [] {
      var before, a := actions[..|actions| - 1], actions[|actions| - 1];
      AtomicReadsAreCareful(before);
      if a.Move? && a.t in Run(before).calls && Run(before).calls[a.t].Filling? {
        AtomicFillIsSafe(Run(before[..|before| - 1]), a.t);
      }
    }
  }

  ghost predicate Stale(s: Sys, productId: string) {
    productId in s.store.cache && s.store.cache[productId] != RatingOf(s.store.rows, productId)
  }

  ghost predicate Coherent(s: Sys, productId: string) {
    Stale(s, productId) ==> Pending(s, productId)
  }

  ghost predicate FillOk(s: Store, call: Call, productId: string) {
    call.Filling? && call.r.productId == productId ==>
      call.stamp <= |s.touched| &&
      (productId !in s.touched[call.stamp..] ==> call.r == RatingOf(s.rows, productId))
  }

  ghost predicate CoherenceInv(s: Sys, productId: string) {
    Coherent(s, productId) && forall t | t in s.calls :: FillOk(s.store, s.calls[t], productId)
  }

  /** A step that does not write a product leaves the product's rating alone. */
  lemma AdvanceRating(s: Store, call: Call, o: Outcome, productId: string)
    requires StoreInv(s) && CallOk(s, call)
    ensures var after := Advance(s, call, o).0;
            || (after.touched == s.touched && after.rows == s.rows)
            || (exists p :: after.touched == s.touched + [p] &&
                  (o.Done? ==> Advance(s, call, o).1 == Invalidating(p)) &&
                  (p != productId ==> RatingOf(after.rows, productId) == RatingOf(s.rows, productId)))
  {
    var after := Advance(s, call, o).0;
    if after.touched != s.touched {
      var p := if call.Inserting? then call.review.productId else call.productId;
      assert after.touched == s.touched + [p];
      if p != productId { OtherProductsKeep(s.rows, after.rows, call.id, p, productId); }
    }
  }

  /** A reader's pending fill stays as good as it was, or has been overtaken by a write. */
  lemma FillStays(s: Store, call: Call, o: Outcome, other: Call, productId: string)
    requires StoreInv(s) && CallOk(s, call) && FillOk(s, other, productId)
    ensures FillOk(Advance(s, call, o).0, other, productId)
  {
    AdvanceRating(s, call, o, productId);
    var after := Advance(s, call, o).0;
    if after.touched != s.touched && other.Filling? && other.r.productId == productId {
      var p := after.touched[|s.touched|];
      assert after.touched == s.touched + [p] && other.stamp <= |s.touched|;
      assert after.touched[other.stamp..] == s.touched[other.stamp..] + [p];
    }
  }

  lemma OwnFill(s: Store, call: Call, o: Outcome, productId: string)
    requires StoreInv(s)
    ensures FillOk(Advance(s, call, o).0, Advance(s, call, o).1, productId)
  {
  }

  lemma CoherentAfter(s: Sys, t: nat, o: Outcome, productId: string)
    requires Inv(s) && CoherenceInv(s, productId) && t in s.calls && Harmless(s, s.calls[t], o)
    ensures Coherent(Step(s, Move(t, o)), productId)
  {
    var call := s.calls[t];
    var (after, next) := Advance(s.store, call, o);
    var s' := Step(s, Move(t, o));
    assert s' == Sys(after, s.calls[t := next]);
    AdvanceRating(s.store, call, o, productId);
    if Pending(s, productId) && call != Invalidating(productId) {
      var u :| u in s.calls && s.calls[u] == Invalidating(productId);
      assert s'.calls[u] == Invalidating(productId);
    }
    if next == Invalidating(productId) { assert s'.calls[t] == Invalidating(productId); }
    assert FillOk(s.store, call, productId);
  }

  lemma CoherenceMove(s: Sys, t: nat, o: Outcome, productId: string)
    requires Inv(s) && CoherenceInv(s, productId) && t in s.calls && Harmless(s, s.calls[t], o)
    ensures CoherenceInv(Step(s, Move(t, o)), productId)
  {
    CoherentAfter(s, t, o, productId);
    var s' := Step(s, Move(t, o));
    forall u | u in s'.calls ensures FillOk(s'.store, s'.calls[u], productId) {
      if u == t { OwnFill(s.store, s.calls[t], o, productId); }
      else { FillStays(s.store, s.calls[t], o, s.calls[u], productId); }
    }
  }

  /** In a run whose faults are harmless and whose fills are safe, a cached rating differs from the
      table's only while some writer of that product has changed a row and has not yet deleted the
      entry. */
  lemma {:induction false} CacheIsCurrentOrPending(actions: seq<Action>, productId: string)
    requires Careful(actions)
    ensures CoherenceInv(Run(actions), productId)
  {
    if actions != [] {
      var before, a := actions[..|actions| - 1], actions[|actions| - 1];
      CacheIsCurrentOrPending(before, productId);
      InvAlways(before);
      var s := Run(before);
      if a.Move? && a.t in s.calls {
        CoherenceMove(s, a.t, a.outcome, productId);
      } else {
        var s' := Step(s, a);
        if Pending(s, productId) {
          var u :| u in s.calls && s.calls[u] == Invalidating(productId);
          assert s'.calls[u] == Invalidating(productId);
        }
      }
    }
  }

  // ---- Exactly which faults leave a stale rating ---------------------------------------------

  predicate Harmful(written: Outcome, deleted: Outcome) {
    written.Unacked? || (written.Done? && deleted.Lost?)
  }

  ghost predicate Current(s: Store, productId: string) {
    productId in s.cache && s.cache[productId] == RatingOf(s.rows, productId)
  }

  ghost predicate OthersFinished(s: Sys, t: nat) {
    forall u | u in s.calls && u != t :: s.calls[u].Finished?
  }

  lemma WriteOutcome(s: Store, call: Call, p: string, o: Outcome)
    requires Writes(call) && Advance(s, call, Done).1 == Invalidating(p)
    ensures var (after, next) := Advance(s, call, o);
            && next == (if o.Done? then Invalidating(p) else Finished(Some(Unavailable)))
            && after.cache == s.cache
            && after.rows == if o.Lost? then s.rows else Advance(s, call, Done).0.rows
  {
  }

  /** A writer about to change the rows of a product whose cached rating is current: after its write
      and its delete, the entry is stale, with nobody to delete it, exactly if the rating changed and
      the write was done but reported as failed, or the delete was lost. */
  lemma WriteGoesStaleIff(s: Sys, t: nat, p: string, written: Outcome, deleted: Outcome)
    requires t in s.calls && Writes(s.calls[t]) && OthersFinished(s, t) && Current(s.store, p)
    requires Advance(s.store, s.calls[t], Done).1 == Invalidating(p)
    ensures var end := Step(Step(s, Move(t, written)), Move(t, deleted));
            var changed := RatingOf(Advance(s.store, s.calls[t], Done).0.rows, p) != RatingOf(s.store.rows, p);
            !Pending(end, p) && (Stale(end, p) <==> changed && Harmful(written, deleted))
  {
    var (wrote, next) := Advance(s.store, s.calls[t], written);
    WriteOutcome(s.store, s.calls[t], p, written);
    assert Step(s, Move(t, written)) == Sys(wrote, s.calls[t := next]);
    var (last, rest) := Advance(wrote, next, deleted);
    assert Step(Sys(wrote, s.calls[t := next]), Move(t, deleted)) == Sys(last, s.calls[t := next][t := rest]);
    assert last.rows == wrote.rows && !rest.Invalidating?;
  }

  lemma CreateMovesRating(s: Store, id: string, review: Review)
    requires StoreInv(s) && id !in s.used
    ensures var p := review.productId;
            var (after, next) := Advance(s, Inserting(id, review), Done);
            next == Invalidating(p) && RatingOf(after.rows, p) != RatingOf(s.rows, p)
  {
    CreateShifts(s.rows, id, review);
  }

  lemma CreateGoesStaleIff(s: Sys, t: nat, id: string, review: Review, written: Outcome, deleted: Outcome)
    requires OthersFinished(s, t) && t !in s.calls && StoreInv(s.store) && Current(s.store, review.productId)
    requires StartCreate(id, review) == Inserting(id, review) && id !in s.store.used
    ensures var begun := Step(s, BeginCreate(t, id, review));
            var end := Step(Step(begun, Move(t, written)), Move(t, deleted));
            !Pending(end, review.productId) && (Stale(end, review.productId) <==> Harmful(written, deleted))
  {
    var begun := Step(s, BeginCreate(t, id, review));
    assert begun == s.(calls := s.calls[t := Inserting(id, review)]);
    CreateMovesRating(s.store, id, review);
    WriteGoesStaleIff(begun, t, review.productId, written, deleted);
  }

  lemma DeleteGoesStaleIff(s: Sys, t: nat, id: string, written: Outcome, deleted: Outcome)
    requires OthersFinished(s, t) && t !in s.calls && id in s.store.rows
    requires Current(s.store, s.store.rows[id].productId)
    ensures var p := s.store.rows[id].productId;
            var read := Step(Step(s, BeginDelete(t, id)), Move(t, Done));
            var end := Step(Step(read, Move(t, written)), Move(t, deleted));
            !Pending(end, p) && (Stale(end, p) <==> Harmful(written, deleted))
  {
    var p := s.store.rows[id].productId;
    var read := Step(Step(s, BeginDelete(t, id)), Move(t, Done));
    assert read == s.(calls := s.calls[t := Deleting(id, p)]);
    DeleteShifts(s.store.rows, id);
    WriteGoesStaleIff(read, t, p, written, deleted);
  }

  function Revised(rows: Rows, id: string, rating: int, comment: string): Rows
    requires id in rows
  {
    rows[id := rows[id].(rating := rating, comment := comment)]
  }

  lemma RatingMovesIff(rows: Rows, id: string, rating: int, comment: string)
    requires id in rows
    ensures var p := rows[id].productId;
            RatingOf(Revised(rows, id, rating, comment), p) != RatingOf(rows, p) <==> rating != rows[id].rating
  {
    UpdateShifts(rows, id, rating, comment);
    var p, more := rows[id].productId, Revised(rows, id, rating, comment);
    assert id in IdsOf(rows, p);
    var a, b, n := SumOver(rows, IdsOf(rows, p)), SumOver(more, IdsOf(more, p)), |IdsOf(rows, p)|;
    assert n > 0 && (a == b <==> rating == rows[id].rating);
  }

  lemma UpdateGoesStaleIff(
      s: Sys, t: nat, id: string, rating: int, comment: string, written: Outcome, deleted: Outcome)
    requires OthersFinished(s, t) && t !in s.calls && id in s.store.rows && id != "" && 1 <= rating <= 5
    requires Current(s.store, s.store.rows[id].productId)
    ensures var p := s.store.rows[id].productId;
            var read := Step(Step(s, BeginUpdate(t, id, rating, comment)), Move(t, Done));
            var end := Step(Step(read, Move(t, written)), Move(t, deleted));
            && !Pending(end, p)
            && (Stale(end, p) <==> rating != s.store.rows[id].rating && Harmful(written, deleted))
  {
    var p := s.store.rows[id].productId;
    var read := Step(Step(s, BeginUpdate(t, id, rating, comment)), Move(t, Done));
    assert read == s.(calls := s.calls[t := Writing(id, p, rating, comment)]);
    RatingMovesIff(s.store.rows, id, rating, comment);
    WriteGoesStaleIff(read, t, p, written, deleted);
  }

  // ---- What an unsafe fill does --------------------------------------------------------------

  /** A reader that queries before an update and fills after the updater
      deleted the entry leaves the old rating in the cache, with no writer left to delete it. */
  lemma UnsafeFillGoesStale(s: Sys, id: string, rating: int, comment: string)
    requires s.calls == map[] && id in s.store.rows && id != "" && s.store.rows[id].productId != ""
    requires s.store.rows[id].productId !in s.store.cache && 1 <= rating <= 5 && rating != s.store.rows[id].rating
    ensures var p := s.store.rows[id].productId;
            var deleted := UpdateOvertakes(s, id, rating, comment);
            var filled := Step(deleted, Move(0, Done));
            && !SafeFill(deleted, deleted.calls[0]) && !Pending(filled, p)
            && p in filled.store.cache && filled.store.cache[p] == RatingOf(s.store.rows, p)
            && filled.store.cache[p] != RatingOf(filled.store.rows, p)
  {
    var p, stamp := s.store.rows[id].productId, |s.store.touched|;
    RatingMovesIff(s.store.rows, id, rating, comment);
    ReaderQueries(s, p);
    UpdaterFinishes(ReaderQueried(s, p), id, rating, comment);
    LateFill(UpdateOvertakes(s, id, rating, comment), RatingOf(s.store.rows, p), stamp);
  }

  lemma LateFill(s: Sys, r: Rating, stamp: nat)
    requires s.calls == map[0 := Filling(r, stamp), 1 := Finished(None)]
    requires |s.store.touched| == stamp + 1 && s.store.touched[stamp] == r.productId
    ensures !SafeFill(s, s.calls[0])
    ensures var filled := Step(s, Move(0, Done));
            !Pending(filled, r.productId) && filled.store.cache == s.store.cache[r.productId := r] &&
            filled.store.rows == s.store.rows
  {
  }

  ghost function ReaderQueried(s: Sys, p: string): Sys {
    Step(Step(Step(s, BeginRating(0, p)), Move(0, Done)), Move(0, Done))
  }

  ghost function UpdaterFinished(s: Sys, id: string, rating: int, comment: string): Sys {
    var written := Step(Step(Step(s, BeginUpdate(1, id, rating, comment)), Move(1, Done)), Move(1, Done));
    Step(Step(written, Move(1, Done)), Move(1, Done))
  }

  ghost function UpdateOvertakes(s: Sys, id: string, rating: int, comment: string): Sys
    requires id in s.store.rows
  {
    UpdaterFinished(ReaderQueried(s, s.store.rows[id].productId), id, rating, comment)
  }

  lemma ReaderQueries(s: Sys, p: string)
    requires 0 !in s.calls && p != "" && p !in s.store.cache
    ensures ReaderQueried(s, p) == s.(calls := s.calls[0 := Filling(RatingOf(s.store.rows, p), |s.store.touched|)])
  {
  }

  lemma UpdaterFinishes(s: Sys, id: string, rating: int, comment: string)
    requires 1 !in s.calls && id in s.store.rows && id != "" && 1 <= rating <= 5
    ensures var s' := UpdaterFinished(s, id, rating, comment);
            var p := s.store.rows[id].productId;
            && s'.store.rows == s.store.rows[id := s.store.rows[id].(rating := rating, comment := comment)]
            && s'.store.touched == s.store.touched + [p] && s'.store.cache == s.store.cache - {p}
            && s'.calls == s.calls[1 := Finished(None)]
  {
  }
}
