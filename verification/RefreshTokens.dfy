/** Refresh tokens and password resets. A call is a chain of remote calls and may stop after any of
    them; calls interleave freely. Tokens are stored under their hash, and the program ignores the
    result of every delete. */
module RefreshTokens {
  import opened Prelude

  const REFRESH_LIFE := 30 * 24 * 60 * 60 * 1_000_000_000
  const RESET_LIFE := 60 * 60 * 1_000_000_000

  datatype Token = Token(userId: string, expiresAt: int)

  datatype ResetToken = ResetToken(hash: string, expiresAt: int)

  /** emails finds the user of an address; tokens is keyed by hash. issued maps every string ever
      stored to its user; accepted logs the strings that refreshes accepted, kept those among them
      whose delete then failed. */
  datatype Store = Store(
    users: set<string>, emails: map<string, string>, tokens: map<string, Token>, resets: map<string, ResetToken>, clock: int,
    issued: map<string, string>, accepted: seq<string>, kept: seq<string>)

  datatype Reply = Refused | Finished | Granted(userId: string, token: string)

  /** Where a call is: the remote call it makes next. */
  datatype Call =
    | Registering(userId: string, email: string)
    | Inserting(userId: string, email: string)
    | LoggingIn(email: string)
    | Saving(userId: string)
    | Finding(raw: string)
    | Purging(raw: string)
    | Checking(raw: string, userId: string)
    | Rotating(raw: string, userId: string)
    | DroppingOne(userId: string, raw: string)
    | DroppingAll(userId: string)
    | Forgetting(email: string)
    | Offering(userId: string)
    | Matching(userId: string, raw: string)
    | Rewriting(userId: string)
    | Clearing(userId: string)
    | Returned(reply: Reply)

  /** What the environment decides for a remote call; drawn is a string from a random source. */
  datatype Choice = Choice(outcome: Outcome, drawn: string)

  ghost predicate Injective(hash: string -> string) {
    forall a, b | hash(a) == hash(b) :: a == b
  }

  function Save(hash: string -> string, s: Store, userId: string, drawn: string, o: Outcome): Store {
    if o.Lost? then s
    else
      s.(tokens := s.tokens[hash(drawn) := Token(userId, s.clock + REFRESH_LIFE)],
         issued := s.issued[drawn := userId])
  }

  function DeleteOne(hash: string -> string, s: Store, raw: string, o: Outcome): Store {
    if o.Lost? then s else s.(tokens := s.tokens - {hash(raw)})
  }

  function HashesOf(s: Store, userId: string): set<string> {
    set h | h in s.tokens && s.tokens[h].userId == userId
  }

  function DeleteAll(s: Store, userId: string, o: Outcome): Store {
    if o.Lost? then s else s.(tokens := s.tokens - HashesOf(s, userId))
  }

  predicate ResetMatches(hash: string -> string, s: Store, userId: string, raw: string) {
    && userId in s.users && userId in s.resets
    && s.resets[userId].hash == hash(raw) && s.resets[userId].expiresAt > s.clock
  }

  function Advance(hash: string -> string, s: Store, call: Call, c: Choice): (Store, Call) {
    var o := c.outcome;
    match call
    case Registering(u, email) =>
      // A failed lookup is taken for an unknown address.
      (s, if o.Done? && email in s.emails then Returned(Refused) else Inserting(u, email))
    case Inserting(u, email) =>
      // The primary key and the unique constraint on the address.
      if u in s.users || email in s.emails then (s, Returned(Refused))
      else
        (if o.Lost? then s else s.(users := s.users + {u}, emails := s.emails[email := u]),
         if o.Done? then Saving(u) else Returned(Refused))
    case LoggingIn(email) =>
      (s, if o.Done? && email in s.emails then Saving(s.emails[email]) else Returned(Refused))
    case Saving(u) =>
      // A random string does not repeat one that was stored before.
      if c.drawn in s.issued then (s, Returned(Refused))
      else (Save(hash, s, u, c.drawn, o), Returned(if o.Done? then Granted(u, c.drawn) else Refused))
    case Finding(raw) =>
      (s, if !o.Done? || hash(raw) !in s.tokens then Returned(Refused)
          else if s.clock > s.tokens[hash(raw)].expiresAt then Purging(raw)
          else Checking(raw, s.tokens[hash(raw)].userId))
    case Purging(raw) => (DeleteOne(hash, s, raw, o), Returned(Refused))
    case Checking(raw, u) =>
      if !o.Done? || u !in s.users then (s, Returned(Refused))
      else (s.(accepted := s.accepted + [raw]), Rotating(raw, u))
    case Rotating(raw, u) =>
      (DeleteOne(hash, if o.Lost? then s.(kept := s.kept + [raw]) else s, raw, o), Saving(u))
    case DroppingOne(u, raw) => (DeleteOne(hash, s, raw, o), DroppingAll(u))
    case DroppingAll(u) => (DeleteAll(s, u, o), Returned(Finished))
    case Forgetting(email) =>
      // An unknown address is answered like a known one.
      (s, if o.Done? && email in s.emails then Offering(s.emails[email]) else Returned(Finished))
    case Offering(u) =>
      (if o.Lost? then s else s.(resets := s.resets[u := ResetToken(hash(c.drawn), s.clock + RESET_LIFE)]),
       Returned(if o.Done? then Finished else Refused))
    case Matching(u, raw) => (s, if o.Done? && ResetMatches(hash, s, u, raw) then Rewriting(u) else Returned(Refused))
    case Rewriting(u) => (s, if o.Done? then Clearing(u) else Returned(Refused))
    case Clearing(u) => (if o.Lost? then s else s.(resets := s.resets - {u}), DroppingAll(u))
    case Returned(_) => (s, call)
  }

  function StartLogout(userId: string, raw: string): Call {
    if raw != "" then DroppingOne(userId, raw) else DroppingAll(userId)
  }

  predicate Opens(call: Call) {
    call.Registering? || call.LoggingIn? || call.Finding? || call.DroppingOne? || call.DroppingAll? ||
    call.Forgetting? || call.Matching?
  }

  datatype Sys = Sys(store: Store, calls: map<nat, Call>)

  datatype Action =
    | Tick(d: nat)
    | Begin(t: nat, call: Call)
    | Move(t: nat, choice: Choice)

  const INITIAL := Sys(Store({}, map[], map[], map[], 0, map[], [], []), map[])

  function Step(hash: string -> string, s: Sys, a: Action): Sys {
    match a
    case Tick(d) => s.(store := s.store.(clock := s.store.clock + d))
    case Begin(t, call) => if t in s.calls || !Opens(call) then s else s.(calls := s.calls[t := call])
    case Move(t, c) =>
      if t !in s.calls then s
      else
        var (store, call) := Advance(hash, s.store, s.calls[t], c);
        Sys(store, s.calls[t := call])
  }

  function RunFrom(hash: string -> string, s: Sys, actions: seq<Action>): Sys {
    if actions == [] then s
    else Step(hash, RunFrom(hash, s, actions[..|actions| - 1]), actions[|actions| - 1])
  }

  function Run(hash: string -> string, actions: seq<Action>): Sys {
    RunFrom(hash, INITIAL, actions)
  }

  // ---- In every interleaving: stored tokens are issued strings of their user -----------------

  function Count(log: seq<string>, raw: string): nat {
    if log == [] then 0 else Count(log[..|log| - 1], raw) + if log[|log| - 1] == raw then 1 else 0
  }

  /** The call has read the token's row and has not deleted it yet. */
  predicate InUse(call: Call, raw: string) {
    (call.Checking? || call.Rotating?) && call.raw == raw
  }

  ghost predicate StoreOk(hash: string -> string, s: Store, raw: string) {
    if raw in s.issued then hash(raw) in s.tokens ==> s.tokens[hash(raw)].userId == s.issued[raw]
    else hash(raw) !in s.tokens && Count(s.accepted, raw) == Count(s.kept, raw) == 0
  }

  ghost predicate OwnInv(hash: string -> string, s: Sys, raw: string) {
    StoreOk(hash, s.store, raw) && forall t | t in s.calls && InUse(s.calls[t], raw) :: raw in s.store.issued
  }

  /** Only a call that uses a string changes how often it was accepted or kept. */
  lemma AdvanceCounts(hash: string -> string, s: Store, call: Call, c: Choice, raw: string)
    ensures var after := Advance(hash, s, call, c).0;
            var accepts := call.Checking? && call.raw == raw && c.outcome.Done? && call.userId in s.users;
            var keeps := call.Rotating? && call.raw == raw && c.outcome.Lost?;
            && Count(after.accepted, raw) == Count(s.accepted, raw) + (if accepts then 1 else 0)
            && Count(after.kept, raw) == Count(s.kept, raw) + (if keeps then 1 else 0)
  {
  }

  /** A string's row appears only when the string is first issued. */
  lemma AdvanceTokens(hash: string -> string, s: Store, call: Call, c: Choice, raw: string)
    requires Injective(hash)
    ensures var after := Advance(hash, s, call, c).0;
            && (raw in s.issued ==> raw in after.issued && after.issued[raw] == s.issued[raw])
            && (raw in s.issued && hash(raw) in after.tokens ==>
                  hash(raw) in s.tokens && after.tokens[hash(raw)] == s.tokens[hash(raw)])
            && (raw !in s.issued && raw in after.issued ==>
                  hash(raw) in after.tokens && after.tokens[hash(raw)].userId == after.issued[raw])
            && (raw !in s.issued && raw !in after.issued && hash(raw) in after.tokens ==> hash(raw) in s.tokens)
  {
  }

  lemma OwnMove(hash: string -> string, s: Sys, t: nat, c: Choice, raw: string)
    requires Injective(hash) && OwnInv(hash, s, raw) && t in s.calls
    ensures OwnInv(hash, Step(hash, s, Move(t, c)), raw)
  {
    AdvanceCounts(hash, s.store, s.calls[t], c, raw);
    AdvanceTokens(hash, s.store, s.calls[t], c, raw);
  }

  lemma {:induction false} OwnAlways(hash: string -> string, actions: seq<Action>, raw: string)
    requires Injective(hash)
    ensures OwnInv(hash, Run(hash, actions), raw)
  {
    if actions != [] {
      var before, a := actions[..|actions| - 1], actions[|actions| - 1];
      OwnAlways(hash, before, raw);
      var s := Run(hash, before);
      if a.Move? && a.t in s.calls { OwnMove(hash, s, a.t, a.choice, raw); }
    }
  }

  // ---- Single use ----------------------------------------------------------------------------

  ghost predicate OneUse(s: Sys, raw: string) {
    forall t, u | t in s.calls && u in s.calls && InUse(s.calls[t], raw) && InUse(s.calls[u], raw) :: t == u
  }

  /** In no state of the run do two refreshes use the string; everything else may overlap. */
  ghost predicate Serial(hash: string -> string, actions: seq<Action>, raw: string) {
    actions == [] || (Serial(hash, actions[..|actions| - 1], raw) && OneUse(Run(hash, actions), raw))
  }

  /** How often the string was accepted, given what the call that uses it is about to do. */
  ghost predicate Used(s: Store, call: Call, raw: string) {
    InUse(call, raw) ==> Count(s.accepted, raw) == Count(s.kept, raw) + if call.Rotating? then 1 else 0
  }

  ghost predicate Idle(hash: string -> string, s: Store, raw: string) {
    && Count(s.accepted, raw) <= Count(s.kept, raw) + 1
    && (hash(raw) in s.tokens ==> Count(s.accepted, raw) == Count(s.kept, raw))
  }

  ghost predicate Unused(s: Sys, raw: string) {
    forall t | t in s.calls :: !InUse(s.calls[t], raw)
  }

  ghost predicate UseInv(hash: string -> string, s: Sys, raw: string) {
    (forall t | t in s.calls :: Used(s.store, s.calls[t], raw)) && (Unused(s, raw) ==> Idle(hash, s.store, raw))
  }

  lemma IdleAdvance(hash: string -> string, s: Store, call: Call, c: Choice, raw: string)
    requires Injective(hash) && StoreOk(hash, s, raw) && Idle(hash, s, raw) && !InUse(call, raw)
    ensures var (after, next) := Advance(hash, s, call, c); Idle(hash, after, raw) && Used(after, next, raw)
  {
    AdvanceCounts(hash, s, call, c, raw);
    AdvanceTokens(hash, s, call, c, raw);
  }

  lemma UseAdvance(hash: string -> string, s: Store, call: Call, c: Choice, raw: string)
    requires InUse(call, raw) && Used(s, call, raw)
    ensures var (after, next) := Advance(hash, s, call, c);
            if InUse(next, raw) then Used(after, next, raw) else Idle(hash, after, raw)
  {
    AdvanceCounts(hash, s, call, c, raw);
  }

  /** A call's step leaves the count of a string that another call uses alone. */
  lemma OthersUsed(hash: string -> string, s: Store, call: Call, c: Choice, other: Call, raw: string)
    requires Used(s, other, raw) && !InUse(call, raw)
    ensures Used(Advance(hash, s, call, c).0, other, raw)
  {
    AdvanceCounts(hash, s, call, c, raw);
  }

  lemma UserMove(hash: string -> string, s: Sys, t: nat, c: Choice, raw: string)
    requires UseInv(hash, s, raw) && t in s.calls && InUse(s.calls[t], raw) && OneUse(s, raw)
    ensures UseInv(hash, Step(hash, s, Move(t, c)), raw)
  {
    var (after, next) := Advance(hash, s.store, s.calls[t], c);
    var calls := s.calls[t := next];
    assert Used(s.store, s.calls[t], raw);
    UseAdvance(hash, s.store, s.calls[t], c, raw);
    forall u | u in calls && u != t ensures !InUse(calls[u], raw) { assert calls[u] == s.calls[u]; }
    assert InUse(next, raw) ==> !Unused(Sys(after, calls), raw) by { assert calls[t] == next; }
  }

  lemma OtherMove(hash: string -> string, s: Sys, t: nat, c: Choice, raw: string)
    requires Injective(hash) && OwnInv(hash, s, raw) && UseInv(hash, s, raw)
    requires t in s.calls && !InUse(s.calls[t], raw) && OneUse(Step(hash, s, Move(t, c)), raw)
    ensures UseInv(hash, Step(hash, s, Move(t, c)), raw)
  {
    var (after, next) := Advance(hash, s.store, s.calls[t], c);
    var s' := Step(hash, s, Move(t, c));
    assert s' == Sys(after, s.calls[t := next]);
    forall u | u in s'.calls && u != t ensures Used(after, s'.calls[u], raw) {
      OthersUsed(hash, s.store, s.calls[t], c, s.calls[u], raw);
    }
    if Unused(s, raw) {
      IdleAdvance(hash, s.store, s.calls[t], c, raw);
    } else {
      var u :| u in s.calls && InUse(s.calls[u], raw);
      assert s'.calls[u] == s.calls[u] && s'.calls[t] == next;
    }
  }

  lemma UseMove(hash: string -> string, s: Sys, t: nat, c: Choice, raw: string)
    requires Injective(hash) && OwnInv(hash, s, raw) && UseInv(hash, s, raw) && t in s.calls
    requires OneUse(s, raw) && OneUse(Step(hash, s, Move(t, c)), raw)
    ensures UseInv(hash, Step(hash, s, Move(t, c)), raw)
  {
    if InUse(s.calls[t], raw) { UserMove(hash, s, t, c, raw); } else { OtherMove(hash, s, t, c, raw); }
  }

  lemma UseAside(hash: string -> string, s: Sys, a: Action, raw: string)
    requires UseInv(hash, s, raw) && (a.Move? ==> a.t !in s.calls)
    ensures UseInv(hash, Step(hash, s, a), raw)
  {
    var s' := Step(hash, s, a);
    if Unused(s', raw) {
      forall t | t in s.calls ensures !InUse(s.calls[t], raw) { assert s'.calls[t] == s.calls[t]; }
    }
    forall t | t in s'.calls ensures Used(s'.store, s'.calls[t], raw) {
      if t in s.calls { assert Used(s.store, s.calls[t], raw); }
    }
  }

  /** With uses of a string not overlapping: it is accepted at most once, and once more for each time
      that deleting it failed. */
  lemma {:induction false} AcceptedAtMostOnce(hash: string -> string, actions: seq<Action>, raw: string)
    requires Injective(hash) && Serial(hash, actions, raw)
    ensures var s := Run(hash, actions);
            UseInv(hash, s, raw) && OneUse(s, raw) && Count(s.store.accepted, raw) <= 1 + Count(s.store.kept, raw)
  {
    if actions != [] {
      var before, a := actions[..|actions| - 1], actions[|actions| - 1];
      AcceptedAtMostOnce(hash, before, raw);
      OwnAlways(hash, before, raw);
      var s := Run(hash, before);
      if a.Move? && a.t in s.calls { UseMove(hash, s, a.t, a.choice, raw); } else { UseAside(hash, s, a, raw); }
      AtMostOneMore(hash, Run(hash, actions), raw);
    }
  }

  lemma AtMostOneMore(hash: string -> string, s: Sys, raw: string)
    requires UseInv(hash, s, raw)
    ensures Count(s.store.accepted, raw) <= 1 + Count(s.store.kept, raw)
  {
  }

  /** Whether a refresh that reads now will be accepted if its user's read works. */
  predicate Accepts(hash: string -> string, s: Store, raw: string) {
    hash(raw) in s.tokens && s.clock <= s.tokens[hash(raw)].expiresAt && s.tokens[hash(raw)].userId in s.users
  }

  /** Why uses must not overlap: two refreshes that both read the row first are both accepted, though
      every delete works. */
  lemma OverlapAcceptsTwice(hash: string -> string, s: Sys, raw: string, go: Choice)
    requires s.calls == map[] && Accepts(hash, s.store, raw) && go.outcome.Done?
    ensures var begun := Step(hash, Step(hash, s, Begin(0, Finding(raw))), Begin(1, Finding(raw)));
            var found := Step(hash, Step(hash, begun, Move(0, go)), Move(1, go));
            var checked := Step(hash, Step(hash, found, Move(0, go)), Move(1, go));
            && !OneUse(found, raw)
            && checked.store.accepted == s.store.accepted + [raw, raw] && checked.store.kept == s.store.kept
  {
  }

  // ---- Revocation ----------------------------------------------------------------------------

  /** No refresh that has read the string's row has still to accept it. */
  ghost predicate Unread(s: Sys, raw: string) {
    forall t | t in s.calls :: !(s.calls[t].Checking? && s.calls[t].raw == raw)
  }

  /** The string was issued, is no longer stored and will not be accepted on an earlier reading. */
  ghost predicate Dead(hash: string -> string, s: Sys, raw: string) {
    raw in s.store.issued && hash(raw) !in s.store.tokens && Unread(s, raw)
  }

  lemma DeadStep(hash: string -> string, s: Sys, a: Action, raw: string)
    requires Injective(hash) && Dead(hash, s, raw)
    ensures var later := Step(hash, s, a);
            Dead(hash, later, raw) && Count(later.store.accepted, raw) == Count(s.store.accepted, raw)
  {
    if a.Move? && a.t in s.calls {
      AdvanceCounts(hash, s.store, s.calls[a.t], a.choice, raw);
      AdvanceTokens(hash, s.store, s.calls[a.t], a.choice, raw);
    }
  }

  lemma {:induction false} DeadForGood(hash: string -> string, s: Sys, more: seq<Action>, raw: string)
    requires Injective(hash) && Dead(hash, s, raw)
    ensures var later := RunFrom(hash, s, more);
            Dead(hash, later, raw) && Count(later.store.accepted, raw) == Count(s.store.accepted, raw)
  {
    if more != [] {
      var n := |more| - 1;
      DeadForGood(hash, s, more[..n], raw);
      DeadStep(hash, RunFrom(hash, s, more[..n]), more[n], raw);
    }
  }

  /** In every interleaving: once a logout or a password reset has deleted the user's tokens, a string
      issued to the user before is never accepted again, if no refresh is just reading it. */
  lemma {:induction false} RevocationIsFinal(
      hash: string -> string, actions: seq<Action>, t: nat, c: Choice, more: seq<Action>, raw: string)
    requires Injective(hash) && !c.outcome.Lost?
    requires var s := Run(hash, actions);
             && t in s.calls && raw in s.store.issued && s.calls[t] == DroppingAll(s.store.issued[raw])
             && Unread(s, raw)
    ensures var s := Run(hash, actions);
            var later := RunFrom(hash, Step(hash, s, Move(t, c)), more);
            Count(later.store.accepted, raw) == Count(s.store.accepted, raw) && !Accepts(hash, later.store, raw)
  {
    var s := Run(hash, actions);
    OwnAlways(hash, actions, raw);
    AdvanceCounts(hash, s.store, s.calls[t], c, raw);
    var revoked := Step(hash, s, Move(t, c));
    assert revoked.calls == s.calls[t := Returned(Finished)];
    DeadForGood(hash, revoked, more, raw);
  }

  /** And only if: a refresh that has read the string's row is still accepted after the revocation. */
  lemma RevocationMissesAReader(hash: string -> string, s: Sys, t: nat, u: nat, c: Choice, go: Choice)
    requires t in s.calls && u in s.calls && s.calls[t].DroppingAll? && s.calls[u].Checking?
    requires s.calls[u].userId in s.store.users && go.outcome.Done?
    ensures var raw := s.calls[u].raw;
            var later := Step(hash, Step(hash, s, Move(t, c)), Move(u, go));
            Count(later.store.accepted, raw) == Count(s.store.accepted, raw) + 1
  {
    var revoked := Step(hash, s, Move(t, c));
    AdvanceCounts(hash, s.store, s.calls[t], c, s.calls[u].raw);
    assert revoked.calls[u] == s.calls[u];
    AdvanceCounts(hash, revoked.store, s.calls[u], go, s.calls[u].raw);
  }

  // ---- A call that runs alone ----------------------------------------------------------------

  function Distance(call: Call): nat {
    match call
    case Returned(_) => 0
    case Saving(_) => 1
    case Purging(_) => 1
    case DroppingAll(_) => 1
    case Offering(_) => 1
    case Forgetting(_) => 2
    case Inserting(_, _) => 2
    case Registering(_, _) => 3
    case LoggingIn(_) => 2
    case Rotating(_, _) => 2
    case DroppingOne(_, _) => 2
    case Clearing(_) => 2
    case Checking(_, _) => 3
    case Rewriting(_) => 3
    case Finding(_) => 4
    case Matching(_, _) => 4
  }

  /** The store and the reply when a call runs alone; env(k) decides its k-th remote call. */
  function Complete(hash: string -> string, s: Store, call: Call, env: nat -> Choice, k: nat): (Store, Reply)
    decreases Distance(call)
  {
    if call.Returned? then (s, call.reply)
    else
      var (after, next) := Advance(hash, s, call, env(k));
      Complete(hash, after, next, env, k + 1)
  }

  lemma Unfold(hash: string -> string, s: Store, call: Call, env: nat -> Choice, k: nat)
    requires !call.Returned?
    ensures var (after, next) := Advance(hash, s, call, env(k));
            && Complete(hash, s, call, env, k) == Complete(hash, after, next, env, k + 1)
            && (next.Returned? ==> Complete(hash, s, call, env, k) == (after, next.reply))
  {
  }

  // ---- A client that calls one method at a time ----------------------------------------------

  ghost predicate AllSerial(hash: string -> string, actions: seq<Action>) {
    forall raw :: Serial(hash, actions, raw)
  }

  /** No other call has read a token's row that it has still to delete. */
  ghost predicate Quiet(s: Sys, t: nat) {
    forall u | u in s.calls && u != t :: !s.calls[u].Checking? && !s.calls[u].Rotating?
  }

  lemma QuietIsOneUse(s: Sys, t: nat, raw: string)
    requires Quiet(s, t)
    ensures OneUse(s, raw)
  {
  }

  lemma OneMove(hash: string -> string, actions: seq<Action>, t: nat, c: Choice)
    requires AllSerial(hash, actions) && t in Run(hash, actions).calls && Quiet(Run(hash, actions), t)
    ensures var more := actions + [Move(t, c)]; var s := Run(hash, actions);
            var (after, next) := Advance(hash, s.store, s.calls[t], c);
            Run(hash, more) == Sys(after, s.calls[t := next]) && Quiet(Run(hash, more), t) && AllSerial(hash, more)
  {
    var more := actions + [Move(t, c)];
    assert more[..|actions|] == actions;
    forall raw ensures Serial(hash, more, raw) {
      assert Serial(hash, actions, raw);
      QuietIsOneUse(Run(hash, more), t, raw);
    }
  }

  lemma {:induction false} CompleteIsARun(hash: string -> string, actions: seq<Action>, env: nat -> Choice, k: nat, t: nat)
    returns (more: seq<Action>)
    requires AllSerial(hash, actions) && t in Run(hash, actions).calls && Quiet(Run(hash, actions), t)
    ensures var s := Run(hash, actions);
            var (after, reply) := Complete(hash, s.store, s.calls[t], env, k);
            Run(hash, actions + more) == Sys(after, s.calls[t := Returned(reply)]) && AllSerial(hash, actions + more)
    ensures forall a | a in more :: a.Move? && a.t == t
    decreases Distance(Run(hash, actions).calls[t])
  {
    var s := Run(hash, actions);
    if s.calls[t].Returned? {
      more := [];
      assert actions + [] == actions;
      SetSame(s.calls, t);
    } else {
      var a := Move(t, env(k));
      OneMove(hash, actions, t, env(k));
      var rest := CompleteIsARun(hash, actions + [a], env, k + 1, t);
      more := [a] + rest;
      Extended(actions, a, rest);
      Unfold(hash, s.store, s.calls[t], env, k);
      var (after, next) := Advance(hash, s.store, s.calls[t], env(k));
      SetTwice(s.calls, t, next, Returned(Complete(hash, after, next, env, k + 1).1));
    }
  }

  /** A method call made when no other is under way is a stretch of a run that stays serial, so what
      holds of all such runs holds of every such client. */
  lemma MethodCallIsARun(hash: string -> string, actions: seq<Action>, t: nat, call: Call, env: nat -> Choice)
    returns (more: seq<Action>)
    requires AllSerial(hash, actions) && t !in Run(hash, actions).calls && Opens(call)
    requires forall u | u in Run(hash, actions).calls :: Run(hash, actions).calls[u].Returned?
    ensures var done := actions + [Begin(t, call)] + more;
            var (after, reply) := Complete(hash, Run(hash, actions).store, call, env, 0);
            && AllSerial(hash, done)
            && Run(hash, done) == Sys(after, Run(hash, actions).calls[t := Returned(reply)])
    ensures forall a | a in more :: a.Move? && a.t == t
  {
    var begun := actions + [Begin(t, call)];
    assert begun[..|actions|] == actions;
    forall raw ensures Serial(hash, begun, raw) {
      assert Serial(hash, actions, raw);
      QuietIsOneUse(Run(hash, begun), t, raw);
    }
    more := CompleteIsARun(hash, begun, env, 0, t);
    SetTwice(Run(hash, actions).calls, t, call, Run(hash, begun + more).calls[t]);
  }

  /** The store after a refresh of a stored token whose delete takes effect. */
  function Rotated(hash: string -> string, s: Store, raw: string, drawn: string, o: Outcome): Store
    requires hash(raw) in s.tokens
  {
    Save(hash, s.(accepted := s.accepted + [raw], tokens := s.tokens - {hash(raw)}), s.tokens[hash(raw)].userId, drawn, o)
  }

  lemma RotationRuns(hash: string -> string, s: Store, raw: string, env: nat -> Choice)
    requires Accepts(hash, s, raw) && env(0).outcome.Done? && env(1).outcome.Done? && !env(2).outcome.Lost?
    requires env(3).drawn !in s.issued
    ensures Complete(hash, s, Finding(raw), env, 0) ==
            (Rotated(hash, s, raw, env(3).drawn, env(3).outcome),
             if env(3).outcome.Done? then Granted(s.tokens[hash(raw)].userId, env(3).drawn) else Refused)
  {
    var u := s.tokens[hash(raw)].userId;
    Unfold(hash, s, Finding(raw), env, 0);
    Unfold(hash, s, Checking(raw, u), env, 1);
    var s1 := s.(accepted := s.accepted + [raw]);
    Unfold(hash, s1, Rotating(raw, u), env, 2);
    Unfold(hash, s1.(tokens := s.tokens - {hash(raw)}), Saving(u), env, 3);
  }

  lemma RotatedCounts(hash: string -> string, s: Store, raw: string, drawn: string, o: Outcome)
    requires Injective(hash) && Accepts(hash, s, raw) && !o.Lost?
    requires drawn !in s.issued && raw in s.issued && StoreOk(hash, s, drawn)
    ensures var after, u := Rotated(hash, s, raw, drawn, o), s.tokens[hash(raw)].userId;
            && HashesOf(after, u) == HashesOf(s, u) - {hash(raw)} + {hash(drawn)}
            && |HashesOf(after, u)| == |HashesOf(s, u)|
            && !Accepts(hash, after, raw) && Accepts(hash, after, drawn)
  {
    var after, u := Rotated(hash, s, raw, drawn, o), s.tokens[hash(raw)].userId;
    assert hash(raw) != hash(drawn);
    assert HashesOf(after, u) == HashesOf(s, u) - {hash(raw)} + {hash(drawn)};
    assert hash(raw) in HashesOf(s, u) && hash(drawn) !in HashesOf(s, u);
  }

  /** A refresh that nothing disturbs replaces the token it was given by another of the same user. */
  lemma RotationKeepsCount(hash: string -> string, s: Store, raw: string, env: nat -> Choice)
    requires Injective(hash) && Accepts(hash, s, raw) && env(0).outcome.Done? && env(1).outcome.Done?
    requires !env(2).outcome.Lost? && !env(3).outcome.Lost?
    requires env(3).drawn !in s.issued && raw in s.issued && StoreOk(hash, s, env(3).drawn)
    ensures var (after, reply) := Complete(hash, s, Finding(raw), env, 0);
            var u, drawn := s.tokens[hash(raw)].userId, env(3).drawn;
            && reply == (if env(3).outcome.Done? then Granted(u, drawn) else Refused)
            && HashesOf(after, u) == HashesOf(s, u) - {hash(raw)} + {hash(drawn)}
            && |HashesOf(after, u)| == |HashesOf(s, u)|
            && !Accepts(hash, after, raw) && Accepts(hash, after, drawn)
  {
    RotationRuns(hash, s, raw, env);
    RotatedCounts(hash, s, raw, env(3).drawn, env(3).outcome);
  }

  // ---- The program ---------------------------------------------------------------------------

  class UserService {
    const hash: string -> string
    var users: set<string>
    var emails: map<string, string>
    var tokens: map<string, Token>
    var resets: map<string, ResetToken>
    var clock: int
    ghost var issued: map<string, string>
    ghost var accepted: seq<string>
    ghost var kept: seq<string>

    constructor (hash: string -> string)
      ensures this.hash == hash && Observed() == INITIAL.store
    {
      this.hash := hash;
      users, emails, tokens, resets, clock := {}, map[], map[], map[], 0;
      issued, accepted, kept := map[], [], [];
    }

    ghost function Observed(): Store
      reads this
    {
      Store(users, emails, tokens, resets, clock, issued, accepted, kept)
    }

    method SaveRefreshToken(userId: string, drawn: string, o: Outcome) returns (ok: bool)
      modifies this`tokens, this`issued
      ensures ok == o.Done? && Observed() == Save(hash, old(Observed()), userId, drawn, o)
    {
      if !o.Lost? {
        tokens := tokens[hash(drawn) := Token(userId, clock + REFRESH_LIFE)];
        issued := issued[drawn := userId];
      }
      ok := o.Done?;
    }

    method DeleteRefreshToken(raw: string, o: Outcome)
      modifies this`tokens
      ensures Observed() == DeleteOne(hash, old(Observed()), raw, o)
    {
      if !o.Lost? { tokens := tokens - {hash(raw)}; }
    }

    method DeleteUserRefreshTokens(userId: string, o: Outcome)
      modifies this`tokens
      ensures Observed() == DeleteAll(old(Observed()), userId, o)
    {
      if !o.Lost? { tokens := tokens - (set h | h in tokens && tokens[h].userId == userId); }
    }

    method GenerateTokenPair(userId: string, env: nat -> Choice, k: nat) returns (reply: Reply)
      requires env(k).drawn !in issued
      modifies this
      ensures (Observed(), reply) == Complete(hash, old(Observed()), Saving(userId), env, k)
      ensures reply.Granted? <==> env(k).outcome.Done?
    {
      Unfold(hash, Observed(), Saving(userId), env, k);
      var ok := SaveRefreshToken(userId, env(k).drawn, env(k).outcome);
      reply := if ok then Granted(userId, env(k).drawn) else Refused;
    }

    /** userId is a new identifier. */
    method Register(userId: string, email: string, env: nat -> Choice) returns (reply: Reply)
      requires userId !in users && env(2).drawn !in issued
      modifies this
      ensures (Observed(), reply) == Complete(hash, old(Observed()), Registering(userId, email), env, 0)
    {
      Unfold(hash, Observed(), Registering(userId, email), env, 0);
      if env(0).outcome.Done? && email in emails { return Refused; }
      reply := CreateUser(userId, email, env);
    }

    method CreateUser(userId: string, email: string, env: nat -> Choice) returns (reply: Reply)
      requires userId !in users && env(2).drawn !in issued
      modifies this
      ensures (Observed(), reply) == Complete(hash, old(Observed()), Inserting(userId, email), env, 1)
    {
      Unfold(hash, Observed(), Inserting(userId, email), env, 1);
      if email in emails { return Refused; }
      if !env(1).outcome.Lost? { users, emails := users + {userId}, emails[email := userId]; }
      if !env(1).outcome.Done? { return Refused; }
      reply := GenerateTokenPair(userId, env, 2);
    }

    /** A login that gets past the limiter and the password check. */
    method Login(email: string, env: nat -> Choice) returns (reply: Reply)
      requires env(1).drawn !in issued
      modifies this
      ensures (Observed(), reply) == Complete(hash, old(Observed()), LoggingIn(email), env, 0)
    {
      Unfold(hash, Observed(), LoggingIn(email), env, 0);
      if !env(0).outcome.Done? || email !in emails { return Refused; }
      reply := GenerateTokenPair(emails[email], env, 1);
    }

    /** The second half of a refresh: from reading the user on. */
    method Rotate(raw: string, userId: string, env: nat -> Choice) returns (reply: Reply)
      requires env(3).drawn !in issued
      modifies this
      ensures (Observed(), reply) == Complete(hash, old(Observed()), Checking(raw, userId), env, 1)
      ensures reply.Granted? <==> userId in old(users) && env(1).outcome.Done? && env(3).outcome.Done?
    {
      Unfold(hash, Observed(), Checking(raw, userId), env, 1);
      if !env(1).outcome.Done? || userId !in users { return Refused; }
      accepted := accepted + [raw];
      reply := Replace(raw, userId, env);
    }

    /** The end of a refresh: the presented token's row is deleted and a new one saved. */
    method Replace(raw: string, userId: string, env: nat -> Choice) returns (reply: Reply)
      requires env(3).drawn !in issued
      modifies this
      ensures (Observed(), reply) == Complete(hash, old(Observed()), Rotating(raw, userId), env, 2)
      ensures reply.Granted? <==> env(3).outcome.Done?
    {
      Unfold(hash, Observed(), Rotating(raw, userId), env, 2);
      if env(2).outcome.Lost? { kept := kept + [raw]; }
      DeleteRefreshToken(raw, env(2).outcome);
      reply := GenerateTokenPair(userId, env, 3);
    }

    method RefreshToken(raw: string, env: nat -> Choice) returns (reply: Reply)
      requires env(3).drawn !in issued
      modifies this
      ensures (Observed(), reply) == Complete(hash, old(Observed()), Finding(raw), env, 0)
      ensures reply.Granted? <==>
              && Accepts(hash, old(Observed()), raw)
              && env(0).outcome.Done? && env(1).outcome.Done? && env(3).outcome.Done?
    {
      Unfold(hash, Observed(), Finding(raw), env, 0);
      if !env(0).outcome.Done? || hash(raw) !in tokens { return Refused; }
      var token := tokens[hash(raw)];
      if clock > token.expiresAt {
        Unfold(hash, Observed(), Purging(raw), env, 1);
        DeleteRefreshToken(raw, env(1).outcome);
        return Refused;
      }
      reply := Rotate(raw, token.userId, env);
    }

    method LogOut(userId: string, raw: string, env: nat -> Choice) returns (reply: Reply)
      modifies this
      ensures (Observed(), reply) == Complete(hash, old(Observed()), StartLogout(userId, raw), env, 0)
    {
      ghost var k: nat := 0;
      var all := env(0).outcome;
      if raw != "" {
        Unfold(hash, Observed(), DroppingOne(userId, raw), env, 0);
        DeleteRefreshToken(raw, env(0).outcome);
        k, all := 1, env(1).outcome;
      }
      Unfold(hash, Observed(), DroppingAll(userId), env, k);
      DeleteUserRefreshTokens(userId, all);
      reply := Finished;
    }

    method ForgotPassword(email: string, env: nat -> Choice) returns (reply: Reply)
      modifies this
      ensures (Observed(), reply) == Complete(hash, old(Observed()), Forgetting(email), env, 0)
      ensures reply.Finished? <==> !(env(0).outcome.Done? && email in old(emails)) || env(1).outcome.Done?
    {
      Unfold(hash, Observed(), Forgetting(email), env, 0);
      if !env(0).outcome.Done? || email !in emails { return Finished; }
      var userId := emails[email];
      Unfold(hash, Observed(), Offering(userId), env, 1);
      if !env(1).outcome.Lost? {
        resets := resets[userId := ResetToken(hash(env(1).drawn), clock + RESET_LIFE)];
      }
      reply := if env(1).outcome.Done? then Finished else Refused;
    }

    /** userId is the user whose stored reset token the query finds. */
    method ResetPassword(userId: string, raw: string, env: nat -> Choice) returns (reply: Reply)
      modifies this
      ensures (Observed(), reply) == Complete(hash, old(Observed()), Matching(userId, raw), env, 0)
      ensures reply.Finished? <==>
              ResetMatches(hash, old(Observed()), userId, raw) && env(0).outcome.Done? && env(1).outcome.Done?
    {
      Unfold(hash, Observed(), Matching(userId, raw), env, 0);
      if !env(0).outcome.Done? || userId !in users || userId !in resets { return Refused; }
      if resets[userId].hash != hash(raw) || resets[userId].expiresAt <= clock { return Refused; }
      reply := SetPassword(userId, env);
    }

    /** The second half of a reset: the new password hash is written, the rest is never reported.
        Passwords themselves are not modelled. */
    method SetPassword(userId: string, env: nat -> Choice) returns (reply: Reply)
      modifies this
      ensures (Observed(), reply) == Complete(hash, old(Observed()), Rewriting(userId), env, 1)
      ensures reply.Finished? <==> env(1).outcome.Done?
    {
      Unfold(hash, Observed(), Rewriting(userId), env, 1);
      if !env(1).outcome.Done? { return Refused; }
      reply := Revoke(userId, env);
    }

    method Revoke(userId: string, env: nat -> Choice) returns (reply: Reply)
      modifies this
      ensures (Observed(), reply) == Complete(hash, old(Observed()), Clearing(userId), env, 2)
      ensures reply.Finished?
    {
      Unfold(hash, Observed(), Clearing(userId), env, 2);
      if !env(2).outcome.Lost? { resets := resets - {userId}; }
      Unfold(hash, Observed(), DroppingAll(userId), env, 3);
      DeleteUserRefreshTokens(userId, env(3).outcome);
      reply := Finished;
    }
  }
}
