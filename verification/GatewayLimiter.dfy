/** The gateway's fixed-window rate limiter, for one Redis key with a fixed limit and window. The
    pipeline (INCR with TTL) is one atomic step; the EXPIRE that may follow it is another. */
module GatewayLimiter {
  import opened Prelude

  /** A live Redis counter; without a deadline it does not expire. */
  datatype Entry = Entry(count: nat, deadline: Option<int>)

  datatype Verdict = Waiting | Allowed | Rejected | Failed

  /** One increment: when, in which life of the key, and the count it saw. */
  datatype Hit = Hit(at: int, life: nat, count: nat)

  /** hits and verdicts record the calls, in the order of their increments. */
  datatype State = State(entry: Option<Entry>, clock: int, lives: nat, hits: seq<Hit>, verdicts: seq<Verdict>)

  datatype Action =
    | Tick(d: nat)
    | Evict
    | Increment(outcome: Outcome)
    | Expire(call: nat, outcome: Outcome)

  datatype Config = Config(limit: nat, window: int)

  const INITIAL := State(None, 0, 0, [], [])

  function Bump(e: Option<Entry>): Entry {
    match e
    case None => Entry(1, None)
    case Some(entry) => entry.(count := entry.count + 1)
  }

  function Judge(c: Config, count: nat): Verdict {
    if count <= c.limit then Allowed else Rejected
  }

  /** The call sees the first count of a key's life, or a key without a deadline. */
  predicate NeedsExpire(e: Entry) {
    e.count == 1 || e.deadline.None?
  }

  /** The verdict right after the pipeline. */
  function FirstVerdict(c: Config, e: Entry, o: Outcome): Verdict {
    if o.Unacked? then Failed else if NeedsExpire(e) then Waiting else Judge(c, e.count)
  }

  function Step(c: Config, s: State, a: Action): State {
    match a
    case Tick(d) => s.(clock := s.clock + d)
    case Evict =>
      // Redis may drop an expired key late, never early.
      if s.entry.Some? && s.entry.value.deadline.Some? && s.clock >= s.entry.value.deadline.value then
        s.(entry := None, lives := s.lives + 1)
      else s
    case Increment(o) =>
      if o.Lost? then s
      else
        var e := Bump(s.entry);
        s.(entry := Some(e),
           hits := s.hits + [Hit(s.clock, s.lives, e.count)],
           verdicts := s.verdicts + [FirstVerdict(c, e, o)])
    case Expire(i, o) =>
      if i < |s.verdicts| && i < |s.hits| && s.verdicts[i].Waiting? then
        s.(entry := if o.Lost? || s.entry.None? then s.entry
                    else Some(s.entry.value.(deadline := Some(s.clock + c.window))),
           verdicts := s.verdicts[i := if o.Done? then Judge(c, s.hits[i].count) else Failed])
      else s
  }

  function Run(c: Config, actions: seq<Action>): State {
    if actions == [] then INITIAL
    else Step(c, Run(c, actions[..|actions| - 1]), actions[|actions| - 1])
  }

  // ---- The invariant -------------------------------------------------------------------------

  ghost predicate Ordered(hits: seq<Hit>) {
    forall i, j | 0 <= i < j < |hits| ::
      hits[i].at <= hits[j].at && hits[i].life <= hits[j].life &&
      (hits[i].life == hits[j].life ==> hits[i].count < hits[j].count)
  }

  ghost predicate HasBirth(hits: seq<Hit>, life: nat) {
    exists i | 0 <= i < |hits| :: hits[i].life == life && hits[i].count == 1
  }

  ghost predicate HitsOk(hits: seq<Hit>) {
    forall i | 0 <= i < |hits| :: hits[i].count >= 1 && HasBirth(hits, hits[i].life)
  }

  /** A life begun by hit i is over before any hit of a later life, a whole window after it began. */
  ghost predicate Spaced(c: Config, hits: seq<Hit>) {
    forall i, j | 0 <= i < |hits| && 0 <= j < |hits| && hits[i].count == 1 && hits[i].life < hits[j].life ::
      hits[i].at + c.window <= hits[j].at
  }

  ghost predicate Current(c: Config, s: State) {
    && (forall i | 0 <= i < |s.hits| :: s.hits[i].at <= s.clock && s.hits[i].life <= s.lives)
    && (forall i | 0 <= i < |s.hits| && s.hits[i].count == 1 && s.hits[i].life < s.lives ::
          s.hits[i].at + c.window <= s.clock)
    && (forall i | 0 <= i < |s.hits| && s.hits[i].life == s.lives ::
          && s.entry.Some? && s.hits[i].count <= s.entry.value.count
          && (s.hits[i].count == 1 && s.entry.value.deadline.Some? ==>
                s.hits[i].at + c.window <= s.entry.value.deadline.value))
    && (s.entry.Some? ==> HasBirth(s.hits, s.lives))
  }

  ghost predicate VerdictsOk(c: Config, s: State) {
    |s.verdicts| == |s.hits| &&
    forall i | 0 <= i < |s.hits| && s.verdicts[i].Allowed? :: s.hits[i].count <= c.limit
  }

  ghost predicate Inv(c: Config, s: State) {
    Ordered(s.hits) && HitsOk(s.hits) && Spaced(c, s.hits) && Current(c, s) && VerdictsOk(c, s)
  }

  lemma BirthsStay(hits: seq<Hit>, hit: Hit, life: nat)
    requires HasBirth(hits, life)
    ensures HasBirth(hits + [hit], life)
  {
    var i :| 0 <= i < |hits| && hits[i].life == life && hits[i].count == 1;
    assert (hits + [hit])[i] == hits[i];
  }

  /** The next increment continues the log as it should. */
  lemma NextHit(c: Config, s: State, hit: Hit)
    requires Inv(c, s) && hit == Hit(s.clock, s.lives, Bump(s.entry).count)
    ensures Ordered(s.hits + [hit]) && Spaced(c, s.hits + [hit])
  {
  }

  lemma NextHitOk(c: Config, s: State, hit: Hit)
    requires Inv(c, s) && hit == Hit(s.clock, s.lives, Bump(s.entry).count)
    ensures HitsOk(s.hits + [hit]) && HasBirth(s.hits + [hit], s.lives)
  {
    var hits := s.hits + [hit];
    if s.entry.None? { assert hits[|s.hits|].count == 1; } else { BirthsStay(s.hits, hit, s.lives); }
    forall i | 0 <= i < |hits| ensures hits[i].count >= 1 && HasBirth(hits, hits[i].life) {
      if i < |s.hits| { BirthsStay(s.hits, hit, s.hits[i].life); }
    }
  }

  lemma NextCurrent(c: Config, s: State, o: Outcome)
    requires Inv(c, s) && !o.Lost?
    ensures Current(c, Step(c, s, Increment(o)))
  {
    NextHitOk(c, s, Hit(s.clock, s.lives, Bump(s.entry).count));
  }

  lemma NextVerdict(c: Config, s: State, o: Outcome)
    requires Inv(c, s) && !o.Lost?
    ensures VerdictsOk(c, Step(c, s, Increment(o)))
  {
  }

  lemma InvStep(c: Config, s: State, a: Action)
    requires Inv(c, s) && c.window > 0
    ensures Inv(c, Step(c, s, a))
  {
    match a
    case Increment(o) =>
      if !o.Lost? {
        NextHit(c, s, Hit(s.clock, s.lives, Bump(s.entry).count));
        NextHitOk(c, s, Hit(s.clock, s.lives, Bump(s.entry).count));
        NextCurrent(c, s, o);
        NextVerdict(c, s, o);
      }
    case Evict => EvictStep(c, s);
    case Tick(_) =>
    case Expire(i, o) =>
  }

  lemma EvictStep(c: Config, s: State)
    requires Inv(c, s) && c.window > 0
    ensures Inv(c, Step(c, s, Evict))
  {
  }

  lemma {:induction false} InvAlways(c: Config, actions: seq<Action>)
    requires c.window > 0
    ensures Inv(c, Run(c, actions))
  {
    if actions != [] {
      InvAlways(c, actions[..|actions| - 1]);
      InvStep(c, Run(c, actions[..|actions| - 1]), actions[|actions| - 1]);
    }
  }

  // ---- What a count is -----------------------------------------------------------------------

  /** How many of the increments were made in this life of the key. */
  function LifeCount(hits: seq<Hit>, life: nat): nat {
    if hits == [] then 0
    else LifeCount(hits[..|hits| - 1], life) + if hits[|hits| - 1].life == life then 1 else 0
  }

  lemma LifeCountAppend(hits: seq<Hit>, hit: Hit, life: nat)
    ensures LifeCount(hits + [hit], life) == LifeCount(hits, life) + if hit.life == life then 1 else 0
  {
    assert (hits + [hit])[..|hits|] == hits;
  }

  ghost predicate Ranked(hits: seq<Hit>) {
    forall i | 0 <= i < |hits| :: hits[i].count == LifeCount(hits[..i + 1], hits[i].life)
  }

  ghost predicate Judged(c: Config, s: State) {
    |s.verdicts| == |s.hits| &&
    forall i | 0 <= i < |s.hits| ::
      && (s.verdicts[i].Allowed? ==> s.hits[i].count <= c.limit)
      && (s.verdicts[i].Rejected? ==> s.hits[i].count > c.limit)
  }

  ghost predicate RankInv(c: Config, s: State) {
    && Ranked(s.hits) && Judged(c, s)
    && LifeCount(s.hits, s.lives) == (if s.entry.None? then 0 else s.entry.value.count)
    && forall i | 0 <= i < |s.hits| :: s.hits[i].life <= s.lives
  }

  lemma RankedAppend(hits: seq<Hit>, hit: Hit)
    requires Ranked(hits) && hit.count == LifeCount(hits, hit.life) + 1
    ensures Ranked(hits + [hit])
  {
    var more := hits + [hit];
    LifeCountAppend(hits, hit, hit.life);
    forall i | 0 <= i < |more| ensures more[i].count == LifeCount(more[..i + 1], more[i].life) {
      assert more[..i + 1] == if i < |hits| then hits[..i + 1] else more;
    }
  }

  lemma {:induction false} NoneInLaterLives(hits: seq<Hit>, life: nat)
    requires forall i | 0 <= i < |hits| :: hits[i].life < life
    ensures LifeCount(hits, life) == 0
  {
    if hits != [] { NoneInLaterLives(hits[..|hits| - 1], life); }
  }

  lemma RankIncrement(c: Config, s: State, o: Outcome)
    requires RankInv(c, s) && !o.Lost?
    ensures RankInv(c, Step(c, s, Increment(o)))
  {
    var hit := Hit(s.clock, s.lives, Bump(s.entry).count);
    var s' := Step(c, s, Increment(o));
    assert s'.hits == s.hits + [hit];
    LifeCountAppend(s.hits, hit, s.lives);
    RankedAppend(s.hits, hit);
    assert Judged(c, s');
  }

  lemma RankEvict(c: Config, s: State)
    requires RankInv(c, s)
    ensures RankInv(c, Step(c, s, Evict))
  {
    NoneInLaterLives(s.hits, s.lives + 1);
  }

  lemma RankExpire(c: Config, s: State, i: nat, o: Outcome)
    requires RankInv(c, s)
    ensures RankInv(c, Step(c, s, Expire(i, o)))
  {
    var s' := Step(c, s, Expire(i, o));
    assert s'.hits == s.hits && Judged(c, s');
  }

  lemma RankStep(c: Config, s: State, a: Action)
    requires RankInv(c, s)
    ensures RankInv(c, Step(c, s, a))
  {
    match a
    case Increment(o) => if !o.Lost? { RankIncrement(c, s, o); }
    case Evict => RankEvict(c, s);
    case Expire(i, o) => RankExpire(c, s, i, o);
    case Tick(_) =>
  }

  lemma {:induction false} RankAlways(c: Config, actions: seq<Action>)
    ensures RankInv(c, Run(c, actions))
  {
    if actions != [] {
      var n := |actions| - 1;
      RankAlways(c, actions[..n]);
      RankStep(c, Run(c, actions[..n]), actions[n]);
    }
  }

  /** In every interleaving, a call that is allowed is among the first limit increments of its life of
      the key, and one that is rejected is not. */
  lemma AllowedAreTheFirst(c: Config, actions: seq<Action>, i: nat)
    requires i < |Run(c, actions).hits|
    ensures var s := Run(c, actions);
            var rank := LifeCount(s.hits[..i + 1], s.hits[i].life);
            && |s.verdicts| == |s.hits|
            && (s.verdicts[i] == Allowed ==> 1 <= rank <= c.limit) && (s.verdicts[i] == Rejected ==> rank > c.limit)
  {
    RankAlways(c, actions);
    var hits := Run(c, actions).hits;
    assert hits[..i + 1] == hits[..i] + [hits[i]];
    LifeCountAppend(hits[..i], hits[i], hits[i].life);
  }

  // ---- Main results --------------------------------------------------------------------------

  /** Call i incremented in [from, from + window) and was answered as allowed. */
  predicate AllowedIn(c: Config, s: State, from: int, i: nat)
    requires i < |s.hits| == |s.verdicts|
  {
    s.verdicts[i].Allowed? && from <= s.hits[i].at < from + c.window
  }

  /** How many of the first n calls that holds of. */
  function AllowedCount(c: Config, s: State, from: int, n: nat): nat
    requires n <= |s.hits| == |s.verdicts|
  {
    if n == 0 then 0 else AllowedCount(c, s, from, n - 1) + if AllowedIn(c, s, from, n - 1) then 1 else 0
  }

  /** Two hits less than a window apart are in the same life or in consecutive ones; in the second
      case the earlier life began before the first of them. */
  lemma AtMostTwoLives(c: Config, s: State, i: int, j: int)
    requires Inv(c, s) && 0 <= i < |s.hits| && 0 <= j < |s.hits|
    requires s.hits[i].life < s.hits[j].life && s.hits[j].at < s.hits[i].at + c.window
    ensures s.hits[i].count > 1
    ensures forall k | 0 <= k < |s.hits| && s.hits[i].life < s.hits[k].life <= s.hits[j].life ::
              s.hits[k].life == s.hits[j].life
  {
  }

  /** A bound on the allowed calls from first to m: counts only grow within a life. */
  function Room(c: Config, s: State, first: nat, m: nat): int
    requires first < |s.hits| && m < |s.hits|
  {
    var skipped := s.hits[first].count - 1;
    if s.hits[m].life == s.hits[first].life then s.hits[m].count - skipped else c.limit - skipped + s.hits[m].count
  }

  lemma {:induction false} CountFitsRoom(c: Config, s: State, from: int, first: nat, n: nat) returns (m: nat)
    requires Inv(c, s) && first < n <= |s.hits| && AllowedIn(c, s, from, first)
    requires AllowedCount(c, s, from, first) == 0
    ensures first <= m < n && AllowedIn(c, s, from, m) && AllowedCount(c, s, from, n) <= Room(c, s, first, m)
  {
    if n == first + 1 {
      m := first;
    } else {
      m := CountFitsRoom(c, s, from, first, n - 1);
      if AllowedIn(c, s, from, n - 1) {
        if s.hits[first].life < s.hits[n - 1].life { AtMostTwoLives(c, s, first, n - 1); }
        assert s.hits[n - 1].count >= 1;
        m := n - 1;
      }
    }
  }

  lemma {:induction false} FirstAllowed(c: Config, s: State, from: int, n: nat) returns (first: nat)
    requires n <= |s.hits| == |s.verdicts| && AllowedCount(c, s, from, n) > 0
    ensures first < n && AllowedIn(c, s, from, first) && AllowedCount(c, s, from, first) == 0
  {
    if AllowedCount(c, s, from, n - 1) > 0 { first := FirstAllowed(c, s, from, n - 1); } else { first := n - 1; }
  }

  function MostAllowed(c: Config): nat {
    if c.limit == 0 then 0 else 2 * c.limit - 1
  }

  /** In every interleaving, whatever fails: a half-open interval one window long holds at most
      2 * limit - 1 allowed calls. */
  lemma AtMostTwiceTheLimit(c: Config, actions: seq<Action>, from: int)
    requires c.window > 0
    ensures var s := Run(c, actions);
            |s.hits| == |s.verdicts| &&
            AllowedCount(c, s, from, |s.hits|) <= MostAllowed(c)
  {
    InvAlways(c, actions);
    var s := Run(c, actions);
    if AllowedCount(c, s, from, |s.hits|) > 0 {
      var first := FirstAllowed(c, s, from, |s.hits|);
      var m := CountFitsRoom(c, s, from, first, |s.hits|);
      assert s.hits[first].count >= 1;
      if s.hits[m].life != s.hits[first].life { AtMostTwoLives(c, s, first, m); }
    }
  }

  ghost predicate WithinBound(c: Config, s: State) {
    |s.hits| == |s.verdicts| && forall from :: AllowedCount(c, s, from, |s.hits|) <= MostAllowed(c)
  }

  lemma RunIsWithinBound(c: Config, actions: seq<Action>)
    requires c.window > 0
    ensures WithinBound(c, Run(c, actions))
  {
    InvAlways(c, actions);
    var s := Run(c, actions);
    forall from ensures AllowedCount(c, s, from, |s.hits|) <= MostAllowed(c) { AtMostTwiceTheLimit(c, actions, from); }
  }

  // ---- The bound is reached ------------------------------------------------------------------

  function Burst(n: nat): seq<Action> {
    if n == 0 then [] else Burst(n - 1) + [Increment(Done)]
  }

  function AfterBurst(c: Config, s: State, n: nat): State {
    if n == 0 then s else Step(c, AfterBurst(c, s, n - 1), Increment(Done))
  }

  /** n more increments at one moment of a key that has its deadline. */
  function BurstForm(c: Config, s: State, n: nat): State
    requires s.entry.Some?
  {
    var count := s.entry.value.count;
    s.(entry := Some(s.entry.value.(count := count + n)),
       hits := s.hits + seq(n, i requires 0 <= i < n => Hit(s.clock, s.lives, count + i + 1)),
       verdicts := s.verdicts + seq(n, i requires 0 <= i < n => Judge(c, count + i + 1)))
  }

  lemma Append(c: Config, actions: seq<Action>, a: Action)
    ensures Run(c, actions + [a]) == Step(c, Run(c, actions), a)
  {
  }

  lemma OneMore(c: Config, s: State, n: nat)
    requires s.entry.Some? && s.entry.value.deadline.Some? && s.entry.value.count >= 1
    ensures Step(c, BurstForm(c, s, n), Increment(Done)) == BurstForm(c, s, n + 1)
  {
  }

  lemma {:induction false} BurstHasForm(c: Config, s: State, n: nat)
    requires s.entry.Some? && s.entry.value.deadline.Some? && s.entry.value.count >= 1
    ensures AfterBurst(c, s, n) == BurstForm(c, s, n)
  {
    if n > 0 {
      BurstHasForm(c, s, n - 1);
      OneMore(c, s, n - 1);
    }
  }

  lemma BurstExtends(actions: seq<Action>, n: nat)
    ensures actions + Burst(0) == actions
    ensures actions + Burst(n + 1) == (actions + Burst(n)) + [Increment(Done)]
  {
  }

  lemma {:induction false} BurstRuns(c: Config, actions: seq<Action>, n: nat)
    ensures Run(c, actions + Burst(n)) == AfterBurst(c, Run(c, actions), n)
  {
    if n == 0 {
      BurstExtends(actions, 0);
    } else {
      BurstRuns(c, actions, n - 1);
      Append(c, actions + Burst(n - 1), Increment(Done));
      BurstExtends(actions, n - 1);
    }
  }

  /** A key's first call, its deadline set at once, and a wait. */
  function Opening(call: nat, wait: nat): seq<Action> {
    [Increment(Done), Expire(call, Done), Tick(wait)]
  }

  function AfterOpening(c: Config, s: State, wait: nat): State {
    State(Some(Entry(1, Some(s.clock + c.window))), s.clock + wait, s.lives,
          s.hits + [Hit(s.clock, s.lives, 1)], s.verdicts + [Allowed])
  }

  lemma OpeningRuns(c: Config, actions: seq<Action>, wait: nat)
    requires c.limit > 0
    requires var s := Run(c, actions); s.entry.None? && |s.hits| == |s.verdicts|
    ensures var s := Run(c, actions); Run(c, actions + Opening(|s.hits|, wait)) == AfterOpening(c, s, wait)
  {
    var s := Run(c, actions);
    var n := |s.hits|;
    var a1 := actions + [Increment(Done)];
    Append(c, actions, Increment(Done));
    var a2 := a1 + [Expire(n, Done)];
    Append(c, a1, Expire(n, Done));
    Append(c, a2, Tick(wait));
    assert actions + Opening(n, wait) == a2 + [Tick(wait)];
    assert Run(c, a1).verdicts[n := Allowed] == s.verdicts + [Allowed];
  }

  lemma {:induction false} CountAll(c: Config, s: State, from: int, lo: nat, n: nat)
    requires lo <= n <= |s.hits| == |s.verdicts| && forall i | lo <= i < n :: AllowedIn(c, s, from, i)
    ensures AllowedCount(c, s, from, n) >= n - lo
  {
    if lo < n { CountAll(c, s, from, lo, n - 1); }
  }

  /** A life of the key: it opens, waits, and is called up to the limit. */
  lemma LifeRuns(c: Config, actions: seq<Action>, wait: nat)
    requires c.limit > 0
    requires var s := Run(c, actions); s.entry.None? && |s.hits| == |s.verdicts|
    ensures var s := Run(c, actions);
            Run(c, actions + Opening(|s.hits|, wait) + Burst(c.limit - 1)) ==
            BurstForm(c, AfterOpening(c, s, wait), c.limit - 1)
  {
    OpeningRuns(c, actions, wait);
    BurstRuns(c, actions + Opening(|Run(c, actions).hits|, wait), c.limit - 1);
    BurstHasForm(c, AfterOpening(c, Run(c, actions), wait), c.limit - 1);
  }

  /** The state between the two lives: the first one's burst came just before its deadline. */
  function FirstLife(c: Config): State
    requires c.limit > 0 && c.window >= 2
  {
    BurstForm(c, AfterOpening(c, INITIAL, c.window - 1), c.limit - 1).(clock := c.window, entry := None, lives := 1)
  }

  lemma FirstLifeRuns(c: Config) returns (actions: seq<Action>)
    requires c.limit > 0 && c.window >= 2
    ensures Run(c, actions) == FirstLife(c)
  {
    var first := [] + Opening(0, c.window - 1) + Burst(c.limit - 1);
    LifeRuns(c, [], c.window - 1);
    Append(c, first, Tick(1));
    Append(c, first + [Tick(1)], Evict);
    actions := first + [Tick(1)] + [Evict];
  }

  lemma BothLivesAllowed(c: Config, s: State, i: nat)
    requires c.limit > 0 && c.window >= 2 && 1 <= i < 2 * c.limit
    requires s == BurstForm(c, AfterOpening(c, FirstLife(c), 0), c.limit - 1)
    ensures i < |s.hits| == |s.verdicts| == 2 * c.limit && AllowedIn(c, s, c.window - 1, i)
  {
    if i < c.limit {
      assert s.hits[i] == Hit(c.window - 1, 0, i + 1) && s.verdicts[i] == Judge(c, i + 1);
    } else {
      assert s.hits[i] == Hit(c.window, 1, i - c.limit + 1) && s.verdicts[i] == Judge(c, i - c.limit + 1);
    }
  }

  /** The bound is reached: a life whose burst comes just before its deadline, then another life. */
  lemma BoundIsReached(c: Config) returns (actions: seq<Action>, from: int)
    requires c.limit > 0 && c.window >= 2
    ensures var s := Run(c, actions);
            |s.hits| == |s.verdicts| && AllowedCount(c, s, from, |s.hits|) == MostAllowed(c)
  {
    var first := FirstLifeRuns(c);
    LifeRuns(c, first, 0);
    actions, from := first + Opening(c.limit, 0) + Burst(c.limit - 1), c.window - 1;
    var s := Run(c, actions);
    BothLivesAllowed(c, s, 1);
    forall i | 1 <= i < |s.hits| ensures AllowedIn(c, s, from, i) { BothLivesAllowed(c, s, i); }
    CountAll(c, s, from, 1, |s.hits|);
    AtMostTwiceTheLimit(c, actions, from);
  }

  // ---- The program ---------------------------------------------------------------------------

  datatype RateLimitResult = RateLimitResult(allowed: bool, remaining: nat, retryAfter: int)

  /** The limiter of one key. Redis drops the key, when it does, before it runs the pipeline. */
  class Limiter {
    const config: Config
    var entry: Option<Entry>
    var clock: int
    ghost var lives: nat
    ghost var hits: seq<Hit>
    ghost var verdicts: seq<Verdict>
    ghost var schedule: seq<Action>

    constructor (config: Config)
      ensures this.config == config && Observed() == INITIAL && Valid()
    {
      this.config := config;
      entry, clock := None, 0;
      lives, hits, verdicts, schedule := 0, [], [], [];
    }

    ghost function Observed(): State
      reads this
    {
      State(entry, clock, lives, hits, verdicts)
    }

    /** The calls so far are a run of the protocol, and nothing that is live is past its deadline. */
    ghost predicate Valid()
      reads this
    {
      && Observed() == Run(config, schedule) && |hits| == |verdicts|
      && (entry.Some? && entry.value.deadline.Some? ==> clock < entry.value.deadline.value)
    }

    /** Time passes; an expired key is gone. */
    method Wait(elapsed: nat)
      requires Valid()
      modifies this
      ensures Valid()
      ensures Observed() == Step(config, Step(config, old(Observed()), Tick(elapsed)), Evict)
    {
      Append(config, schedule, Tick(elapsed));
      Append(config, schedule + [Tick(elapsed)], Evict);
      schedule := schedule + [Tick(elapsed)] + [Evict];
      clock := clock + elapsed;
      if entry.Some? && entry.value.deadline.Some? && clock >= entry.value.deadline.value {
        entry := None;
        lives := lives + 1;
      }
    }

    /** INCR and TTL in one transaction; a negative ttl is a key without a deadline. */
    method Pipeline(o: Outcome) returns (count: nat, ttl: int)
      modifies this
      ensures Observed() == Step(config, old(Observed()), Increment(o)) && schedule == old(schedule) + [Increment(o)]
      ensures var e := Bump(old(entry));
              && count == e.count
              && (if e.deadline.None? then ttl == -1 else ttl == e.deadline.value - clock)
    {
      schedule := schedule + [Increment(o)];
      var bumped := Bump(entry);
      count := bumped.count;
      ttl := match bumped.deadline case None => -1 case Some(d) => d - clock;
      if !o.Lost? {
        entry := Some(bumped);
        hits := hits + [Hit(clock, lives, count)];
        verdicts := verdicts + [FirstVerdict(config, bumped, o)];
      }
    }

    method SetDeadline(ghost call: nat, o: Outcome)
      requires call < |hits| == |verdicts| && verdicts[call].Waiting?
      modifies this
      ensures Observed() == Step(config, old(Observed()), Expire(call, o))
      ensures schedule == old(schedule) + [Expire(call, o)]
    {
      schedule := schedule + [Expire(call, o)];
      if !o.Lost? && entry.Some? { entry := Some(entry.value.(deadline := Some(clock + config.window))); }
      verdicts := verdicts[call := if o.Done? then Judge(config, hits[call].count) else Failed];
    }

    /** A call, with its EXPIRE right behind its pipeline. */
    method Allow(pipe: Outcome, expire: Outcome) returns (result: Option<RateLimitResult>)
      requires Valid() && config.window > 0
      modifies this
      ensures Valid()
      ensures WithinBound(config, Observed())
      ensures var counted := Step(config, old(Observed()), Increment(pipe));
              var n := |old(hits)|;
              Observed() ==
              if pipe.Done? && NeedsExpire(Bump(old(entry))) then Step(config, counted, Expire(n, expire)) else counted
      ensures var unset := old(entry).None? || old(entry).value.count == 0 || old(entry).value.deadline.None?;
              var n := if old(entry).None? then 1 else old(entry).value.count + 1;
              && (result.None? <==> !pipe.Done? || (unset && !expire.Done?))
              && (result.Some? ==>
                    && |verdicts| == |old(verdicts)| + 1
                    && verdicts[|old(verdicts)|] == (if n <= config.limit then Allowed else Rejected)
                    && result.value.allowed == (n <= config.limit)
                    && result.value.remaining == (if n <= config.limit then config.limit - n else 0)
                    && result.value.retryAfter ==
                       (if unset then config.window else old(entry).value.deadline.value - clock)
                    && entry == Some(Entry(n, Some(clock + result.value.retryAfter)))
                    && clock == old(clock) && result.value.retryAfter > 0)
    {
      ghost var call := |hits|;
      Append(config, schedule, Increment(pipe));
      var count, ttl := Pipeline(pipe);
      RunIsWithinBound(config, schedule);
      if !pipe.Done? { return None; }
      if count == 1 || ttl < 0 {
        Append(config, schedule, Expire(call, expire));
        SetDeadline(call, expire);
        RunIsWithinBound(config, schedule);
        if !expire.Done? { return None; }
        ttl := config.window;
      }
      var remaining := config.limit - count;
      if remaining < 0 { remaining := 0; }
      result := Some(RateLimitResult(count <= config.limit, remaining, ttl));
    }
  }
}
