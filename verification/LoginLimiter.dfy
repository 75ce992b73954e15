/** The login limiter of one e-mail address: a Redis sorted set that is pruned at each attempt and
    expires, against the full log of attempts it stands for. An attempt first reads its timestamp and
    later runs its pipeline, so attempts may overtake one another. Times are in nanoseconds. */
module LoginLimiter {
  import opened Prelude

  const WINDOW := 15 * 60 * 1_000_000_000
  const MAX_ATTEMPTS := 5

  /** The sorted set: members are their own scores. */
  datatype Entry = Entry(members: set<int>, deadline: int)

  /** A pipeline ran for an attempt stamped at, at the moment ran; or the set was deleted. */
  datatype Event =
    | Checked(at: int, ran: int, passed: bool, recorded: bool, faulty: bool)
    | Cleared(ran: int)

  /** stamps holds the timestamps of attempts whose pipelines have still to run. gone holds what was
      pruned or expired since the last reset; latest is the latest timestamp a pipeline has used or
      moment the set has expired at. */
  datatype State = State(entry: Option<Entry>, clock: int, stamps: map<nat, int>, log: seq<Event>,
                         gone: set<int>, latest: int)

  datatype Action =
    | Tick(d: nat)
    | Expire
    | Begin(t: nat)
    | Check(t: nat, check: Outcome)
    | Reset(reset: Outcome)

  const INITIAL := State(None, 0, map[], [], {}, 0)

  function Members(entry: Option<Entry>): set<int> {
    match entry case None => {} case Some(e) => e.members
  }

  /** What is left of the set after removing the scores up to a bound. */
  function Pruned(entry: Option<Entry>, bound: int): set<int> {
    set m | m in Members(entry) && m > bound
  }

  /** The transaction: prune, count, add the attempt, renew the expiry. A limiter error is logged and
      the attempt goes on. */
  function Pipeline(s: State, at: int, o: Outcome): State {
    var kept := Pruned(s.entry, at - WINDOW);
    var passed := !o.Done? || |kept| <= MAX_ATTEMPTS;
    var logged := s.(log := s.log + [Checked(at, s.clock, passed, !o.Lost?, !o.Done?)]);
    if o.Lost? then logged
    else
      logged.(entry := Some(Entry(kept + {at}, s.clock + WINDOW)),
              gone := s.gone + (Members(s.entry) - kept) - {at},
              latest := if at > s.latest then at else s.latest)
  }

  function Step(s: State, a: Action): State {
    match a
    case Tick(d) => s.(clock := s.clock + d)
    case Expire =>
      // Redis may drop an expired set late, never early.
      if s.entry.Some? && s.clock >= s.entry.value.deadline then
        s.(entry := None, gone := s.gone + s.entry.value.members, latest := s.clock)
      else s
    case Begin(t) => if t in s.stamps then s else s.(stamps := s.stamps[t := s.clock])
    case Check(t, o) => if t in s.stamps then Pipeline(s.(stamps := s.stamps - {t}), s.stamps[t], o) else s
    case Reset(o) =>
      if o.Lost? then s else s.(entry := None, gone := {}, log := s.log + [Cleared(s.clock)])
  }

  function Run(actions: seq<Action>): State {
    if actions == [] then INITIAL else Step(Run(actions[..|actions| - 1]), actions[|actions| - 1])
  }

  // ---- The full log it stands for ------------------------------------------------------------

  /** The timestamps of the attempts recorded since the last reset. */
  function Recorded(log: seq<Event>): set<int> {
    if log == [] then {}
    else
      match log[|log| - 1]
      case Cleared(_) => {}
      case Checked(at, _, _, recorded, _) =>
        if recorded then Recorded(log[..|log| - 1]) + {at} else Recorded(log[..|log| - 1])
  }

  function Recent(log: seq<Event>, bound: int): set<int> {
    set m | m in Recorded(log) && m > bound
  }

  /** A timestamp is recorded if an attempt with it was, and no reset has come since. */
  lemma {:induction false} RecordedIff(log: seq<Event>, m: int)
    ensures m in Recorded(log) <==>
            exists i | 0 <= i < |log| && log[i].Checked? ::
              log[i].at == m && log[i].recorded && forall j | i < j < |log| :: log[j].Checked?
  {
    if log != [] {
      var n := |log| - 1;
      var rest := log[..n];
      RecordedIff(rest, m);
      if log[n].Checked? {
        if m in Recorded(rest) {
          var i :| 0 <= i < n && rest[i].Checked? && rest[i].at == m && rest[i].recorded
                   && forall j | i < j < n :: rest[j].Checked?;
          assert log[i] == rest[i] && forall j | i < j < n :: log[j] == rest[j];
        }
        if i :| 0 <= i < n && log[i].Checked? && log[i].at == m && log[i].recorded
                && forall j | i < j <= n :: log[j].Checked? {
          assert rest[i] == log[i] && forall j | i < j < n :: rest[j] == log[j];
        }
      }
    }
  }

  /** Every recorded attempt is in the set or was dropped from it. */
  ghost predicate SetInv(s: State) {
    Members(s.entry) !! s.gone && Members(s.entry) + s.gone == Recorded(s.log)
  }

  /** Members are dropped a whole window after they were stamped, or later. */
  ghost predicate TimeInv(s: State) {
    && (forall m | m in s.gone :: m + WINDOW <= s.latest)
    && (forall m | m in Members(s.entry) :: m + WINDOW <= s.entry.value.deadline)
    && (s.entry.Some? ==> s.entry.value.deadline <= s.clock + WINDOW)
    && (forall t | t in s.stamps :: s.stamps[t] <= s.clock)
    && s.latest <= s.clock
  }

  /** The log is in the order in which pipelines and deletes ran, none before its timestamp. */
  ghost predicate LogInv(s: State) {
    && (forall i | 0 <= i < |s.log| :: s.log[i].ran <= s.clock)
    && (forall i, j | 0 <= i < j < |s.log| :: s.log[i].ran <= s.log[j].ran)
    && (forall i | 0 <= i < |s.log| && s.log[i].Checked? :: s.log[i].at <= s.log[i].ran)
  }

  ghost predicate Inv(s: State) {
    SetInv(s) && TimeInv(s) && LogInv(s)
  }

  lemma RecordedAppend(log: seq<Event>, e: Event)
    ensures Recorded(log + [e]) ==
            if e.Cleared? then {} else if e.recorded then Recorded(log) + {e.at} else Recorded(log)
  {
    assert (log + [e])[..|log|] == log;
  }

  lemma Split(entry: Option<Entry>, gone: set<int>, at: int, bound: int)
    requires Members(entry) !! gone && at > bound
    ensures var kept := Pruned(entry, bound);
            var dropped := gone + (Members(entry) - kept) - {at};
            kept + {at} !! dropped && (kept + {at}) + dropped == Members(entry) + gone + {at}
  {
  }

  lemma PipelineSet(s: State, at: int, o: Outcome)
    requires SetInv(s)
    ensures SetInv(Pipeline(s, at, o))
  {
    RecordedAppend(s.log, Pipeline(s, at, o).log[|s.log|]);
    Split(s.entry, s.gone, at, at - WINDOW);
  }

  lemma PipelineTime(s: State, at: int, o: Outcome)
    requires TimeInv(s) && at <= s.clock
    ensures TimeInv(Pipeline(s, at, o))
  {
  }

  lemma PipelineLog(s: State, at: int, o: Outcome)
    requires LogInv(s) && at <= s.clock
    ensures LogInv(Pipeline(s, at, o))
  {
  }

  lemma PipelineStep(s: State, at: int, o: Outcome)
    requires Inv(s) && at <= s.clock
    ensures Inv(Pipeline(s, at, o))
  {
    PipelineSet(s, at, o);
    PipelineTime(s, at, o);
    PipelineLog(s, at, o);
  }

  lemma InvStep(s: State, a: Action)
    requires Inv(s)
    ensures Inv(Step(s, a))
  {
    match a
    case Check(t, o) =>
      if t in s.stamps { PipelineStep(s.(stamps := s.stamps - {t}), s.stamps[t], o); }
    case Reset(o) => RecordedAppend(s.log, Cleared(s.clock));
    case _ =>
  }

  /** In every run: what the set holds and what it has dropped are together the recorded attempts. */
  lemma {:induction false} SetAndDroppedAreTheLog(actions: seq<Action>)
    ensures Inv(Run(actions))
  {
    if actions != [] {
      var n := |actions| - 1;
      SetAndDroppedAreTheLog(actions[..n]);
      InvStep(Run(actions[..n]), actions[n]);
    }
  }

  // ---- When the pruned set answers as the log would ------------------------------------------

  /** Nothing that was dropped lies in the attempt's trailing window. */
  ghost predicate Punctual(s: State, at: int) {
    forall m | m in s.gone :: m <= at - WINDOW
  }

  /** The pruned set counts what filtering the whole log by the trailing window would, exactly for
      punctual attempts. */
  lemma CountIsOfTheLogIff(s: State, at: int)
    requires Inv(s)
    ensures |Pruned(s.entry, at - WINDOW)| == |Recent(s.log, at - WINDOW)| <==> Punctual(s, at)
  {
    var kept, missing := Pruned(s.entry, at - WINDOW), set m | m in s.gone && m > at - WINDOW;
    assert Recent(s.log, at - WINDOW) == kept + missing && kept !! missing;
    if Punctual(s, at) { assert missing == {}; }
    if missing == {} {
      forall m | m in s.gone ensures m <= at - WINDOW { assert m !in missing; }
    }
  }

  /** No pipeline has used a later timestamp, and the set has not expired since the attempt read its
      own: the attempt is then punctual. */
  lemma InOrderIsPunctual(s: State, at: int)
    requires Inv(s) && s.latest <= at
    ensures Punctual(s, at)
  {
  }

  /** Every attempt the limiter answers is punctual when its pipeline runs. */
  ghost predicate AllPunctual(actions: seq<Action>) {
    actions == [] ||
    (var s, a := Run(actions[..|actions| - 1]), actions[|actions| - 1];
     && AllPunctual(actions[..|actions| - 1])
     && (a.Check? && a.t in s.stamps && a.check.Done? ==> Punctual(s, s.stamps[a.t])))
  }

  ghost predicate AllInOrder(actions: seq<Action>) {
    actions == [] ||
    (var s, a := Run(actions[..|actions| - 1]), actions[|actions| - 1];
     && AllInOrder(actions[..|actions| - 1])
     && (a.Check? && a.t in s.stamps && a.check.Done? ==> s.latest <= s.stamps[a.t]))
  }

  lemma {:induction false} RunsInOrderArePunctual(actions: seq<Action>)
    requires AllInOrder(actions)
    ensures AllPunctual(actions)
  {
    if actions != [] {
      RunsInOrderArePunctual(actions[..|actions| - 1]);
      SetAndDroppedAreTheLog(actions[..|actions| - 1]);
    }
  }

  /** The limiter's answer is the one the full log gives. */
  predicate DecidedBy(before: seq<Event>, e: Event) {
    e.Checked? && !e.faulty ==>
      e.recorded && (e.passed <==> |Recent(before, e.at - WINDOW)| <= MAX_ATTEMPTS)
  }

  ghost predicate Decided(log: seq<Event>) {
    forall i | 0 <= i < |log| :: DecidedBy(log[..i], log[i])
  }

  lemma DecidedAppend(log: seq<Event>, e: Event)
    requires Decided(log) && DecidedBy(log, e)
    ensures Decided(log + [e])
  {
    var more := log + [e];
    forall i | 0 <= i < |more| ensures DecidedBy(more[..i], more[i]) {
      assert more[..i] == if i < |log| then log[..i] else log;
    }
  }

  lemma PipelineDecides(s: State, at: int, o: Outcome)
    requires Inv(s) && Decided(s.log) && (o.Done? ==> Punctual(s, at))
    ensures Decided(Pipeline(s, at, o).log)
  {
    CountIsOfTheLogIff(s, at);
    DecidedAppend(s.log, Pipeline(s, at, o).log[|s.log|]);
  }

  /** With punctual attempts, whatever else fails, expires or is reset: each answer is the one that
      filtering the whole log by the trailing window gives. */
  lemma {:induction false} PrunedSetIsTheLog(actions: seq<Action>)
    requires AllPunctual(actions)
    ensures Decided(Run(actions).log)
  {
    if actions != [] {
      var before, a := actions[..|actions| - 1], actions[|actions| - 1];
      PrunedSetIsTheLog(before);
      SetAndDroppedAreTheLog(before);
      var s := Run(before);
      if a.Check? && a.t in s.stamps {
        PipelineDecides(s.(stamps := s.stamps - {a.t}), s.stamps[a.t], a.check);
      } else if a.Reset? {
        DecidedAppend(s.log, Cleared(s.clock));
      }
    }
  }

  // ---- How many attempts pass ----------------------------------------------------------------

  predicate Passes(e: Event, from: int) {
    e.Checked? && e.passed && !e.faulty && from <= e.at < from + WINDOW
  }

  /** The instants in [from, from + WINDOW) at which the limiter let an attempt through. */
  function PassTimes(log: seq<Event>, from: int): set<int> {
    if log == [] then {}
    else
      var rest, e := PassTimes(log[..|log| - 1], from), log[|log| - 1];
      if Passes(e, from) then rest + {e.at} else rest
  }

  function PassCount(log: seq<Event>, from: int): nat {
    if log == [] then 0
    else PassCount(log[..|log| - 1], from) + if Passes(log[|log| - 1], from) then 1 else 0
  }

  /** No reset ran between two attempts of the interval that got through. */
  ghost predicate NoResetAmong(log: seq<Event>, from: int) {
    forall i, k, j | 0 <= i < k < j < |log| && Passes(log[i], from) && Passes(log[j], from) :: !log[k].Cleared?
  }

  /** That is so if no reset ran in the interval, and no attempt of the interval ran after it. */
  lemma QuietIntervals(actions: seq<Action>, from: int)
    requires var log := Run(actions).log;
             forall i | 0 <= i < |log| ::
               if log[i].Cleared? then !(from <= log[i].ran < from + WINDOW)
               else Passes(log[i], from) ==> log[i].ran < from + WINDOW
    ensures NoResetAmong(Run(actions).log, from)
  {
    SetAndDroppedAreTheLog(actions);
  }

  lemma {:induction false} PassTimesAre(log: seq<Event>, from: int, t: int)
    requires t in PassTimes(log, from)
    ensures exists i | 0 <= i < |log| :: Passes(log[i], from) && log[i].at == t
  {
    var n := |log| - 1;
    if t in PassTimes(log[..n], from) {
      PassTimesAre(log[..n], from, t);
      var i :| 0 <= i < n && Passes(log[..n][i], from) && log[..n][i].at == t;
      assert log[i] == log[..n][i];
    }
  }

  /** Without a reset after them, attempts let through are still in the log. */
  lemma {:induction false} PassesAreRecorded(log: seq<Event>, from: int)
    requires Decided(log)
    requires forall i, k | 0 <= i < k < |log| && Passes(log[i], from) :: !log[k].Cleared?
    ensures PassTimes(log, from) <= Recorded(log)
  {
    if log != [] {
      var n := |log| - 1;
      var rest := log[..n];
      assert forall i | 0 <= i < n :: rest[..i] == log[..i];
      PassesAreRecorded(rest, from);
      if log[n].Cleared? {
        forall t | t in PassTimes(rest, from) ensures false { PassTimesAre(rest, from, t); }
      }
    }
  }

  lemma {:induction false} PassTimesInside(log: seq<Event>, from: int)
    ensures forall t | t in PassTimes(log, from) :: from <= t < from + WINDOW
  {
    if log != [] { PassTimesInside(log[..|log| - 1], from); }
  }

  lemma SubsetSize(a: set<int>, b: set<int>)
    requires a <= b
    ensures |a| <= |b|
  {
    assert b == a + (b - a);
  }

  /** However many attempts the limiter decides by the log: six instants at most let them through. */
  lemma {:induction false} AtMostSixInstants(log: seq<Event>, from: int)
    requires Decided(log) && NoResetAmong(log, from)
    ensures |PassTimes(log, from)| <= MAX_ATTEMPTS + 1
  {
    if log != [] {
      var n := |log| - 1;
      var rest := log[..n];
      assert forall i | 0 <= i < n :: rest[..i] == log[..i];
      AtMostSixInstants(rest, from);
      if Passes(log[n], from) {
        PassesAreRecorded(rest, from);
        PassTimesInside(rest, from);
        SubsetSize(PassTimes(rest, from), Recent(rest, log[n].at - WINDOW));
      }
    }
  }

  ghost predicate WithinBound(log: seq<Event>) {
    forall from | NoResetAmong(log, from) :: |PassTimes(log, from)| <= MAX_ATTEMPTS + 1
  }

  lemma DecidedIsWithinBound(log: seq<Event>)
    requires Decided(log)
    ensures WithinBound(log)
  {
    forall from | NoResetAmong(log, from) ensures |PassTimes(log, from)| <= MAX_ATTEMPTS + 1 {
      AtMostSixInstants(log, from);
    }
  }

  ghost predicate DistinctTimes(log: seq<Event>) {
    forall i, j | 0 <= i < j < |log| && log[i].Checked? && log[j].Checked? :: log[i].at != log[j].at
  }

  lemma {:induction false} DistinctCount(log: seq<Event>, from: int)
    requires DistinctTimes(log)
    ensures PassCount(log, from) == |PassTimes(log, from)|
  {
    if log != [] {
      var n := |log| - 1;
      DistinctCount(log[..n], from);
      if Passes(log[n], from) && log[n].at in PassTimes(log[..n], from) {
        PassTimesAre(log[..n], from, log[n].at);
      }
    }
  }

  /** With distinct timestamps and punctual attempts, at most six that the limiter answered get to the
      password check in any half-open interval one window long with no reset among them. */
  lemma AtMostSixAttempts(actions: seq<Action>, from: int)
    requires AllPunctual(actions)
    requires DistinctTimes(Run(actions).log) && NoResetAmong(Run(actions).log, from)
    ensures PassCount(Run(actions).log, from) <= 6
  {
    PrunedSetIsTheLog(actions);
    AtMostSixInstants(Run(actions).log, from);
    DistinctCount(Run(actions).log, from);
  }

  // ---- Attempts at one instant ---------------------------------------------------------------

  lemma PassCountAppend(log: seq<Event>, e: Event, from: int)
    ensures PassCount(log + [e], from) == PassCount(log, from) + if Passes(e, from) then 1 else 0
  {
    assert (log + [e])[..|log|] == log;
  }

  lemma Append(actions: seq<Action>, a: Action)
    ensures Run(actions + [a]) == Step(Run(actions), a)
  {
    assert (actions + [a])[..|actions|] == actions;
  }

  function AtOnce(n: nat): seq<Action> {
    if n == 0 then [] else AtOnce(n - 1) + [Begin(0)] + [Check(0, Done)]
  }

  function Passed(at: int, ran: int): Event {
    Checked(at, ran, true, true, false)
  }

  ghost predicate AtStart(s: State) {
    s.clock == 0 && s.stamps == map[] && Members(s.entry) <= {0}
  }

  /** An attempt that passes, and leaves the set as pruned, with itself added. */
  lemma PipelinePasses(s: State, at: int, kept: set<int>)
    requires Pruned(s.entry, at - WINDOW) == kept && |kept| <= MAX_ATTEMPTS
    ensures var s' := Pipeline(s, at, Done);
            && s'.log == s.log + [Passed(at, s.clock)] && s'.entry == Some(Entry(kept + {at}, s.clock + WINDOW))
            && s'.clock == s.clock && s'.stamps == s.stamps
  {
  }

  lemma OneAtOnce(s: State)
    requires AtStart(s)
    ensures var s' := Step(Step(s, Begin(0)), Check(0, Done)); AtStart(s') && s'.log == s.log + [Passed(0, 0)]
  {
    var begun := Step(s, Begin(0));
    assert begun.(stamps := begun.stamps - {0}) == s;
    SubsetSize(Pruned(s.entry, 0 - WINDOW), {0});
    PipelinePasses(s, 0, Pruned(s.entry, 0 - WINDOW));
  }

  /** Attempts in the same nanosecond are one member of the set: any number of them pass. */
  lemma {:induction false} SameInstantIsUnbounded(n: nat)
    ensures AtStart(Run(AtOnce(n))) && PassCount(Run(AtOnce(n)).log, 0) == n
  {
    if n > 0 {
      SameInstantIsUnbounded(n - 1);
      Append(AtOnce(n - 1), Begin(0));
      Append(AtOnce(n - 1) + [Begin(0)], Check(0, Done));
      OneAtOnce(Run(AtOnce(n - 1)));
      PassCountAppend(Run(AtOnce(n - 1)).log, Passed(0, 0), 0);
    }
  }

  // ---- Why attempts must not be overtaken ----------------------------------------------------

  /** A slow attempt is stamped first; a quick one is stamped d later, and runs before it. */
  function Stamped(s: State, slow: nat, quick: nat, d: nat): State {
    Step(Step(Step(s, Begin(slow)), Tick(d)), Begin(quick))
  }

  /** If the quick attempt's pipeline prunes the whole set, the slow one passes, however many recorded
      attempts its own trailing window holds. */
  lemma OvertakenAttemptPasses(s: State, slow: nat, quick: nat, d: nat)
    requires s.stamps == map[] && slow != quick
    requires forall m | m in Members(s.entry) :: m <= s.clock + d - WINDOW
    ensures var overtaken := Step(Stamped(s, slow, quick, d), Check(quick, Done));
            Step(overtaken, Check(slow, Done)).log ==
            s.log + [Passed(s.clock + d, s.clock + d)] + [Passed(s.clock, s.clock + d)]
  {
    var stamped := Stamped(s, slow, quick, d);
    assert stamped == s.(clock := s.clock + d, stamps := map[slow := s.clock, quick := s.clock + d]);
    assert Pruned(s.entry, s.clock + d - WINDOW) == {};
    var waiting := s.(clock := s.clock + d, stamps := map[slow := s.clock]);
    assert stamped.(stamps := stamped.stamps - {quick}) == waiting;
    PipelinePasses(waiting, s.clock + d, {});
    var overtaken := Pipeline(waiting, s.clock + d, Done);
    assert overtaken.entry == Some(Entry({s.clock + d}, s.clock + d + WINDOW));
    var alone := overtaken.(stamps := overtaken.stamps - {slow});
    SubsetSize(Pruned(alone.entry, s.clock - WINDOW), {s.clock + d});
    PipelinePasses(alone, s.clock, Pruned(alone.entry, s.clock - WINDOW));
  }

  function Attempts(n: nat): seq<Action> {
    if n == 0 then [] else Attempts(n - 1) + [Tick(1)] + [Begin(0)] + [Check(0, Done)]
  }

  function Instants(n: nat): set<int> {
    if n == 0 then {} else Instants(n - 1) + {n}
  }

  lemma {:induction false} InstantsAre(n: nat)
    ensures |Instants(n)| == n && forall m | m in Instants(n) :: 1 <= m <= n
  {
    if n > 0 { InstantsAre(n - 1); }
  }

  lemma RunThree(actions: seq<Action>, a: Action, b: Action, c: Action)
    ensures Run(actions + [a] + [b] + [c]) == Step(Step(Step(Run(actions), a), b), c)
  {
    Append(actions, a);
    Append(actions + [a], b);
    Append(actions + [a] + [b], c);
  }

  /** An attempt whose pipeline runs at once, a nanosecond after the last. */
  lemma OneMore(s: State)
    requires s.stamps == map[]
    ensures Step(Step(Step(s, Tick(1)), Begin(0)), Check(0, Done)) ==
            Pipeline(s.(clock := s.clock + 1), s.clock + 1, Done)
  {
    var begun := Step(Step(s, Tick(1)), Begin(0));
    assert begun.stamps - {0} == map[];
  }

  /** n attempts, one nanosecond apart, have all passed. */
  ghost predicate HavePassed(s: State, n: nat) {
    && s.clock == n && s.stamps == map[] && Members(s.entry) == Instants(n)
    && |s.log| == n && forall i | 0 <= i < n :: s.log[i] == Passed(i + 1, i + 1)
  }

  lemma OneMorePasses(s: State, n: nat)
    requires HavePassed(s, n) && n <= MAX_ATTEMPTS
    ensures HavePassed(Pipeline(s.(clock := n + 1), n + 1, Done), n + 1)
  {
    InstantsAre(n);
    assert Pruned(s.entry, n + 1 - WINDOW) == Instants(n);
  }

  lemma NextPasses(actions: seq<Action>, n: nat)
    requires HavePassed(Run(actions), n) && n <= MAX_ATTEMPTS
    ensures HavePassed(Run(actions + [Tick(1)] + [Begin(0)] + [Check(0, Done)]), n + 1)
  {
    RunThree(actions, Tick(1), Begin(0), Check(0, Done));
    OneMore(Run(actions));
    OneMorePasses(Run(actions), n);
  }

  lemma {:induction false} SixPass(n: nat)
    requires n <= MAX_ATTEMPTS + 1
    ensures HavePassed(Run(Attempts(n)), n)
  {
    if n > 0 {
      SixPass(n - 1);
      NextPasses(Attempts(n - 1), n - 1);
    }
  }

  lemma {:induction false} CountAll(log: seq<Event>, from: int)
    requires forall i | 0 <= i < |log| :: Passes(log[i], from)
    ensures PassCount(log, from) == |log|
  {
    if log != [] { CountAll(log[..|log| - 1], from); }
  }

  lemma SevenCount(log: seq<Event>)
    requires |log| == 6 && forall i | 0 <= i < 6 :: log[i] == Passed(i + 1, i + 1)
    ensures var more := log + [Passed(WINDOW + 10, WINDOW + 10)] + [Passed(WINDOW, WINDOW + 10)];
            DistinctTimes(more) && NoResetAmong(more, 1) && PassCount(more, 1) == MAX_ATTEMPTS + 2
  {
    CountAll(log, 1);
    PassCountAppend(log, Passed(WINDOW + 10, WINDOW + 10), 1);
    PassCountAppend(log + [Passed(WINDOW + 10, WINDOW + 10)], Passed(WINDOW, WINDOW + 10), 1);
  }

  /** One overtaken attempt among distinct timestamps, with no fault and no reset, makes it seven. */
  lemma SevenPass() returns (actions: seq<Action>)
    ensures var log := Run(actions).log;
            DistinctTimes(log) && NoResetAmong(log, 1) && PassCount(log, 1) == MAX_ATTEMPTS + 2
  {
    var waited := Attempts(6) + [Tick(WINDOW - 6)];
    SixPass(6);
    InstantsAre(6);
    Append(Attempts(6), Tick(WINDOW - 6));
    var s := Run(waited);
    OvertakenAttemptPasses(s, 0, 1, 10);
    RunThree(waited, Begin(0), Tick(10), Begin(1));
    var stamped := waited + [Begin(0)] + [Tick(10)] + [Begin(1)];
    Append(stamped, Check(1, Done));
    Append(stamped + [Check(1, Done)], Check(0, Done));
    actions := stamped + [Check(1, Done)] + [Check(0, Done)];
    SevenCount(s.log);
  }

  // ---- The program ---------------------------------------------------------------------------

  datatype LoginAnswer = WrongCredentials | TooManyAttempts | Granted

  /** Time passes, and Redis drops an expired set at once. */
  function Waited(s: State, lag: nat): State {
    Step(Step(s, Tick(lag)), Expire)
  }

  /** An attempt that nothing overtakes: it reads the clock, and its pipeline runs some time later. */
  function Attempt(s: State, lag: nat, o: Outcome): State {
    Pipeline(Waited(s, lag), s.clock, o)
  }

  lemma AttemptIsARun(s: State, lag: nat, o: Outcome)
    requires s.stamps == map[]
    ensures Attempt(s, lag, o) == Step(Step(Step(Step(s, Begin(0)), Tick(lag)), Expire), Check(0, o))
  {
    var begun := Step(Step(Step(s, Begin(0)), Tick(lag)), Expire);
    assert begun.(stamps := begun.stamps - {0}) == Waited(s, lag);
  }

  /** The attempt passes if it cannot be counted or at most five are left of the window; unless lost, it
      is added to those, and the set is renewed for fifteen minutes. */
  lemma AttemptLeaves(s: State, lag: nat, o: Outcome)
    ensures var after := Attempt(s, lag, o);
            var kept := set m | m in Members(Waited(s, lag).entry) && m > s.clock - 900_000_000_000;
            && after.clock == s.clock + lag
            && after.log == s.log + [Checked(s.clock, s.clock + lag, !o.Done? || |kept| <= 5, !o.Lost?, !o.Done?)]
            && after.entry == (if o.Lost? then Waited(s, lag).entry
                               else Some(Entry(kept + {s.clock}, s.clock + lag + 900_000_000_000)))
  {
    assert Pruned(Waited(s, lag).entry, s.clock - WINDOW) ==
           set m | m in Members(Waited(s, lag).entry) && m > s.clock - 900_000_000_000;
  }

  lemma WaitedInv(s: State, lag: nat)
    requires Inv(s)
    ensures Inv(Waited(s, lag))
  {
    InvStep(s, Tick(lag));
    InvStep(Step(s, Tick(lag)), Expire);
  }

  lemma AttemptInv(s: State, lag: nat, o: Outcome)
    requires Inv(s)
    ensures Inv(Attempt(s, lag, o))
  {
    WaitedInv(s, lag);
    PipelineStep(Waited(s, lag), s.clock, o);
  }

  ghost predicate SetOutlives(s: State, lag: nat) {
    s.entry.Some? ==> s.clock + lag < s.entry.value.deadline
  }

  /** What the pipeline counts. */
  function Tally(s: State, lag: nat): nat {
    |Pruned(Waited(s, lag).entry, s.clock - WINDOW)|
  }

  ghost predicate CountsAsTheLog(s: State, lag: nat) {
    Tally(s, lag) == |Recent(s.log, s.clock - 900_000_000_000)|
  }

  lemma OutlivingSetStays(s: State, lag: nat)
    requires SetOutlives(s, lag)
    ensures Waited(s, lag) == s.(clock := s.clock + lag)
  {
  }

  /** An attempt whose set outlives the lag counts as the log does. */
  lemma AttemptCounts(s: State, lag: nat)
    requires Inv(s) && SetOutlives(s, lag)
    ensures CountsAsTheLog(s, lag) && Punctual(s, s.clock)
  {
    OutlivingSetStays(s, lag);
    InOrderIsPunctual(s, s.clock);
    CountIsOfTheLogIff(s, s.clock);
  }

  lemma AttemptDecides(s: State, lag: nat, o: Outcome)
    requires Inv(s) && SetOutlives(s, lag) && Decided(s.log)
    ensures Decided(Attempt(s, lag, o).log)
  {
    OutlivingSetStays(s, lag);
    AttemptCounts(s, lag);
    WaitedInv(s, lag);
    PipelineDecides(Waited(s, lag), s.clock, o);
  }

  /** The state is kept in order; and where the set outlives the lag, the count is the log's, and the
      attempt is decided by it. */
  ghost predicate Sound(s: State, lag: nat, after: State) {
    && Inv(after)
    && (SetOutlives(s, lag) ==> CountsAsTheLog(s, lag) && (Decided(s.log) ==> Decided(after.log)))
  }

  lemma AttemptIsSound(s: State, lag: nat, o: Outcome)
    requires Inv(s)
    ensures Sound(s, lag, Attempt(s, lag, o))
  {
    AttemptInv(s, lag, o);
    if SetOutlives(s, lag) {
      AttemptCounts(s, lag);
      if Decided(s.log) { AttemptDecides(s, lag, o); }
    }
  }

  lemma ResetIsSound(s: State, o: Outcome)
    requires Inv(s)
    ensures Inv(Step(s, Reset(o))) && (Decided(s.log) ==> Decided(Step(s, Reset(o)).log))
  {
    InvStep(s, Reset(o));
    if Decided(s.log) { DecidedAppend(s.log, Cleared(s.clock)); }
  }

  /** A login that reaches the limiter: the attempt, and after a success the reset. */
  function LoggedIn(s: State, lag: nat, check: Outcome, reset: Outcome, granted: bool): State {
    if granted then Step(Attempt(s, lag, check), Reset(reset)) else Attempt(s, lag, check)
  }

  lemma LoginIsSound(s: State, lag: nat, check: Outcome, reset: Outcome, granted: bool)
    requires Inv(s)
    ensures var after := LoggedIn(s, lag, check, reset, granted);
            && Inv(after)
            && (SetOutlives(s, lag) ==> CountsAsTheLog(s, lag))
            && (Decided(s.log) && SetOutlives(s, lag) ==> Decided(after.log) && WithinBound(after.log))
  {
    AttemptInv(s, lag, check);
    if SetOutlives(s, lag) {
      AttemptCounts(s, lag);
      if Decided(s.log) { AttemptDecides(s, lag, check); }
    }
    ResetIsSound(Attempt(s, lag, check), reset);
    var after := LoggedIn(s, lag, check, reset, granted);
    if Decided(after.log) { DecidedIsWithinBound(after.log); }
  }

  class Limiter {
    var entry: Option<Entry>
    var clock: int
    ghost var log: seq<Event>
    ghost var gone: set<int>
    ghost var latest: int

    constructor ()
      ensures Observed() == INITIAL && Valid() && Decided(log)
    {
      entry, clock, log, gone, latest := None, 0, [], {}, 0;
    }

    ghost function Observed(): State
      reads this
    {
      State(entry, clock, map[], log, gone, latest)
    }

    ghost predicate Valid()
      reads this
    {
      Inv(Observed())
    }

    /** Time passes; an expired set is gone. */
    method Wait(elapsed: nat)
      modifies this
      ensures Observed() == Waited(old(Observed()), elapsed)
    {
      clock := clock + elapsed;
      if entry.Some? && clock >= entry.value.deadline {
        gone, latest := gone + entry.value.members, clock;
        entry := None;
      }
    }

    method RunPipeline(now: int, o: Outcome) returns (count: nat)
      modifies this
      ensures Observed() == Pipeline(old(Observed()), now, o)
      ensures count == |Pruned(old(entry), now - WINDOW)|
    {
      var kept := Pruned(entry, now - WINDOW);
      count := |kept|;
      log := log + [Checked(now, clock, !o.Done? || count <= MAX_ATTEMPTS, !o.Lost?, !o.Done?)];
      if !o.Lost? {
        gone := gone + (Members(entry) - kept) - {now};
        latest := if now > latest then now else latest;
        entry := Some(Entry(kept + {now}, clock + WINDOW));
      }
    }

    /** Reads the clock, and runs the pipeline some time later; None is an error. */
    method CountAttempts(lag: nat, o: Outcome) returns (attempts: Option<nat>)
      modifies this
      ensures Observed() == Attempt(old(Observed()), lag, o)
      ensures attempts == if o.Done? then Some(Tally(old(Observed()), lag)) else None
    {
      var now := clock;
      Wait(lag);
      var count := RunPipeline(now, o);
      attempts := if o.Done? then Some(count) else None;
    }

    /** The attempts before this one in the trailing window; None is an error. */
    method CheckLoginRateLimit(lag: nat, o: Outcome) returns (attempts: Option<nat>)
      requires Valid()
      modifies this
      ensures Valid() && Observed() == Attempt(old(Observed()), lag, o)
      ensures attempts == if o.Done? then Some(Tally(old(Observed()), lag)) else None
      ensures Sound(old(Observed()), lag, Observed())
    {
      AttemptIsSound(Observed(), lag, o);
      attempts := CountAttempts(lag, o);
    }

    method DeleteSet(o: Outcome)
      modifies this
      ensures Observed() == Step(old(Observed()), Reset(o))
    {
      if !o.Lost? {
        entry, gone := None, {};
        log := log + [Cleared(clock)];
      }
    }

    method ResetLoginRateLimit(o: Outcome)
      requires Valid()
      modifies this
      ensures Valid() && Observed() == Step(old(Observed()), Reset(o))
      ensures entry == if o.Lost? then old(entry) else None
      ensures old(Decided(log)) ==> Decided(log)
    {
      ResetIsSound(Observed(), o);
      DeleteSet(o);
      assert log == Observed().log;
    }

    /** A login that reaches the limiter. */
    method TryLogin(passwordMatches: bool, lag: nat, check: Outcome, reset: Outcome) returns (answer: LoginAnswer)
      modifies this
      ensures answer == if check.Done? && Tally(old(Observed()), lag) > 5 then TooManyAttempts
                        else if passwordMatches then Granted else WrongCredentials
      ensures Observed() == LoggedIn(old(Observed()), lag, check, reset, answer == Granted)
    {
      var attempts := CountAttempts(lag, check);
      if attempts.Some? && attempts.value > MAX_ATTEMPTS { return TooManyAttempts; }
      if !passwordMatches { return WrongCredentials; }
      DeleteSet(reset);
      answer := Granted;
    }

    /** A login with this e-mail address; an unknown address never reaches the limiter. As long as no
        set expires between an attempt's timestamp and its pipeline, the limiter stays in its bound. */
    method Login(known: bool, passwordMatches: bool, lag: nat, check: Outcome, reset: Outcome)
      returns (answer: LoginAnswer)
      requires Valid()
      modifies this
      ensures Valid()
      ensures !known ==> answer == WrongCredentials && Observed() == old(Observed())
      ensures known && SetOutlives(old(Observed()), lag) ==>
                var recent := |Recent(old(log), old(clock) - 900_000_000_000)|;
                answer == if check.Done? && recent > 5 then TooManyAttempts
                          else if passwordMatches then Granted else WrongCredentials
      ensures known ==> Observed() == LoggedIn(old(Observed()), lag, check, reset, answer == Granted)
      ensures old(Decided(log)) && SetOutlives(old(Observed()), lag) ==> Decided(log) && WithinBound(log)
    {
      ghost var before := Observed();
      if !known {
        if Decided(log) { DecidedIsWithinBound(log); }
        return WrongCredentials;
      }
      answer := TryLogin(passwordMatches, lag, check, reset);
      LoginIsSound(before, lag, check, reset, answer == Granted);
      assert log == Observed().log;
    }
  }
}
