/** Access tokens and their blacklist: an entry that expires does the work of a permanent one. Times
    are in nanoseconds; a token's exp claim is in whole seconds. */
module AccessTokens {
  import opened Prelude

  const SECOND := 1_000_000_000
  const LIFE := 7 * 24 * 60 * 60 * SECOND

  datatype Claims = Claims(userId: string, exp: int)

  /** black maps a blacklisted string to the time Redis may drop it; revoked records every string
      whose blacklist write has landed. */
  datatype State = State(issued: map<string, Claims>, black: map<string, int>, revoked: set<string>, clock: int)

  /** A new token is a string nobody has presented before: it is signed and carries a random jti. */
  datatype Action =
    | Tick(d: nat)
    | Issue(userId: string, token: string)
    | Blacklist(token: string, outcome: Outcome)
    | Expire(token: string)

  datatype Error = Revoked | Invalid

  const INITIAL := State(map[], map[], {}, 0)

  function Step(s: State, a: Action): State {
    match a
    case Tick(d) => s.(clock := s.clock + d)
    case Issue(u, token) =>
      if token in s.issued || token in s.revoked then s
      else s.(issued := s.issued[token := Claims(u, (s.clock + LIFE) / SECOND)])
    case Blacklist(token, o) =>
      if o.Lost? then s
      else s.(black := s.black[token := s.clock + LIFE], revoked := s.revoked + {token})
    case Expire(token) =>
      if token in s.black && s.clock >= s.black[token] then s.(black := s.black - {token}) else s
  }

  function Run(actions: seq<Action>): State {
    if actions == [] then INITIAL else Step(Run(actions[..|actions| - 1]), actions[|actions| - 1])
  }

  /** A failed lookup is not an error: the token is then judged by its signature and exp alone. */
  function Validate(s: State, token: string, lookup: Outcome): Result<string, Error> {
    if lookup.Done? && token in s.black then Err(Revoked)
    else if token !in s.issued then Err(Invalid)
    else if s.clock >= s.issued[token].exp * SECOND then Err(Invalid)
    else Ok(s.issued[token].userId)
  }

  ghost predicate Inv(s: State) {
    && s.clock >= 0
    && (forall x | x in s.issued :: s.issued[x].exp * SECOND <= s.clock + LIFE)
    && (forall x | x in s.black :: x in s.revoked)
    && (forall x | x in s.revoked && x in s.issued ::
          if x in s.black then s.issued[x].exp * SECOND <= s.black[x] else s.issued[x].exp * SECOND <= s.clock)
  }

  lemma InvStep(s: State, a: Action)
    requires Inv(s)
    ensures Inv(Step(s, a))
  {
  }

  lemma {:induction false} InvAlways(actions: seq<Action>)
    ensures Inv(Run(actions))
  {
    if actions != [] {
      InvAlways(actions[..|actions| - 1]);
      InvStep(Run(actions[..|actions| - 1]), actions[|actions| - 1]);
    }
  }

  /** At every moment of every run, a token is accepted exactly if it was issued, has not reached its
      exp and, as far as the lookup works, was never blacklisted. */
  lemma BlacklistIsPermanent(actions: seq<Action>, token: string, lookup: Outcome)
    ensures var s := Run(actions);
            Validate(s, token, lookup).Ok? <==>
            token in s.issued && s.clock < s.issued[token].exp * SECOND && (lookup.Done? ==> token !in s.revoked)
  {
    InvAlways(actions);
  }

  lemma Append(actions: seq<Action>, a: Action)
    ensures Run(actions + [a]) == Step(Run(actions), a)
  {
    assert (actions + [a])[..|actions|] == actions;
  }

  lemma {:induction false} RevokedGrows(actions: seq<Action>, more: seq<Action>)
    ensures Run(actions).revoked <= Run(actions + more).revoked
  {
    if more == [] {
      assert actions + more == actions;
    } else {
      var n := |more| - 1;
      RevokedGrows(actions, more[..n]);
      Append(actions + more[..n], more[n]);
      assert actions + more == actions + more[..n] + [more[n]];
    }
  }

  /** Once a blacklist write has landed, no later validation with a working lookup accepts the token. */
  lemma RevokedForGood(actions: seq<Action>, token: string, o: Outcome, more: seq<Action>)
    requires !o.Lost?
    ensures Validate(Run(actions + [Blacklist(token, o)] + more), token, Done).Err?
  {
    var landed := actions + [Blacklist(token, o)];
    assert landed[..|actions|] == actions;
    assert token in Run(landed).revoked;
    RevokedGrows(landed, more);
    BlacklistIsPermanent(landed + more, token, Done);
  }

  // ---- In terms of what was done -------------------------------------------------------------

  predicate IssuedIn(actions: seq<Action>, token: string) {
    exists k | 0 <= k < |actions| && actions[k].Issue? :: actions[k].token == token
  }

  /** A blacklist write for the token has landed. */
  predicate LandedIn(actions: seq<Action>, token: string) {
    exists k | 0 <= k < |actions| && actions[k].Blacklist? :: actions[k].token == token && !actions[k].outcome.Lost?
  }

  /** The token is new when action k issues it. */
  predicate FirstIssue(actions: seq<Action>, k: nat, token: string) {
    && k < |actions| && actions[k].Issue? && actions[k].token == token
    && !IssuedIn(actions[..k], token) && !LandedIn(actions[..k], token)
  }

  lemma {:induction false} RecordsAreOfActions(actions: seq<Action>, token: string)
    ensures token in Run(actions).revoked <==> LandedIn(actions, token)
    ensures token in Run(actions).issued || token in Run(actions).revoked <==>
            IssuedIn(actions, token) || LandedIn(actions, token)
  {
    if actions != [] {
      var n := |actions| - 1;
      RecordsAreOfActions(actions[..n], token);
      LandedIsLater(actions, token);
      IssuedIsLater(actions, token);
    }
  }

  lemma LandedIsLater(actions: seq<Action>, token: string)
    requires actions != []
    ensures var n := |actions| - 1;
            LandedIn(actions, token) <==>
            || LandedIn(actions[..n], token)
            || (actions[n].Blacklist? && actions[n].token == token && !actions[n].outcome.Lost?)
  {
    var n := |actions| - 1;
    if LandedIn(actions[..n], token) {
      var k :| 0 <= k < n && actions[..n][k].Blacklist? &&
               actions[..n][k].token == token && !actions[..n][k].outcome.Lost?;
      assert actions[k] == actions[..n][k];
    }
    if LandedIn(actions, token) {
      var k :| 0 <= k <= n && actions[k].Blacklist? && actions[k].token == token && !actions[k].outcome.Lost?;
      assert k < n ==> actions[..n][k] == actions[k];
    }
  }

  lemma IssuedIsLater(actions: seq<Action>, token: string)
    requires actions != []
    ensures var n := |actions| - 1;
            IssuedIn(actions, token) <==>
            IssuedIn(actions[..n], token) || (actions[n].Issue? && actions[n].token == token)
  {
    var n := |actions| - 1;
    if IssuedIn(actions[..n], token) {
      var k :| 0 <= k < n && actions[..n][k].Issue? && actions[..n][k].token == token;
      assert actions[k] == actions[..n][k];
    }
    if IssuedIn(actions, token) {
      var k :| 0 <= k <= n && actions[k].Issue? && actions[k].token == token;
      assert k < n ==> actions[..n][k] == actions[k];
    }
  }

  /** Seven days after the issue, in whole seconds. */
  ghost predicate ClaimsOf(actions: seq<Action>, k: nat, claims: Claims)
    requires k < |actions| && actions[k].Issue?
  {
    && claims.userId == actions[k].userId
    && claims.exp == (Run(actions[..k]).clock + 604_800_000_000_000) / 1_000_000_000
  }

  lemma {:induction false} IssuedWasFirst(actions: seq<Action>, token: string) returns (k: nat)
    requires token in Run(actions).issued
    ensures FirstIssue(actions, k, token) && ClaimsOf(actions, k, Run(actions).issued[token])
  {
    var n := |actions| - 1;
    if token in Run(actions[..n]).issued {
      k := IssuedWasFirst(actions[..n], token);
      assert actions[..n][..k] == actions[..k] && actions[..n][k] == actions[k];
    } else {
      k := n;
      RecordsAreOfActions(actions[..n], token);
    }
  }

  lemma {:induction false} FirstIsIssued(actions: seq<Action>, k: nat, token: string)
    requires FirstIssue(actions, k, token)
    ensures token in Run(actions).issued && ClaimsOf(actions, k, Run(actions).issued[token])
  {
    var n := |actions| - 1;
    if k == n {
      RecordsAreOfActions(actions[..n], token);
    } else {
      assert actions[..n][..k] == actions[..k] && actions[..n][k] == actions[k];
      FirstIsIssued(actions[..n], k, token);
    }
  }

  /** At every moment of every run: a token is accepted for a user exactly if it was issued to that
      user, less than seven days ago in whole seconds, and, as far as the lookup works, no blacklist
      write for it has ever landed. */
  lemma AcceptedIff(actions: seq<Action>, token: string, lookup: Outcome, userId: string)
    ensures var now := Run(actions).clock;
            Validate(Run(actions), token, lookup) == Ok(userId) <==>
            && (exists k | 0 <= k < |actions| ::
                  && FirstIssue(actions, k, token) && actions[k] == Issue(userId, token)
                  && now < (Run(actions[..k]).clock + 604_800_000_000_000) / 1_000_000_000 * 1_000_000_000)
            && (lookup.Done? ==> !LandedIn(actions, token))
  {
    BlacklistIsPermanent(actions, token, lookup);
    RecordsAreOfActions(actions, token);
    if token in Run(actions).issued {
      var first := IssuedWasFirst(actions, token);
      forall k | 0 <= k < |actions| && FirstIssue(actions, k, token) ensures k == first {
        OneFirst(actions, k, first, token);
      }
    } else {
      forall k | 0 <= k < |actions| ensures !FirstIssue(actions, k, token) {
        if FirstIssue(actions, k, token) { FirstIsIssued(actions, k, token); }
      }
    }
  }

  lemma NotFirstAgain(actions: seq<Action>, k: nat, j: nat, token: string)
    requires k < j && k < |actions| && actions[k].Issue? && actions[k].token == token
    ensures !FirstIssue(actions, j, token)
  {
    if j < |actions| { assert actions[..j][k] == actions[k]; }
  }

  lemma OneFirst(actions: seq<Action>, k: nat, j: nat, token: string)
    requires FirstIssue(actions, k, token) && FirstIssue(actions, j, token)
    ensures k == j
  {
    if k < j { NotFirstAgain(actions, k, j, token); } else if j < k { NotFirstAgain(actions, j, k, token); }
  }

  // ---- The program ---------------------------------------------------------------------------

  class TokenService {
    var issued: map<string, Claims>
    var black: map<string, int>
    var clock: int
    ghost var revoked: set<string>

    constructor ()
      ensures Observed() == INITIAL
    {
      issued, black, clock, revoked := map[], map[], 0, {};
    }

    ghost function Observed(): State
      reads this
    {
      State(issued, black, revoked, clock)
    }

    /** The access token of a pair: good for seven days, to the whole second. */
    method IssueToken(userId: string, token: string)
      requires token !in issued && token !in revoked
      modifies this`issued
      ensures Observed() == Step(old(Observed()), Issue(userId, token))
      ensures issued == old(issued)[token := Claims(userId, (clock + 604_800_000_000_000) / 1_000_000_000)]
    {
      issued := issued[token := Claims(userId, (clock + LIFE) / SECOND)];
    }

    /** What Logout starts in the background. */
    method BlacklistToken(token: string, o: Outcome)
      modifies this`black, this`revoked
      ensures Observed() == Step(old(Observed()), Blacklist(token, o))
      ensures black == if o.Lost? then old(black) else old(black)[token := clock + 604_800_000_000_000]
    {
      if !o.Lost? {
        black := black[token := clock + LIFE];
        revoked := revoked + {token};
      }
    }

    method ValidateToken(token: string, lookup: Outcome) returns (reply: Result<string, Error>)
      requires Inv(Observed())
      ensures reply == Validate(Observed(), token, lookup)
      ensures reply.Ok? <==>
              token in issued && clock < issued[token].exp * SECOND && (lookup.Done? ==> token !in revoked)
      ensures reply.Ok? ==> reply.value == issued[token].userId
      ensures reply == Err(Revoked) <==> lookup.Done? && token in black
    {
      if lookup.Done? && token in black { return Err(Revoked); }
      if token !in issued { return Err(Invalid); }
      if clock >= issued[token].exp * SECOND { return Err(Invalid); }
      reply := Ok(issued[token].userId);
    }
  }
}
