/** What each call of the user service comes to when it runs alone, field by field. Thirty days and one
    hour are in nanoseconds. */
module TokenResults {
  import opened Prelude
  import opened RefreshTokens

  predicate NoFaults(env: nat -> Choice) {
    env(0).outcome.Done? && env(1).outcome.Done? && env(2).outcome.Done? && env(3).outcome.Done?
  }

  // ---- Without faults ------------------------------------------------------------------------

  lemma RegisterGoesThroughIff(hash: string -> string, s: Store, userId: string, email: string, env: nat -> Choice)
    requires NoFaults(env) && env(2).drawn !in s.issued && userId !in s.users
    ensures var (after, reply) := Complete(hash, s, Registering(userId, email), env, 0);
            if email in s.emails then (after, reply) == (s, Refused)
            else
              && reply == Granted(userId, env(2).drawn)
              && after == s.(users := s.users + {userId}, emails := s.emails[email := userId],
                             tokens := s.tokens[hash(env(2).drawn) := Token(userId, s.clock + 2_592_000_000_000_000)],
                             issued := s.issued[env(2).drawn := userId])
  {
    Unfold(hash, s, Registering(userId, email), env, 0);
    if email !in s.emails {
      Unfold(hash, s, Inserting(userId, email), env, 1);
      Unfold(hash, Advance(hash, s, Inserting(userId, email), env(1)).0, Saving(userId), env, 2);
    }
  }

  lemma LoginGoesThroughIff(hash: string -> string, s: Store, email: string, env: nat -> Choice)
    requires NoFaults(env) && env(1).drawn !in s.issued
    ensures var (after, reply) := Complete(hash, s, LoggingIn(email), env, 0);
            if email !in s.emails then (after, reply) == (s, Refused)
            else
              var u, drawn := s.emails[email], env(1).drawn;
              && reply == Granted(u, drawn)
              && after == s.(tokens := s.tokens[hash(drawn) := Token(u, s.clock + 2_592_000_000_000_000)],
                             issued := s.issued[drawn := u])
  {
    Unfold(hash, s, LoggingIn(email), env, 0);
    if email in s.emails { Unfold(hash, s, Saving(s.emails[email]), env, 1); }
  }

  /** An unexpired token of a user that exists is replaced by a new one; an expired one is purged. */
  lemma RefreshGoesThroughIff(hash: string -> string, s: Store, raw: string, env: nat -> Choice)
    requires NoFaults(env) && env(3).drawn !in s.issued
    ensures var (after, reply) := Complete(hash, s, Finding(raw), env, 0);
            var h, drawn := hash(raw), env(3).drawn;
            if h !in s.tokens then (after, reply) == (s, Refused)
            else if s.clock > s.tokens[h].expiresAt then (after, reply) == (s.(tokens := s.tokens - {h}), Refused)
            else if s.tokens[h].userId !in s.users then (after, reply) == (s, Refused)
            else
              var u := s.tokens[h].userId;
              && reply == Granted(u, drawn)
              && after == s.(tokens := (s.tokens - {h})[hash(drawn) := Token(u, s.clock + 2_592_000_000_000_000)],
                             issued := s.issued[drawn := u], accepted := s.accepted + [raw])
  {
    Unfold(hash, s, Finding(raw), env, 0);
    if hash(raw) in s.tokens {
      var token := s.tokens[hash(raw)];
      if s.clock > token.expiresAt { Unfold(hash, s, Purging(raw), env, 1); }
      else if token.userId in s.users { RotationRuns(hash, s, raw, env); }
      else { Unfold(hash, s, Checking(raw, token.userId), env, 1); }
    }
  }

  /** A logout leaves every token but the presented one and the user's own. */
  lemma LogOutLeaves(hash: string -> string, s: Store, userId: string, raw: string, env: nat -> Choice)
    requires NoFaults(env)
    ensures var (after, reply) := Complete(hash, s, StartLogout(userId, raw), env, 0);
            && reply == Finished && after == s.(tokens := after.tokens)
            && (forall h :: h in after.tokens <==>
                  h in s.tokens && s.tokens[h].userId != userId && !(raw != "" && h == hash(raw)))
            && (forall h | h in after.tokens :: after.tokens[h] == s.tokens[h])
  {
    if raw == "" {
      Unfold(hash, s, DroppingAll(userId), env, 0);
    } else {
      Unfold(hash, s, DroppingOne(userId, raw), env, 0);
      Unfold(hash, s.(tokens := s.tokens - {hash(raw)}), DroppingAll(userId), env, 1);
    }
  }

  lemma ForgotPasswordLeaves(hash: string -> string, s: Store, email: string, env: nat -> Choice)
    requires NoFaults(env)
    ensures var (after, reply) := Complete(hash, s, Forgetting(email), env, 0);
            && reply == Finished
            && after == if email !in s.emails then s
                        else s.(resets := s.resets[s.emails[email] :=
                                  ResetToken(hash(env(1).drawn), s.clock + 3_600_000_000_000)])
  {
    Unfold(hash, s, Forgetting(email), env, 0);
    if email in s.emails { Unfold(hash, s, Offering(s.emails[email]), env, 1); }
  }

  /** A reset that matches is used up, and takes all of the user's refresh tokens with it. */
  lemma ResetGoesThroughIff(hash: string -> string, s: Store, userId: string, raw: string, env: nat -> Choice)
    requires NoFaults(env)
    ensures var (after, reply) := Complete(hash, s, Matching(userId, raw), env, 0);
            if userId in s.users && userId in s.resets && s.resets[userId].hash == hash(raw)
               && s.clock < s.resets[userId].expiresAt then
              && reply == Finished && after == s.(resets := s.resets - {userId}, tokens := after.tokens)
              && (forall h :: h in after.tokens <==> h in s.tokens && s.tokens[h].userId != userId)
              && (forall h | h in after.tokens :: after.tokens[h] == s.tokens[h])
            else (after, reply) == (s, Refused)
  {
    Unfold(hash, s, Matching(userId, raw), env, 0);
    if ResetMatches(hash, s, userId, raw) {
      Unfold(hash, s, Rewriting(userId), env, 1);
      Unfold(hash, s, Clearing(userId), env, 2);
      Unfold(hash, s.(resets := s.resets - {userId}), DroppingAll(userId), env, 3);
    }
  }

  /** The string that a ForgotPassword handed out, and no other, resets the password, at every moment
      within the hour and at none after it, as long as the stored reset is the one it left. */
  lemma ForgottenThenReset(hash: string -> string, s: Store, email: string, asked: nat -> Choice,
                           later: Store, raw: string, env: nat -> Choice)
    requires Injective(hash) && NoFaults(asked) && NoFaults(env) && email in s.emails
    requires var u, left := s.emails[email], Complete(hash, s, Forgetting(email), asked, 0).0;
             u in later.users && u in later.resets && u in left.resets && later.resets[u] == left.resets[u]
    ensures Complete(hash, later, Matching(s.emails[email], raw), env, 0).1 ==
            if raw == asked(1).drawn && later.clock < s.clock + 3_600_000_000_000 then Finished else Refused
  {
    ForgotPasswordLeaves(hash, s, email, asked);
    ResetGoesThroughIff(hash, later, s.emails[email], raw, env);
  }

  // ---- With faults ---------------------------------------------------------------------------

  /** A remote call that is lost leaves nothing, one whose answer is lost leaves what it does. The log
      of failed deletes aside, which no program keeps. */
  lemma FaultLeaves(hash: string -> string, s: Store, call: Call, c: Choice)
    requires !c.outcome.Done?
    ensures var after := Advance(hash, s, call, c).0;
            && (c.outcome.Lost? ==> after == s.(kept := after.kept))
            && (c.outcome.Unacked? && !call.Checking? ==> after == Advance(hash, s, call, c.(outcome := Done)).0)
            && (c.outcome.Unacked? && call.Checking? ==> after == s)
  {
  }

  /** Faults of deletes and of lookups of an address to register or to remind are not reported; any
      other ends the call with an error. */
  lemma FaultIsReportedIff(hash: string -> string, s: Store, call: Call, c: Choice)
    requires !c.outcome.Done? && !call.Returned?
    ensures Advance(hash, s, call, c).1 ==
            match call
            case Registering(u, email) => Inserting(u, email)
            case Rotating(_, u) => Saving(u)
            case DroppingOne(u, _) => DroppingAll(u)
            case Clearing(u) => DroppingAll(u)
            case DroppingAll(_) => Returned(Finished)
            case Forgetting(_) => Returned(Finished)
            case _ => Returned(Refused)
  {
  }
}
