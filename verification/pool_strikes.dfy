/** Heartbeat accounting across a whole entry: stored strikes are 1 or 2 and equal the failed
    heartbeats of the instance since its last pass, claim, drop or prune. */
module PoolStrikes {
  import opened Wrappers
  import opened PoolLedger
  import opened PoolHeartbeat
  import opened PoolEntry
  import opened PoolShape

  ghost predicate StrikesInv(en: Entry) {
    StrikesMatch(en.ledger, en.past.log)
  }

  lemma NewEntryStrikes(now: Instant)
    ensures StrikesInv(NewEntry(now))
  {
  }

  lemma SameStrikes(l: Ledger, l': Ledger, log: seq<HeartbeatEvent>)
    requires StrikesMatch(l, log) && l'.heartbeatFailures == l.heartbeatFailures
    ensures StrikesMatch(l', log)
  {
    assert forall id :: StrikesOf(l', id) == StrikesOf(l, id);
  }

  lemma LocalSameStrikes(env: Env, en: Entry, s: EntryStep)
    requires Enabled(en, s) && Local(s) && !s.FinishPass?
    ensures var en' := DoLocal(env, en, s);
      en'.ledger.heartbeatFailures == en.ledger.heartbeatFailures && en'.past.log == en.past.log
  {
    if s.SandboxFails? {
      StampAllEffect(en.ledger.(dirty := false, initialized := true), en.requests[s.request].stage.enabled, ViewOf(env));
    }
  }

  lemma OthersSameStrikes(env: Env, en: Entry, s: EntryStep)
    requires Enabled(en, s) && (s.SpawnFails? || s.Land? || s.Release? || s.FreePool?)
    ensures var en' := Do(env, en, s).entry;
      en'.ledger.heartbeatFailures == en.ledger.heartbeatFailures && en'.past.log == en.past.log
  {
    hide Held, KeepArcs, DoLocal;
    if s.Land? {
      LandSameStrikes(env, en, s.incarnation);
      hide DoLand;
    } else {
      hide DoLand, DoBeginDecide, DoDecideNext;
    }
  }

  lemma LandSameStrikes(env: Env, en: Entry, i: Incarnation)
    requires CanLand(en, i)
    ensures var en' := DoLand(env, en, i).entry;
      en'.ledger.heartbeatFailures == en.ledger.heartbeatFailures && en'.past.log == en.past.log
  {
    LandingStrikesNobody(en.ledger, en.tasks[i].id, None);
    LandingStrikesNobody(en.ledger, en.tasks[i].id, Some(i));
    hide LandLedger;
  }

  lemma LandingStrikesNobody(l: Ledger, id: InstanceId, arrived: Option<Incarnation>)
    ensures LandLedger(l, id, arrived).heartbeatFailures == l.heartbeatFailures
  {
  }

  lemma FinishPassKeepsStrikes(en: Entry, p: PassId, passed: seq<bool>)
    requires StrikesInv(en) && CanFinish(en, p, passed)
    ensures StrikesInv(DoFinishPass(en, p, passed))
  {
    hide StrikesMatch;
    PassKeepsStrikes(en.ledger, en.past.log, en.borrows[ByPass(p)], passed);
  }

  lemma BeginDecideKeepsStrikes(env: Env, en: Entry, r: RequestId)
    requires StrikesInv(en) && r in en.requests && en.requests[r].stage.Listed?
    ensures StrikesInv(DoBeginDecide(env, en, r).entry)
  {
    hide StrikesMatch;
    PruneKeepsStrikes(en.ledger, en.past.log, Elements(en.requests[r].stage.enabled));
  }

  lemma TurnLog(env: Env, en: Entry, r: RequestId)
    requires InTurn(en, r)
    ensures DoDecideNext(env, en, r).entry.past.log
         == en.past.log + if VerdictOf(env, en, r).Claim? then [Claimed(TurnOf(en, r))] else []
  {
    hide DecideOne, Judge, Pinned;
  }

  lemma TurnKeepsStrikes(env: Env, en: Entry, r: RequestId)
    requires StrikesInv(en) && InTurn(en, r)
    ensures StrikesInv(DoDecideNext(env, en, r).entry)
  {
    TurnEffect(env, en, r);
    TurnLog(env, en, r);
    hide StrikesMatch, DoDecideNext, VerdictOf, ClaimLedger;
    if VerdictOf(env, en, r).Claim? {
      ClaimKeepsStrikes(en.ledger, en.past.log, ViewOf(env), TurnOf(en, r));
    } else {
      assert en.past.log + [] == en.past.log;
      SameStrikes(en.ledger, DoDecideNext(env, en, r).entry.ledger, en.past.log);
    }
  }

  /** Every step keeps strikes and history in step. */
  lemma StepKeepsStrikes(env: Env, en: Entry, s: EntryStep)
    requires StrikesInv(en) && Enabled(en, s)
    ensures StrikesInv(Do(env, en, s).entry)
  {
    hide StrikesMatch, DoLocal, DoDecideNext, DoLand, DoBeginDecide, DoRelease, DoFreePool, Held;
    if Local(s) {
      LocalKeepsStrikes(env, en, s);
    } else if s.BeginDecide? {
      BeginDecideKeepsStrikes(env, en, s.request);
    } else if s.DecideNext? {
      TurnKeepsStrikes(env, en, s.request);
    } else {
      OthersSameStrikes(env, en, s);
      SameStrikes(en.ledger, Do(env, en, s).entry.ledger, en.past.log);
    }
  }

  lemma LocalKeepsStrikes(env: Env, en: Entry, s: EntryStep)
    requires StrikesInv(en) && Enabled(en, s) && Local(s)
    ensures StrikesInv(DoLocal(env, en, s))
  {
    hide StrikesMatch, DoFinishPass;
    if s.FinishPass? {
      FinishPassKeepsStrikes(en, s.pass, s.passed);
    } else {
      LocalSameStrikes(env, en, s);
      SameStrikes(en.ledger, DoLocal(env, en, s).ledger, en.past.log);
    }
  }
}
