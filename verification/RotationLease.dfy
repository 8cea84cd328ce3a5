/**
 The lease bound. When every seal stays within its timeout, the upstream within its own, and the
 store calls of one refresh within what the lease leaves, nobody takes over a claim before its
 holder's final swap, and a family never has two upstream refreshes in flight.
 */
module RotationLease {
  import opened RotationProtocol
  import opened RotationInvariant
  import opened RotationSafety

  /** From reading the clock for the claim to the final swap. */
  predicate Timed(pc: Pc) {
    pc.SealClaim? || pc.SwapClaim? || pc.Ask? || Preparing(pc) || pc.SwapTombstone?
  }

  /** Between winning the claim and the final swap. */
  predicate Holding(pc: Pc) {
    pc.Ask? || Preparing(pc) || pc.SwapTombstone?
  }

  /** How many seals a claim holder at `pc` has begun. */
  function SealsBegun(pc: Pc): nat {
    if pc.SealReply? || pc.PutReply? then 2
    else if pc.SealSuccessor? || pc.PutSuccessor? then 3
    else if pc.SealTombstone? || pc.SwapTombstone? then 4
    else 1
  }

  /** The caller's seals, upstream call and store calls have stayed within their budgets so far. */
  predicate WithinBudget(cfg: Config, c: Caller) {
    Timed(c.pc) ==>
      && c.spent.sealing <= SealsBegun(c.pc) * cfg.sealerTimeout
      && c.spent.upstream <= cfg.upstreamTimeout
      && c.spent.store + cfg.upstreamTimeout + 4 * cfg.sealerTimeout < cfg.lease
  }

  ghost predicate OnTime(cfg: Config, s: State) {
    forall c :: c in s.callers ==> WithinBudget(cfg, s.callers[c])
  }

  /** Every state of the run is on time. */
  ghost predicate RunOnTime(cfg: Config, s: State, run: seq<Event>)
    requires Possible(cfg, s, run)
    decreases |run|
  {
    OnTime(cfg, s) && (run != [] ==> RunOnTime(cfg, Next(cfg, s, run[0]), run[1..]))
  }

  // ---- facts kept by every step ----

  /** All the time since the claim's clock reading has been charged. */
  predicate Charged(s: State, c: Caller) {
    Timed(c.pc) ==> s.now == c.pc.claim.since + c.spent.sealing + c.spent.upstream + c.spent.store
  }

  /** A caller that is about to replace somebody's claim found it older than the lease. */
  predicate Abandoned(cfg: Config, s: State, pc: Pc) {
    Claiming(pc) && pc.seen.record.state.Claimed? ==> s.now > pc.seen.record.state.claimedAt + cfg.lease
  }

  /** The record is still the holder's claim, unless it has been deleted. */
  predicate Unchallenged(s: State, pc: Pc) {
    Holding(pc) ==>
      && pc.claim.handle !in s.rotations
      && (pc.claim.handle in s.records ==> s.records[pc.claim.handle].value == pc.claim.bytes)
  }

  predicate Alone(s: State, a: CallerId, b: CallerId)
    requires a in s.callers && b in s.callers
  {
    Holding(s.callers[a].pc) && Holding(s.callers[b].pc) &&
      s.callers[a].pc.claim.family == s.callers[b].pc.claim.family ==>
      a == b
  }

  ghost predicate Leased(cfg: Config, s: State) {
    && (forall c :: c in s.callers ==> Charged(s, s.callers[c]))
    && (forall c :: c in s.callers ==> Abandoned(cfg, s, s.callers[c].pc))
    && (forall c :: c in s.callers ==> Unchallenged(s, s.callers[c].pc))
    && (forall a, b :: a in s.callers && b in s.callers ==> Alone(s, a, b))
  }

  lemma BudgetEndsBeforeLease(cfg: Config, s: State, c: Caller)
    requires WithinBudget(cfg, c) && Charged(s, c) && Timed(c.pc)
    ensures s.now < c.pc.claim.since + cfg.lease
  {
    assert SealsBegun(c.pc) * cfg.sealerTimeout <= 4 * cfg.sealerTimeout;
  }

  lemma TurnIsCharged(cfg: Config, s: State, c: Caller, ch: Choice)
    requires Charged(s, c)
    ensures var next := Turn(cfg, s, c.pc, ch).next;
      Charged(s, Caller(next, c.presented, c.knew, if c.pc.ClaimClock? then NOTHING_SPENT else c.spent))
  {
    var pc := c.pc;
    if Issuing(pc) || Refreshing(pc) {
      NotTimedEarly(cfg, s, pc, ch);
    } else if Claiming(pc) {
    } else if Preparing(pc) {
    } else if Settling(pc) {
    } else if pc.Ask? {
    } else {
      NotTimedLate(cfg, s, pc, ch);
    }
  }

  lemma NotTimedEarly(cfg: Config, s: State, pc: Pc, ch: Choice)
    requires Issuing(pc) || Refreshing(pc)
    ensures var next := Turn(cfg, s, pc, ch).next; !Timed(next)
  {
    if Issuing(pc) {
    } else {
    }
  }

  lemma NotTimedLate(cfg: Config, s: State, pc: Pc, ch: Choice)
    requires Releasing(pc) || Erasing(pc) || pc.Done?
    ensures !Timed(Turn(cfg, s, pc, ch).next)
  {
    if Releasing(pc) {
    } else if Erasing(pc) {
    } else {
    }
  }

  lemma ChargedStays(cfg: Config, s: State, ev: Event, c: CallerId)
    requires Allowed(cfg, s, ev) && c in Next(cfg, s, ev).callers
    requires c in s.callers ==> Charged(s, s.callers[c])
    ensures Charged(Next(cfg, s, ev), Next(cfg, s, ev).callers[c])
  {
    if ev.Act? && ev.caller == c { TurnIsCharged(cfg, s, s.callers[c], ev.choice); }
  }

  lemma AbandonedTurn(cfg: Config, s: State, me: CallerId, pc: Pc, ch: Choice)
    requires Relies(cfg, s, me, pc) && Abandoned(cfg, s, pc)
    ensures Abandoned(cfg, s, Turn(cfg, s, pc, ch).next)
  {
    if Refreshing(pc) {
      assert RefreshRelies(s, pc);
    } else if Claiming(pc) {
      assert Turn(cfg, s, pc, ch) == ClaimTurn(s, pc, ch);
    } else {
      NoClaimBegins(cfg, s, pc, ch);
    }
  }

  lemma NoClaimBegins(cfg: Config, s: State, pc: Pc, ch: Choice)
    requires !Refreshing(pc) && !Claiming(pc)
    ensures !Claiming(Turn(cfg, s, pc, ch).next)
  {
    if Issuing(pc) {
    } else if Preparing(pc) {
    } else if Settling(pc) {
    } else if Releasing(pc) {
    } else {
    }
  }

  lemma AbandonedStays(cfg: Config, s: State, ev: Event, c: CallerId)
    requires Inv(cfg, s) && Allowed(cfg, s, ev) && c in Next(cfg, s, ev).callers
    requires c in s.callers ==> Abandoned(cfg, s, s.callers[c].pc)
    ensures Abandoned(cfg, Next(cfg, s, ev), Next(cfg, s, ev).callers[c].pc)
  {
    NextGrows(cfg, s, ev, 0);
    if ev.Act? && ev.caller == c { AbandonedTurn(cfg, s, c, s.callers[c].pc, ev.choice); }
  }

  /** A caller that swaps a record cannot be swapping the claim of a holder that is on time. */
  lemma SwapperIsNoIntruder(cfg: Config, s: State, you: CallerId, pc: Pc, holder: CallerId, hc: Caller)
    requires Relies(cfg, s, you, pc) && Abandoned(cfg, s, pc) && (pc.SwapClaim? || pc.SwapRelease? || pc.SwapTombstone?)
    requires Relies(cfg, s, holder, hc.pc) && Holding(hc.pc) && Charged(s, hc) && WithinBudget(cfg, hc) && holder != you
    ensures pc.SwapClaim? ==> pc.seen != hc.pc.claim.bytes
    ensures !pc.SwapClaim? ==> pc.claim.bytes != hc.pc.claim.bytes
  {
    BudgetEndsBeforeLease(cfg, s, hc);
    HolderOwnsClaim(cfg, s, holder, hc.pc);
    if pc.SwapClaim? {
    } else if pc.SwapRelease? {
      assert HoldRelies(s, you, pc);
    } else {
      assert PrepareRelies(cfg, s, you, pc);
    }
  }

  lemma HolderOwnsClaim(cfg: Config, s: State, c: CallerId, pc: Pc)
    requires Relies(cfg, s, c, pc) && Holding(pc)
    ensures ClaimFits(s, c, pc.claim)
  {
    if pc.Ask? {
      assert HoldRelies(s, c, pc);
    } else {
      assert PrepareRelies(cfg, s, c, pc);
    }
  }

  lemma OwnTurnUnchallenged(cfg: Config, s: State, me: CallerId, pc: Pc, ch: Choice)
    requires Global(cfg, s) && Relies(cfg, s, me, pc) && Unchallenged(s, pc)
    ensures var m := Turn(cfg, s, pc, ch); Unchallenged(Apply(s, me, m.effect), m.next)
  {
    var m := Turn(cfg, s, pc, ch);
    if Holding(m.next) {
      HoldersComeFrom(cfg, s, pc, ch);
      EffectsComeFrom(cfg, s, pc, ch);
      if pc.SwapClaim? {
        ClaimIsWritten(s, me, pc, m);
      } else {
        HolderOwnsClaim(cfg, s, me, pc);
        assert pc.PutSuccessor? ==> PrepareRelies(cfg, s, me, pc);
        ClaimIsKept(s, me, pc, m);
      }
    }
  }

  lemma ClaimIsWritten(s: State, me: CallerId, pc: Pc, m: Move)
    requires RecordsOk(s) && pc.SwapClaim? && Holding(m.next) && m.next.claim == pc.claim && HoldsToken(pc.seen)
    requires m.effect.Overwrite? && m.effect.handle == pc.claim.handle && m.effect.bytes == pc.claim.bytes
    requires Holds(s, pc.claim.handle, pc.seen)
    ensures Unchallenged(Apply(s, me, m.effect), m.next)
  {
    assert RecordOk(s, pc.claim.handle);
  }

  lemma ClaimIsKept(s: State, me: CallerId, pc: Pc, m: Move)
    requires Holding(pc) && Holding(m.next) && m.next.claim == pc.claim && Unchallenged(s, pc)
    requires From(s, pc, m.effect) && !m.effect.Rotate? && !m.effect.Remove?
    requires ClaimFits(s, me, pc.claim) && (pc.PutSuccessor? ==> pc.offer.successor !in s.births)
    requires m.effect.Create? ==> pc.PutSuccessor? && m.effect.handle == pc.offer.successor
    ensures Unchallenged(Apply(s, me, m.effect), m.next)
  {
  }

  lemma HoldersComeFrom(cfg: Config, s: State, pc: Pc, ch: Choice)
    requires Holding(Turn(cfg, s, pc, ch).next)
    ensures var m := Turn(cfg, s, pc, ch);
      && (Holding(pc) || pc.SwapClaim?) && m.next.claim == pc.claim && !m.effect.Rotate? && !m.effect.Remove?
      && (pc.SwapClaim? ==> && m.effect.Overwrite? && m.effect.handle == pc.claim.handle
                            && m.effect.bytes == pc.claim.bytes
                            && Holds(s, pc.claim.handle, pc.seen))
  {
    if Issuing(pc) || Refreshing(pc) {
      NotTimedEarly(cfg, s, pc, ch);
    } else if Releasing(pc) || Erasing(pc) || pc.Done? {
      NotTimedLate(cfg, s, pc, ch);
    } else if Claiming(pc) {
    } else if Preparing(pc) {
    } else {
    }
  }

  /** No other caller's step takes the claim of a holder that is on time. */
  lemma HolderStaysUnchallenged(cfg: Config, s: State, you: CallerId, ch: Choice, holder: CallerId)
    requires Inv(cfg, s) && Leased(cfg, s) && OnTime(cfg, s) && Allowed(cfg, s, Act(you, ch))
    requires holder in s.callers && holder != you
    ensures Unchallenged(Next(cfg, s, Act(you, ch)), s.callers[holder].pc)
  {
    var hc := s.callers[holder];
    if Holding(hc.pc) {
      var pc := s.callers[you].pc;
      var e := Turn(cfg, s, pc, ch).effect;
      TurnIsLegal(cfg, s, you, pc, ch);
      EffectsComeFrom(cfg, s, pc, ch);
      HolderOwnsClaim(cfg, s, holder, hc.pc);
      assert Unchallenged(s, hc.pc);
      if e.Overwrite? || e.Rotate? { SwapperIsNoIntruder(cfg, s, you, pc, holder, hc); }
    }
  }

  lemma UnchallengedStays(cfg: Config, s: State, ev: Event, c: CallerId)
    requires Inv(cfg, s) && Leased(cfg, s) && OnTime(cfg, s) && Allowed(cfg, s, ev) && c in Next(cfg, s, ev).callers
    ensures Unchallenged(Next(cfg, s, ev), Next(cfg, s, ev).callers[c].pc)
  {
    if c in s.callers {
      assert Unchallenged(s, s.callers[c].pc);
      if ev.Act? {
        if ev.caller == c {
          OwnTurnUnchallenged(cfg, s, c, s.callers[c].pc, ev.choice);
        } else {
          HolderStaysUnchallenged(cfg, s, ev.caller, ev.choice, c);
        }
      }
    }
  }

  /** Whoever wins a claim is the only holder of its family. */
  lemma WinnerIsAlone(cfg: Config, s: State, c: CallerId, ch: Choice, holder: CallerId)
    requires Inv(cfg, s) && Leased(cfg, s) && OnTime(cfg, s) && Allowed(cfg, s, Act(c, ch))
    requires holder in s.callers && holder != c && Holding(s.callers[holder].pc)
    requires s.callers[c].pc.SwapClaim? && Holding(Turn(cfg, s, s.callers[c].pc, ch).next)
    ensures s.callers[c].pc.claim.family != s.callers[holder].pc.claim.family
  {
    var pc := s.callers[c].pc;
    var hc := s.callers[holder];
    HoldersComeFrom(cfg, s, pc, ch);
    HolderOwnsClaim(cfg, s, holder, hc.pc);
    assert ClaimRelies(s, c, pc);
    SwapperIsNoIntruder(cfg, s, c, pc, holder, hc);
    assert Unchallenged(s, hc.pc);
    assert RecordOk(s, pc.claim.handle) && BehindTip(s, pc.claim.handle) && BehindTip(s, hc.pc.claim.handle);
  }

  lemma AloneStays(cfg: Config, s: State, ev: Event, a: CallerId, b: CallerId)
    requires Inv(cfg, s) && Leased(cfg, s) && OnTime(cfg, s) && Allowed(cfg, s, ev)
    requires a in Next(cfg, s, ev).callers && b in Next(cfg, s, ev).callers
    ensures Alone(Next(cfg, s, ev), a, b)
  {
    var s' := Next(cfg, s, ev);
    if a != b && Holding(s'.callers[a].pc) && Holding(s'.callers[b].pc) {
      assert a in s.callers && b in s.callers && Alone(s, a, b);
      if ev.Act? && (ev.caller == a || ev.caller == b) {
        var c, other := ev.caller, if ev.caller == a then b else a;
        HoldersComeFrom(cfg, s, s.callers[c].pc, ev.choice);
        if s.callers[c].pc.SwapClaim? { WinnerIsAlone(cfg, s, c, ev.choice, other); }
      }
    }
  }

  lemma NextKeepsLeased(cfg: Config, s: State, ev: Event)
    requires Inv(cfg, s) && Leased(cfg, s) && OnTime(cfg, s) && Allowed(cfg, s, ev)
    ensures Leased(cfg, Next(cfg, s, ev))
  {
    var s' := Next(cfg, s, ev);
    forall c | c in s'.callers ensures Charged(s', s'.callers[c]) {
      assert c in s.callers ==> Charged(s, s.callers[c]);
      ChargedStays(cfg, s, ev, c);
    }
    forall c | c in s'.callers ensures Abandoned(cfg, s', s'.callers[c].pc) {
      assert c in s.callers ==> Abandoned(cfg, s, s.callers[c].pc);
      AbandonedStays(cfg, s, ev, c);
    }
    forall c | c in s'.callers ensures Unchallenged(s', s'.callers[c].pc) { UnchallengedStays(cfg, s, ev, c); }
    forall a, b | a in s'.callers && b in s'.callers ensures Alone(s', a, b) { AloneStays(cfg, s, ev, a, b); }
  }

  lemma {:induction false} RunKeepsLeased(cfg: Config, s: State, run: seq<Event>)
    requires Inv(cfg, s) && Leased(cfg, s) && Possible(cfg, s, run) && RunOnTime(cfg, s, run)
    ensures Leased(cfg, After(cfg, s, run))
    decreases |run|
  {
    if run != [] {
      NextKeepsInv(cfg, s, run[0]);
      NextKeepsLeased(cfg, s, run[0]);
      RunKeepsLeased(cfg, Next(cfg, s, run[0]), run[1..]);
    }
  }

  // ---- the theorems ----

  /** In every run on time, a family never has two upstream refreshes in flight. */
  lemma OneUpstreamRefreshPerFamily(cfg: Config, run: seq<Event>, a: CallerId, b: CallerId)
    requires Possible(cfg, INITIAL, run) && RunOnTime(cfg, INITIAL, run)
    requires var s := After(cfg, INITIAL, run);
      && a in s.callers && b in s.callers && s.callers[a].pc.Ask? && s.callers[b].pc.Ask?
      && s.callers[a].pc.claim.family == s.callers[b].pc.claim.family
    ensures a == b
  {
    InitialInv(cfg);
    RunKeepsLeased(cfg, INITIAL, run);
    assert Alone(After(cfg, INITIAL, run), a, b);
  }

  /** In every run on time, a holder's claim stands until its final swap, unless a revocation deleted the record. */
  lemma NoTakeoverBeforeFinalSwap(cfg: Config, run: seq<Event>, c: CallerId)
    requires Possible(cfg, INITIAL, run) && RunOnTime(cfg, INITIAL, run)
    requires c in After(cfg, INITIAL, run).callers && Holding(After(cfg, INITIAL, run).callers[c].pc)
    ensures var s := After(cfg, INITIAL, run);
      var claim := s.callers[c].pc.claim;
      if claim.handle in s.records then s.records[claim.handle].value == claim.bytes
      else claim.family in s.markers
  {
    InitialInv(cfg);
    RunKeepsLeased(cfg, INITIAL, run);
    RunKeepsInv(cfg, INITIAL, run);
    var s := After(cfg, INITIAL, run);
    assert Unchallenged(s, s.callers[c].pc);
    HolderOwnsClaim(cfg, s, c, s.callers[c].pc);
    assert KeptOk(cfg, s, s.callers[c].pc.claim.handle);
  }
}
