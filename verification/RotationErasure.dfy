/**
 Erasure: once a revocation and every refresh in flight with it have ended, no record of the
 family holds an upstream token, in every run without crashes or failures in which no caller that
 withholds its tokens cuts the chain. (`RotationCut` shows a run in which one does.)
 */
module RotationErasure {
  import opened Wrappers
  import opened RotationProtocol
  import opened RotationInvariant
  import opened RotationSafety
  import opened RotationRevocation

  // ---- records somebody still has to deal with ----

  predicate Tending(pc: Pc, u: Handle) {
    (pc.SealTombstone? || pc.SwapTombstone? || pc.MoveHead? || pc.PostCheck? || Dropping(pc)) && pc.offer.successor == u
  }

  /** The caller that minted `u` is between writing its record and settling what becomes of it. */
  predicate InFlight(s: State, u: Handle) {
    u in s.names && s.names[u] in s.callers && Tending(s.callers[s.names[u]].pc, u)
  }

  /** A successor nobody may rely on: never committed, or committed after the marker. */
  predicate Unwanted(s: State, u: Handle) {
    && u in s.records && u in s.births && u !in s.rotations && s.births[u].parent.Some?
    && (Committed(s, u) ==> s.rotations[s.births[u].parent.value].late && s.now < s.births[u].expires)
  }

  predicate Tended(s: State, u: Handle) {
    Unwanted(s, u) ==> InFlight(s, u)
  }

  /** What was committed after the marker has been shown to nobody. */
  predicate Undisclosed(s: State, h: Handle) {
    h in s.rotations && h in s.births && s.rotations[h].late && s.now < s.births[h].expires ==>
      s.rotations[h].successor !in s.presentable && s.rotations[h].successor !in s.rotations
  }

  /** A caller about to delete, or to fetch a response, is not dealing with a late rotation it may not see. */
  predicate CarefulAt(s: State, pc: Pc) {
    && (pc.EraseDelete? && pc.key in s.rotations ==> s.rotations[pc.key].late)
    && (pc.FetchReply? && pc.handle in s.rotations && s.rotations[pc.handle].late && pc.handle in s.births ==>
          s.now >= s.births[pc.handle].expires)
  }

  predicate Careful(s: State, c: CallerId)
    requires c in s.callers
  {
    CarefulAt(s, s.callers[c].pc)
  }

  /** `f` is revoked and unexpired, its chain has not been cut, and its tip still holds a token. */
  predicate Exposed(s: State, f: Family) {
    && f in s.markers && f in s.families && s.now < s.families[f] && f !in s.cuts
    && f in s.tips && s.tips[f] in s.records && !LateTip(s, f)
  }

  /** Every tombstone on the way to an exposed token is there. */
  predicate Intact(s: State, h: Handle) {
    h in s.rotations && h in s.births && Exposed(s, s.births[h].family) ==> h in s.records
  }

  /** On its walk from a chain member of index `base` or more, the caller at `pc` is about to reach the tip. */
  predicate Reaching(s: State, f: Family, base: nat, pc: Pc) {
    || (pc.ReadHead? && pc.rev.family == f)
    || (pc.EraseLoad? && pc.rev.family == f && pc.key in s.births && base + pc.hops <= s.births[pc.key].index)
    || (pc.EraseDelete? && f in s.tips && pc.key == s.tips[f])
  }

  /** The head pointer is at `base` or beyond. */
  predicate Ahead(s: State, f: Family, base: nat) {
    base > 0 && f in s.families && s.now < s.families[f] ==>
      f in s.heads && OnChain(s, f, s.heads[f].value) && base <= s.births[s.heads[f].value].index
  }

  /** From `base` on the chain is within the hop limit. */
  predicate WithinHops(s: State, f: Family, base: nat) {
    f in s.tips && s.tips[f] in s.births && s.births[s.tips[f]].index < MAX_ERASE_HOPS + base
  }

  /** The caller that marked `f` will erase the exposed token, if the chain is within the hop limit. */
  predicate Responsible(s: State, f: Family, base: nat) {
    Exposed(s, f) && WithinHops(s, f, base) ==>
      s.markers[f].value in s.callers && Reaching(s, f, base, s.callers[s.markers[f].value].pc)
  }

  ghost predicate Erasable(s: State) {
    s.faulty
    || (&& (forall u :: Tended(s, u)) && (forall h :: Undisclosed(s, h))
        && (forall c :: c in s.callers ==> Careful(s, c)) && (forall h :: Intact(s, h)))
  }

  // ---- each fact is kept by every fault-free step ----

  lemma TendingTurn(cfg: Config, s: State, me: CallerId, ch: Choice, u: Handle)
    requires Global(cfg, s) && me in s.callers && Relies(cfg, s, me, s.callers[me].pc) && ch.luck.Fine?
    requires Tending(s.callers[me].pc, u) && Unwanted(s, u)
    ensures var m := Turn(cfg, s, s.callers[me].pc, ch); Tending(m.next, u) || m.effect == Remove(u)
  {
    var pc := s.callers[me].pc;
    if pc.PostCheck? {
      SettledIsCommitted(s, me, pc.claim, pc.offer);
      assert RotationOk(s, pc.claim.handle);
      MarkerStaysVisible(cfg, s, u);
    } else if Dropping(pc) {
    } else if pc.SealTombstone? {
    } else {
    }
  }

  lemma UnwantedBefore(cfg: Config, s: State, ev: Event, u: Handle)
    requires Inv(cfg, s) && Allowed(cfg, s, ev) && u in s.records && Unwanted(Next(cfg, s, ev), u)
    ensures Unwanted(s, u)
  {
    NextGrows(cfg, s, ev, u);
    assert RecordOk(s, u) && BirthOk(s, u);
    NextGrows(cfg, s, ev, s.births[u].parent.value);
  }

  lemma TendedStays(cfg: Config, s: State, ev: Event, u: Handle)
    requires Inv(cfg, s) && Allowed(cfg, s, ev) && !Next(cfg, s, ev).faulty && Tended(s, u)
    ensures Tended(Next(cfg, s, ev), u)
  {
    var s' := Next(cfg, s, ev);
    if Unwanted(s', u) {
      if u in s.records {
        UnwantedBefore(cfg, s, ev, u);
        if ev.Act? && ev.caller == s.names[u] { TendingTurn(cfg, s, ev.caller, ev.choice, u); }
      } else {
        NewbornIsTended(cfg, s, ev.caller, ev.choice, u);
      }
    }
  }

  lemma NewbornIsTended(cfg: Config, s: State, me: CallerId, ch: Choice, u: Handle)
    requires Inv(cfg, s) && Allowed(cfg, s, Act(me, ch)) && ch.luck.Fine? && u !in s.records
    requires Unwanted(Next(cfg, s, Act(me, ch)), u)
    ensures InFlight(Next(cfg, s, Act(me, ch)), u)
  {
    var pc := s.callers[me].pc;
    TurnIsLegal(cfg, s, me, pc, ch);
    var e := Turn(cfg, s, pc, ch).effect;
    assert e.Create? && e.handle == u && e.birth.parent.Some?;
    EffectsComeFrom(cfg, s, pc, ch);
  }

  /** Nobody tells what was committed after the marker, before the family expires. */
  lemma LateIsNotTold(cfg: Config, s: State, me: CallerId, ch: Choice, h: Handle)
    requires Inv(cfg, s) && Allowed(cfg, s, Act(me, ch)) && Careful(s, me)
    requires h in s.rotations && s.rotations[h].late && h in s.births && s.now < s.births[h].expires
    ensures var e := Turn(cfg, s, s.callers[me].pc, ch).effect; e.Tell? ==> e.handle != h
  {
    var pc := s.callers[me].pc;
    var e := Turn(cfg, s, pc, ch).effect;
    if e.Tell? && e.handle == h {
      EffectsComeFrom(cfg, s, pc, ch);
      assert RotationOk(s, h);
      MarkerStaysVisible(cfg, s, h);
    }
  }

  lemma UndisclosedStays(cfg: Config, s: State, ev: Event, h: Handle)
    requires Inv(cfg, s) && Allowed(cfg, s, ev) && Undisclosed(s, h)
    requires ev.Act? ==> Careful(s, ev.caller)
    ensures Undisclosed(Next(cfg, s, ev), h)
  {
    var s' := Next(cfg, s, ev);
    NextGrows(cfg, s, ev, h);
    if ev.Act? && h in s'.rotations && h in s'.births && s'.rotations[h].late && s'.now < s'.births[h].expires {
      var e := Turn(cfg, s, s.callers[ev.caller].pc, ev.choice).effect;
      TurnIsLegal(cfg, s, ev.caller, s.callers[ev.caller].pc, ev.choice);
      if h in s.rotations {
        assert RotationOk(s, h);
        LateIsNotTold(cfg, s, ev.caller, ev.choice, h);
        if e.Tell? { assert RotationOk(s, e.handle); }
        if e.Rotate? { assert RecordOk(s, e.handle); }
        EffectsComeFrom(cfg, s, s.callers[ev.caller].pc, ev.choice);
      } else {
        RotateFacts(cfg, s, ev.caller, e);
      }
    } else if ev.Present? && h in s.rotations {
      assert RotationOk(s, h) && BirthOk(s, s.rotations[h].successor);
    }
  }

  lemma EraseIsCareful(s: State, pc: Pc, ch: Choice)
    requires RecordsOk(s) && Erasing(pc) && ch.luck.Fine? && (pc.EraseDelete? ==> CarefulAt(s, pc))
    ensures var m := RevokeTurn(s, pc, ch);
      CarefulAt(s, m.next) && !m.next.FetchReply? && (m.next.EraseDelete? ==> m.effect.Nothing?)
  {
    if pc.EraseLoad? { assert RecordOk(s, pc.key); }
  }

  lemma CheckIsCareful(cfg: Config, s: State, pc: Pc, ch: Choice)
    requires Global(cfg, s) && Refreshing(pc) && RefreshRelies(s, pc)
    ensures var m := RefreshTurn(cfg, s, pc, ch);
      CarefulAt(s, m.next) && !m.next.EraseDelete? && (m.next.FetchReply? ==> m.effect.Nothing?)
  {
    if pc.CheckRevoked? {
      assert RotationOk(s, pc.handle);
      if s.births[pc.handle].family in s.markers && s.now < s.births[pc.handle].expires {
        MarkerStaysVisible(cfg, s, pc.handle);
      }
    }
  }

  predicate CarefulMove(s: State, m: Move) {
    CarefulAt(s, m.next) && (m.next.EraseDelete? || m.next.FetchReply? ==> m.effect.Nothing?)
  }

  lemma CarefulEraser(cfg: Config, s: State, pc: Pc, ch: Choice)
    requires RecordsOk(s) && Erasing(pc) && CarefulAt(s, pc) && ch.luck.Fine?
    ensures CarefulMove(s, Turn(cfg, s, pc, ch))
  {
    EraseIsCareful(s, pc, ch);
  }

  lemma CarefulRefresher(cfg: Config, s: State, pc: Pc, ch: Choice)
    requires Global(cfg, s) && Refreshing(pc) && RefreshRelies(s, pc)
    ensures CarefulMove(s, Turn(cfg, s, pc, ch))
  {
    CheckIsCareful(cfg, s, pc, ch);
  }

  lemma CarefulTurn(cfg: Config, s: State, me: CallerId, pc: Pc, ch: Choice)
    requires Global(cfg, s) && Relies(cfg, s, me, pc) && CarefulAt(s, pc) && ch.luck.Fine?
    ensures CarefulMove(s, Turn(cfg, s, pc, ch))
  {
    if Erasing(pc) {
      CarefulEraser(cfg, s, pc, ch);
    } else if Refreshing(pc) {
      CarefulRefresher(cfg, s, pc, ch);
    } else {
      NeitherErasesNorFetches(cfg, s, pc, ch);
    }
  }

  lemma NeitherErasesNorFetches(cfg: Config, s: State, pc: Pc, ch: Choice)
    requires !Erasing(pc) && !Refreshing(pc)
    ensures var next := Turn(cfg, s, pc, ch).next; !next.EraseDelete? && !next.FetchReply?
  {
    if Issuing(pc) {
    } else if Claiming(pc) {
    } else if Preparing(pc) {
    } else if Settling(pc) {
    } else {
    }
  }

  lemma CarefulStays(cfg: Config, s: State, ev: Event, c: CallerId)
    requires Inv(cfg, s) && Allowed(cfg, s, ev) && !Next(cfg, s, ev).faulty && c in Next(cfg, s, ev).callers
    requires c in s.callers ==> Careful(s, c)
    ensures Careful(Next(cfg, s, ev), c)
  {
    if c in s.callers {
      var pc := s.callers[c].pc;
      if ev.Act? && ev.caller == c {
        CarefulTurn(cfg, s, c, pc, ev.choice);
        if Turn(cfg, s, pc, ev.choice).effect.Nothing? { NothingChanges(s, c); }
      } else {
        WaitingStaysCareful(cfg, s, ev, c, pc);
      }
    }
  }

  /** A rotation in a family already marked revoked is late. */
  lemma RotationIsLate(cfg: Config, s: State, ev: Event, h: Handle)
    requires Inv(cfg, s) && Allowed(cfg, s, ev) && h in s.births && s.births[h].family in s.markers && h !in s.rotations
    ensures var s' := Next(cfg, s, ev); h in s'.rotations ==> s'.rotations[h].late
  {
    if ev.Act? { TurnIsLegal(cfg, s, ev.caller, s.callers[ev.caller].pc, ev.choice); }
  }

  lemma WaitingStaysCareful(cfg: Config, s: State, ev: Event, c: CallerId, pc: Pc)
    requires Inv(cfg, s) && Allowed(cfg, s, ev) && Relies(cfg, s, c, pc) && CarefulAt(s, pc)
    ensures CarefulAt(Next(cfg, s, ev), pc)
  {
    if pc.EraseDelete? {
      assert RevokeRelies(s, pc);
      DeleterStaysCareful(cfg, s, ev, pc);
    } else if pc.FetchReply? {
      assert RefreshRelies(s, pc);
      FetcherStaysCareful(cfg, s, ev, pc);
    }
  }

  lemma DeleterStaysCareful(cfg: Config, s: State, ev: Event, pc: Pc)
    requires Inv(cfg, s) && Allowed(cfg, s, ev) && pc.EraseDelete? && RevokeRelies(s, pc) && CarefulAt(s, pc)
    ensures CarefulAt(Next(cfg, s, ev), pc)
  {
    NextGrows(cfg, s, ev, pc.key);
    if pc.key !in s.rotations { RotationIsLate(cfg, s, ev, pc.key); }
  }

  lemma FetcherStaysCareful(cfg: Config, s: State, ev: Event, pc: Pc)
    requires Inv(cfg, s) && Allowed(cfg, s, ev) && pc.FetchReply? && RefreshRelies(s, pc) && CarefulAt(s, pc)
    ensures CarefulAt(Next(cfg, s, ev), pc)
  {
    assert RotationOk(s, pc.handle);
    NextGrows(cfg, s, ev, pc.handle);
  }

  /** A family that is exposed after a step was exposed before it, unless the step marked it. */
  lemma ExposedBefore(cfg: Config, s: State, ev: Event, f: Family)
    requires Inv(cfg, s) && Allowed(cfg, s, ev) && Exposed(Next(cfg, s, ev), f) && f in s.markers
    ensures Exposed(s, f) && Next(cfg, s, ev).tips[f] == s.tips[f] && Next(cfg, s, ev).markers[f] == s.markers[f]
  {
    var s' := Next(cfg, s, ev);
    assert TipOk(s, f) && MarkerOk(s, f);
    if ev.Act? {
      var e := Turn(cfg, s, s.callers[ev.caller].pc, ev.choice).effect;
      TurnIsLegal(cfg, s, ev.caller, s.callers[ev.caller].pc, ev.choice);
      EffectsComeFrom(cfg, s, s.callers[ev.caller].pc, ev.choice);
      if e.Rotate? { RotateFacts(cfg, s, ev.caller, e); }
    }
    NextGrows(cfg, s, ev, s.tips[f]);
    if s.births[s.tips[f]].parent.Some? { NextGrows(cfg, s, ev, s.births[s.tips[f]].parent.value); }
  }

  /** The chain has at most one late link, the last. */
  lemma LateMeansTip(cfg: Config, s: State, h: Handle)
    requires Global(cfg, s) && h in s.rotations && s.rotations[h].late && Undisclosed(s, h)
    requires h in s.births && s.now < s.births[h].expires
    ensures LateTip(s, s.births[h].family)
  {
    var u := s.rotations[h].successor;
    assert RotationOk(s, h) && BirthOk(s, u) && BehindTip(s, u);
  }

  lemma IntactStays(cfg: Config, s: State, ev: Event, h: Handle)
    requires Inv(cfg, s) && Allowed(cfg, s, ev) && Intact(s, h) && Undisclosed(s, h)
    ensures Intact(Next(cfg, s, ev), h)
  {
    var s' := Next(cfg, s, ev);
    if h in s'.rotations && h in s'.births && Exposed(s', s'.births[h].family) {
      var f := s'.births[h].family;
      NextGrows(cfg, s, ev, h);
      if ev.Act? {
        TurnIsLegal(cfg, s, ev.caller, s.callers[ev.caller].pc, ev.choice);
        EffectsComeFrom(cfg, s, s.callers[ev.caller].pc, ev.choice);
      }
      if h !in s.rotations {
        RotateFacts(cfg, s, ev.caller, Turn(cfg, s, s.callers[ev.caller].pc, ev.choice).effect);
      } else if f in s.markers {
        assert RotationOk(s, h) && BirthOk(s, h);
        ExposedBefore(cfg, s, ev, f);
        if s.rotations[h].late { LateMeansTip(cfg, s, h); }
      } else {
        assert RotationOk(s, h) && KeptOk(cfg, s, h);
      }
    }
  }

  lemma WalkGoesOn(cfg: Config, s: State, pc: Pc, ch: Choice, f: Family, base: nat)
    requires Global(cfg, s) && pc.EraseLoad? && RevokeRelies(s, pc) && ch.luck.Fine?
    requires Exposed(s, f) && WithinHops(s, f, base) && Reaching(s, f, base, pc) && Intact(s, pc.key)
    ensures Reaching(s, f, base, RevokeTurn(s, pc, ch).next)
  {
    assert BehindTip(s, pc.key) && RecordOk(s, pc.key) && BirthOk(s, pc.key) && RotationOk(s, pc.key);
    if pc.key in s.rotations { assert BirthOk(s, s.rotations[pc.key].successor); }
  }

  lemma ReachingTurn(cfg: Config, s: State, me: CallerId, ch: Choice, f: Family, base: nat)
    requires Inv(cfg, s) && Allowed(cfg, s, Act(me, ch)) && ch.luck.Fine? && Ahead(s, f, base)
    requires Exposed(s, f) && WithinHops(s, f, base) && Reaching(s, f, base, s.callers[me].pc)
    requires s.callers[me].pc.EraseLoad? ==> Intact(s, s.callers[me].pc.key)
    ensures var m := Turn(cfg, s, s.callers[me].pc, ch); Reaching(s, f, base, m.next) || m.effect == Remove(s.tips[f])
  {
    var pc := s.callers[me].pc;
    assert RevokeRelies(s, pc);
    if pc.ReadHead? {
      WalkStarts(cfg, s, pc, ch, f, base);
    } else if pc.EraseLoad? {
      WalkGoesOn(cfg, s, pc, ch, f, base);
    }
  }

  lemma WalkStarts(cfg: Config, s: State, pc: Pc, ch: Choice, f: Family, base: nat)
    requires Global(cfg, s) && pc.ReadHead? && RevokeRelies(s, pc) && ch.luck.Fine? && pc.rev.family == f
    requires Exposed(s, f) && Ahead(s, f, base)
    ensures Reaching(s, f, base, RevokeTurn(s, pc, ch).next)
  {
    assert HeadOk(s, f);
    if f in s.heads { assert BirthOk(s, s.heads[f].value); }
  }

  lemma ReachingStays(cfg: Config, s: State, ev: Event, f: Family, base: nat, pc: Pc)
    requires Inv(cfg, s) && Allowed(cfg, s, ev) && Reaching(s, f, base, pc)
    requires f in s.tips && f in Next(cfg, s, ev).tips && Next(cfg, s, ev).tips[f] == s.tips[f]
    ensures Reaching(Next(cfg, s, ev), f, base, pc)
  {
    if pc.EraseLoad? { NextGrows(cfg, s, ev, pc.key); }
  }

  lemma ResponsibleStays(cfg: Config, s: State, ev: Event, f: Family, base: nat)
    requires Inv(cfg, s) && Allowed(cfg, s, ev) && !Next(cfg, s, ev).faulty
    requires Responsible(s, f, base) && Ahead(s, f, base) && forall h :: Intact(s, h)
    ensures Responsible(Next(cfg, s, ev), f, base)
  {
    var s' := Next(cfg, s, ev);
    if Exposed(s', f) && WithinHops(s', f, base) {
      if f in s.markers {
        ExposedBefore(cfg, s, ev, f);
        assert TipOk(s, f);
        NextGrows(cfg, s, ev, s.tips[f]);
        MarkerGoesOn(cfg, s, ev, f, base);
      } else {
        MarkerSetsOut(cfg, s, ev, f, base);
      }
    }
  }

  lemma MarkerSetsOut(cfg: Config, s: State, ev: Event, f: Family, base: nat)
    requires Allowed(cfg, s, ev) && !Next(cfg, s, ev).faulty && f !in s.markers && f in Next(cfg, s, ev).markers
    ensures var s' := Next(cfg, s, ev); var r := s'.markers[f].value;
      r in s'.callers && Reaching(s', f, base, s'.callers[r].pc)
  {
    EffectsComeFrom(cfg, s, s.callers[ev.caller].pc, ev.choice);
  }

  /** The caller that marked `f` takes a step, or somebody else does. */
  lemma MarkerGoesOn(cfg: Config, s: State, ev: Event, f: Family, base: nat)
    requires Inv(cfg, s) && Allowed(cfg, s, ev) && !Next(cfg, s, ev).faulty && Ahead(s, f, base)
    requires Responsible(s, f, base) && Exposed(s, f) && WithinHops(s, f, base) && forall h :: Intact(s, h)
    requires var s' := Next(cfg, s, ev); f in s'.tips && s'.tips[f] == s.tips[f] && s'.tips[f] in s'.records
    ensures var s' := Next(cfg, s, ev); var r := s.markers[f].value;
      r in s'.callers && Reaching(s', f, base, s'.callers[r].pc)
  {
    var r := s.markers[f].value;
    if ev.Act? && ev.caller == r {
      assert s.callers[r].pc.EraseLoad? ==> Intact(s, s.callers[r].pc.key);
      ReachingTurn(cfg, s, r, ev.choice, f, base);
      ReachingStays(cfg, s, ev, f, base, Turn(cfg, s, s.callers[r].pc, ev.choice).next);
    } else {
      ReachingStays(cfg, s, ev, f, base, s.callers[r].pc);
      OthersLeaveAlone(cfg, s, ev, r);
    }
  }

  lemma AheadStays(cfg: Config, s: State, ev: Event, f: Family, base: nat)
    requires Inv(cfg, s) && Allowed(cfg, s, ev) && Ahead(s, f, base) && f in s.families
    ensures f in Next(cfg, s, ev).families && Next(cfg, s, ev).families[f] == s.families[f]
    ensures Ahead(Next(cfg, s, ev), f, base)
  {
    var s' := Next(cfg, s, ev);
    if ev.Act? { TurnIsLegal(cfg, s, ev.caller, s.callers[ev.caller].pc, ev.choice); }
    NextGrows(cfg, s, ev, 0);
    if base > 0 && s'.now < s.families[f] {
      assert HeadOk(s, f) && BirthOk(s, s.heads[f].value);
      HeadMovesForward(cfg, s, ev, f);
    }
  }

  lemma NextKeepsErasable(cfg: Config, s: State, ev: Event)
    requires Inv(cfg, s) && Allowed(cfg, s, ev) && Erasable(s)
    ensures Erasable(Next(cfg, s, ev))
  {
    var s' := Next(cfg, s, ev);
    if s.faulty { NextKeepsFaults(cfg, s, ev); }
    if !s'.faulty {
      forall u ensures Tended(s', u) { assert Tended(s, u); TendedStays(cfg, s, ev, u); }
      forall h ensures Undisclosed(s', h) { assert Undisclosed(s, h); UndisclosedStays(cfg, s, ev, h); }
      forall c | c in s'.callers ensures Careful(s', c) {
        assert c in s.callers ==> Careful(s, c);
        CarefulStays(cfg, s, ev, c);
      }
      forall h ensures Intact(s', h) { assert Intact(s, h) && Undisclosed(s, h); IntactStays(cfg, s, ev, h); }
    }
  }

  lemma {:induction false} RunKeepsErasable(cfg: Config, s: State, run: seq<Event>)
    requires Inv(cfg, s) && Possible(cfg, s, run) && Erasable(s)
    ensures Erasable(After(cfg, s, run))
    decreases |run|
  {
    if run != [] {
      NextKeepsInv(cfg, s, run[0]);
      NextKeepsErasable(cfg, s, run[0]);
      RunKeepsErasable(cfg, Next(cfg, s, run[0]), run[1..]);
    }
  }

  lemma {:induction false} RunKeepsResponsible(cfg: Config, s: State, run: seq<Event>, f: Family, base: nat)
    requires Inv(cfg, s) && Possible(cfg, s, run) && Erasable(s) && (base > 0 ==> f in s.families)
    requires Responsible(s, f, base) && Ahead(s, f, base) && !After(cfg, s, run).faulty
    ensures Responsible(After(cfg, s, run), f, base)
    decreases |run|
  {
    if run != [] {
      var s' := Next(cfg, s, run[0]);
      FaultsRemain(cfg, s', run[1..]);
      if s.faulty { NextKeepsFaults(cfg, s, run[0]); }
      NextKeepsInv(cfg, s, run[0]);
      NextKeepsErasable(cfg, s, run[0]);
      ResponsibleStays(cfg, s, run[0], f, base);
      if base > 0 { AheadStays(cfg, s, run[0], f, base); }
      RunKeepsResponsible(cfg, s', run[1..], f, base);
    }
  }

  lemma {:induction false} RunSplits(cfg: Config, s: State, run: seq<Event>, k: nat)
    requires Possible(cfg, s, run) && k <= |run|
    ensures Possible(cfg, s, run[..k]) && Possible(cfg, After(cfg, s, run[..k]), run[k..])
    ensures After(cfg, After(cfg, s, run[..k]), run[k..]) == After(cfg, s, run)
    decreases k
  {
    if k == 0 {
      assert run[0..] == run && run[..0] == [];
    } else {
      RunSplits(cfg, Next(cfg, s, run[0]), run[1..], k - 1);
      assert run[..k][1..] == run[1..][..k - 1] && run[1..][k - 1..] == run[k..];
    }
  }

  // ---- the theorem ----

  /** Every call on a handle of family `f` has ended. */
  ghost predicate Quiet(s: State, f: Family) {
    forall c :: c in s.callers && Subject(s.callers[c].pc).Some? && Subject(s.callers[c].pc).value in s.births ==>
      s.births[Subject(s.callers[c].pc).value].family != f
  }

  /** How far the head pointer has come. */
  function HeadIndex(s: State, f: Family): nat {
    if f in s.heads && s.heads[f].value in s.births then s.births[s.heads[f].value].index else 0
  }

  /**
   The run ends with `f` revoked, unexpired and quiet, without crash, store or sealer failure, and
   its chain is within the hop limit of where the head pointer was after `k` steps, when `f` was not
   marked yet.
   */
  ghost predicate Settles(cfg: Config, run: seq<Event>, k: nat, f: Family)
    requires Possible(cfg, INITIAL, run)
  {
    && k <= |run| && Possible(cfg, INITIAL, run[..k])
    && var s := After(cfg, INITIAL, run);
       var m := After(cfg, INITIAL, run[..k]);
       && !s.faulty && f in s.markers && f in s.families && s.now < s.families[f] && Quiet(s, f)
       && f !in m.markers && WithinHops(s, f, HeadIndex(m, f))
  }

  /**
   In every run without crash, store or sealer failure: once a family is marked revoked and every
   call on it has ended, and until it expires, none of its records holds an upstream token,
   provided its chain is within the hop limit and was not cut.
   */
  lemma RevocationErasesTokens(cfg: Config, run: seq<Event>, k: nat, f: Family, h: Handle)
    requires Possible(cfg, INITIAL, run) && Settles(cfg, run, k, f)
    requires var s := After(cfg, INITIAL, run);
      f !in s.cuts && h in s.records && s.records[h].value.record.family == f
    ensures !HoldsToken(After(cfg, INITIAL, run).records[h].value)
  {
    ReachedInv(cfg, run);
    RunKeepsErasable(cfg, INITIAL, run);
    var s := After(cfg, INITIAL, run);
    assert RecordOk(s, h) && BirthOk(s, h);
    if HoldsToken(s.records[h].value) {
      assert Tended(s, h) && BehindTip(s, h);
      if Unwanted(s, h) {
        TenderIsBusy(cfg, s, f, h);
      } else {
        EraserWasThere(cfg, run, k, f);
      }
    }
  }

  lemma EraserWasThere(cfg: Config, run: seq<Event>, k: nat, f: Family)
    requires Possible(cfg, INITIAL, run) && Settles(cfg, run, k, f) && Inv(cfg, After(cfg, INITIAL, run))
    ensures !Exposed(After(cfg, INITIAL, run), f)
  {
    var m := After(cfg, INITIAL, run[..k]);
    var base := HeadIndex(m, f);
    RunSplits(cfg, INITIAL, run, k);
    ReachedInv(cfg, run[..k]);
    RunKeepsErasable(cfg, INITIAL, run[..k]);
    if base > 0 { assert HeadOk(m, f) && BirthOk(m, m.heads[f].value); }
    RunKeepsResponsible(cfg, m, run[k..], f, base);
    if Exposed(After(cfg, INITIAL, run), f) { EraserIsBusy(cfg, After(cfg, INITIAL, run), f, base); }
  }

  lemma EraserIsBusy(cfg: Config, s: State, f: Family, base: nat)
    requires Inv(cfg, s) && Exposed(s, f) && Responsible(s, f, base) && WithinHops(s, f, base)
    ensures !Quiet(s, f)
  {
    var r := s.markers[f].value;
    var pc := s.callers[r].pc;
    assert Relies(cfg, s, r, pc) && TipOk(s, f);
    assert Subject(pc) == Some(pc.rev.known);
    assert s.births[pc.rev.known].family == pc.rev.family == f;
  }

  lemma TenderIsBusy(cfg: Config, s: State, f: Family, u: Handle)
    requires Inv(cfg, s) && InFlight(s, u) && u in s.births && s.births[u].family == f
    ensures !Quiet(s, f)
  {
    var c := s.names[u];
    var pc := s.callers[c].pc;
    assert Relies(cfg, s, c, pc);
    assert BirthOk(s, u);
    assert Subject(pc) == Some(pc.claim.handle);
    if pc.MoveHead? || pc.PostCheck? || (Dropping(pc) && pc.why.Withheld?) {
      SettledIsCommitted(s, c, pc.claim, pc.offer);
    } else {
      assert OfferFits(s, c, pc.claim, pc.offer);
    }
  }

  // ---- what cuts a chain, and erasure for all runs under the guard against it ----

  predicate IsTombstone(s: State, h: Handle) { h in s.records && !HoldsToken(s.records[h].value) }

  /** The successor that a withholding caller is about to delete was rotated before the family was marked. */
  predicate FindsTombstone(s: State, pc: Pc) {
    && pc.DropSuccessor? && pc.why.Withheld? && IsTombstone(s, pc.offer.successor)
    && (pc.offer.successor in s.rotations ==> !s.rotations[pc.offer.successor].late)
  }

  /** The step deletes such a tombstone while a token is still beyond it. */
  predicate DiscardCuts(s: State, ev: Event, f: Family) {
    && ev.Act? && ev.caller in s.callers
    && var pc := s.callers[ev.caller].pc;
       && FindsTombstone(s, pc) && pc.claim.family == f
       && f in s.tips && s.tips[f] in s.records && !LateTip(s, f)
  }

  /**
   In every run without crash, store or sealer failure: a step cuts the chain of `f` exactly if it
   is a withholding caller's discard that deletes a tombstone. In particular the walk's own delete
   never does, although it looks no second time.
   */
  lemma DiscardCutsExactlyWhen(cfg: Config, run: seq<Event>, ev: Event, f: Family)
    requires Possible(cfg, INITIAL, run) && Allowed(cfg, After(cfg, INITIAL, run), ev)
    requires !Next(cfg, After(cfg, INITIAL, run), ev).faulty
    ensures var s := After(cfg, INITIAL, run); f in Next(cfg, s, ev).cuts <==> f in s.cuts || DiscardCuts(s, ev, f)
  {
    ReachedInv(cfg, run);
    RunKeepsErasable(cfg, INITIAL, run);
    var s := After(cfg, INITIAL, run);
    if s.faulty { NextKeepsFaults(cfg, s, ev); }
    StepCutsExactlyWhen(cfg, s, ev, f);
  }

  lemma StepCutsExactlyWhen(cfg: Config, s: State, ev: Event, f: Family)
    requires Inv(cfg, s) && Erasable(s) && Allowed(cfg, s, ev) && !s.faulty && !Next(cfg, s, ev).faulty
    ensures f in Next(cfg, s, ev).cuts <==> f in s.cuts || DiscardCuts(s, ev, f)
  {
    if ev.Act? {
      var pc := s.callers[ev.caller].pc;
      var e := Turn(cfg, s, pc, ev.choice).effect;
      assert Careful(s, ev.caller) && Relies(cfg, s, ev.caller, pc);
      EffectsComeFrom(cfg, s, pc, ev.choice);
      if e.Remove? {
        if Cuts(s, e.handle) { CutterDiscards(cfg, s, ev.caller, pc, e.handle); }
      }
      if DiscardCuts(s, ev, f) { DiscarderCuts(cfg, s, ev.caller, ev.choice); }
    }
  }

  lemma CutterDiscards(cfg: Config, s: State, c: CallerId, pc: Pc, h: Handle)
    requires Global(cfg, s) && Relies(cfg, s, c, pc) && CarefulAt(s, pc) && Cuts(s, h)
    requires (pc.DropSuccessor? && h == pc.offer.successor) || (pc.EraseDelete? && h == pc.key)
    ensures pc.DropSuccessor? && FindsTombstone(s, pc) && s.births[h].family == pc.claim.family
  {
    assert RecordOk(s, h);
    if pc.DropSuccessor? {
      assert DropRelies(s, c, pc);
      if pc.why.Withheld? { SettledIsCommitted(s, c, pc.claim, pc.offer); }
    }
  }

  lemma DiscarderCuts(cfg: Config, s: State, c: CallerId, ch: Choice)
    requires Inv(cfg, s) && c in s.callers && FindsTombstone(s, s.callers[c].pc) && ch.luck.Fine?
    requires DiscardCuts(s, Act(c, ch), s.callers[c].pc.claim.family)
    ensures var pc := s.callers[c].pc;
      Turn(cfg, s, pc, ch).effect == Remove(pc.offer.successor) && Cuts(s, pc.offer.successor)
      && s.births[pc.offer.successor].family == pc.claim.family
  {
    var pc := s.callers[c].pc;
    assert Relies(cfg, s, c, pc) && DropRelies(s, c, pc);
    SettledIsCommitted(s, c, pc.claim, pc.offer);
    assert RecordOk(s, pc.offer.successor);
  }

  /** No step of the run is a discard that finds a tombstone. */
  ghost predicate RunGuarded(cfg: Config, s: State, run: seq<Event>)
    requires Possible(cfg, s, run)
    decreases |run|
  {
    run != [] ==>
      && (run[0].Act? ==> !FindsTombstone(s, s.callers[run[0].caller].pc))
      && RunGuarded(cfg, Next(cfg, s, run[0]), run[1..])
  }

  lemma {:induction false} GuardedRunCutsNothing(cfg: Config, s: State, run: seq<Event>)
    requires Inv(cfg, s) && Erasable(s) && Possible(cfg, s, run) && RunGuarded(cfg, s, run)
    requires s.cuts == {} && !s.faulty && !After(cfg, s, run).faulty
    ensures After(cfg, s, run).cuts == {}
    decreases |run|
  {
    if run != [] {
      var s' := Next(cfg, s, run[0]);
      FaultsRemain(cfg, s', run[1..]);
      forall f ensures f !in s'.cuts { StepCutsExactlyWhen(cfg, s, run[0], f); }
      NextKeepsInv(cfg, s, run[0]);
      NextKeepsErasable(cfg, s, run[0]);
      GuardedRunCutsNothing(cfg, s', run[1..]);
    }
  }

  /**
   Erasure for all runs in which no withholding caller deletes a successor that was rotated before
   the marker: without crash, store or sealer failure, once a family is marked revoked and every
   call on it has ended, none of its records holds an upstream token.
   */
  lemma GuardedRevocationErasesTokens(cfg: Config, run: seq<Event>, k: nat, f: Family, h: Handle)
    requires Possible(cfg, INITIAL, run) && RunGuarded(cfg, INITIAL, run) && Settles(cfg, run, k, f)
    requires var s := After(cfg, INITIAL, run); h in s.records && s.records[h].value.record.family == f
    ensures !HoldsToken(After(cfg, INITIAL, run).records[h].value)
  {
    InitialInv(cfg);
    GuardedRunCutsNothing(cfg, INITIAL, run);
    RevocationErasesTokens(cfg, run, k, f, h);
  }

  // ---- the guard judged by loading the successor some time before deleting it ----

  /** What a load of `h` shows once its family is marked: no tombstone. */
  predicate LooksSafe(s: State, h: Handle) {
    h in s.births && s.births[h].family in s.markers && !IsTombstone(s, h)
  }

  /** What it then is for good: not rotated, except after the marker. */
  predicate StaysSafe(s: State, h: Handle) {
    && h in s.births && s.births[h].family in s.markers
    && (IsTombstone(s, h) ==> h in s.rotations && s.rotations[h].late)
  }

  lemma SafeStays(cfg: Config, s: State, ev: Event, h: Handle)
    requires Inv(cfg, s) && Allowed(cfg, s, ev) && StaysSafe(s, h)
    ensures StaysSafe(Next(cfg, s, ev), h)
  {
    var s' := Next(cfg, s, ev);
    NextGrows(cfg, s, ev, h);
    NextKeepsInv(cfg, s, ev);
    assert RecordOk(s', h);
    if h in s.rotations {
      RotatedAtMostOnce(cfg, s, ev, h);
      assert RecordOk(s, h);
    } else {
      RotationIsLate(cfg, s, ev, h);
    }
  }

  /**
   Every withholding caller has loaded its successor before deleting it, at any time since the
   family was marked, and found no tombstone. `looks` lists what was loaded before each step, `safe`
   what had been before.
   */
  ghost predicate RunLooks(cfg: Config, s: State, run: seq<Event>, looks: seq<set<Handle>>, safe: set<Handle>)
    requires Possible(cfg, s, run) && |looks| == |run|
    decreases |run|
  {
    run != [] ==>
      && (forall h :: h in looks[0] ==> LooksSafe(s, h))
      && (run[0].Act? ==>
            var pc := s.callers[run[0].caller].pc;
            pc.DropSuccessor? && pc.why.Withheld? ==> pc.offer.successor in safe + looks[0])
      && RunLooks(cfg, Next(cfg, s, run[0]), run[1..], looks[1..], safe + looks[0])
  }

  lemma {:induction false} LookingGuards(cfg: Config, s: State, run: seq<Event>, looks: seq<set<Handle>>,
                                         safe: set<Handle>)
    requires Inv(cfg, s) && Possible(cfg, s, run) && |looks| == |run| && RunLooks(cfg, s, run, looks, safe)
    requires forall h :: h in safe ==> StaysSafe(s, h)
    ensures RunGuarded(cfg, s, run)
    decreases |run|
  {
    if run != [] {
      var s' := Next(cfg, s, run[0]);
      var known := safe + looks[0];
      forall h | h in known ensures StaysSafe(s, h) { assert h in looks[0] ==> LooksSafe(s, h); }
      forall h | h in known ensures StaysSafe(s', h) { SafeStays(cfg, s, run[0], h); }
      NextKeepsInv(cfg, s, run[0]);
      LookingGuards(cfg, s', run[1..], looks[1..], known);
    }
  }

  /** Erasure for all runs in which every withholding caller loads its successor first and finds no tombstone. */
  lemma LookingRevocationErasesTokens(cfg: Config, run: seq<Event>, looks: seq<set<Handle>>, k: nat, f: Family,
                                      h: Handle)
    requires Possible(cfg, INITIAL, run) && |looks| == |run| && RunLooks(cfg, INITIAL, run, looks, {})
    requires Settles(cfg, run, k, f)
    requires var s := After(cfg, INITIAL, run); h in s.records && s.records[h].value.record.family == f
    ensures !HoldsToken(After(cfg, INITIAL, run).records[h].value)
  {
    InitialInv(cfg);
    LookingGuards(cfg, INITIAL, run, looks, {});
    GuardedRevocationErasesTokens(cfg, run, k, f, h);
  }

  // ---- a cut is a gap in the chain ----

  /** While the tip holds a token, every tombstone before it is there. */
  ghost predicate Connected(s: State, f: Family) {
    f in s.tips && s.tips[f] in s.records ==>
      forall h :: h in s.rotations && h in s.births && s.births[h].family == f ==> h in s.records
  }

  predicate Missing(s: State, f: Family, h: Handle) {
    h in s.rotations && h in s.births && s.births[h].family == f && h !in s.records
  }

  ghost predicate CutsAreGaps(s: State) {
    forall f :: f in s.cuts ==> exists h :: Missing(s, f, h)
  }

  lemma MissingStays(cfg: Config, s: State, ev: Event, f: Family, h: Handle)
    requires Inv(cfg, s) && Allowed(cfg, s, ev) && Missing(s, f, h)
    ensures Missing(Next(cfg, s, ev), f, h)
  {
    NextGrows(cfg, s, ev, h);
    RotatedAtMostOnce(cfg, s, ev, h);
  }

  lemma NextKeepsGaps(cfg: Config, s: State, ev: Event)
    requires Inv(cfg, s) && Allowed(cfg, s, ev) && CutsAreGaps(s)
    ensures CutsAreGaps(Next(cfg, s, ev))
  {
    var s' := Next(cfg, s, ev);
    forall f | f in s'.cuts ensures exists h :: Missing(s', f, h) {
      if f in s.cuts {
        var h :| Missing(s, f, h);
        MissingStays(cfg, s, ev, f, h);
      } else {
        assert Missing(s', f, Turn(cfg, s, s.callers[ev.caller].pc, ev.choice).effect.handle);
      }
    }
  }

  lemma {:induction false} RunKeepsGaps(cfg: Config, s: State, run: seq<Event>)
    requires Inv(cfg, s) && Possible(cfg, s, run) && CutsAreGaps(s)
    ensures CutsAreGaps(After(cfg, s, run))
    decreases |run|
  {
    if run != [] {
      NextKeepsInv(cfg, s, run[0]);
      NextKeepsGaps(cfg, s, run[0]);
      RunKeepsGaps(cfg, Next(cfg, s, run[0]), run[1..]);
    }
  }

  /**
   In every run without crash, store or sealer failure: as long as a revoked family stores a token
   that nobody in flight will withdraw, its chain has a gap exactly if it was cut.
   */
  lemma GapExactlyWhenCut(cfg: Config, run: seq<Event>, f: Family)
    requires Possible(cfg, INITIAL, run)
    requires var s := After(cfg, INITIAL, run);
      && !s.faulty && f in s.markers && f in s.families && s.now < s.families[f]
      && f in s.tips && s.tips[f] in s.records && !LateTip(s, f)
    ensures var s := After(cfg, INITIAL, run); Connected(s, f) <==> f !in s.cuts
  {
    InitialInv(cfg);
    RunKeepsErasable(cfg, INITIAL, run);
    RunKeepsGaps(cfg, INITIAL, run);
    var s := After(cfg, INITIAL, run);
    if f in s.cuts {
      var h :| Missing(s, f, h);
    } else {
      forall h | h in s.rotations && h in s.births && s.births[h].family == f ensures h in s.records {
        assert Intact(s, h);
      }
    }
  }

  /**
   Whether or not the chain's end is settled: a withholding caller's discard leaves a gap exactly
   if it deletes a tombstone while the tip holds a token.
   */
  lemma DiscardLeavesGapExactlyWhen(cfg: Config, s: State, c: CallerId, ch: Choice)
    requires Inv(cfg, s) && c in s.callers && s.callers[c].pc.DropSuccessor? && s.callers[c].pc.why.Withheld?
    requires ch.luck.Fine? && Connected(s, s.callers[c].pc.claim.family)
    ensures var f := s.callers[c].pc.claim.family;
      Connected(Next(cfg, s, Act(c, ch)), f) <==>
        !(IsTombstone(s, s.callers[c].pc.offer.successor) && f in s.tips && s.tips[f] in s.records)
  {
    var pc := s.callers[c].pc;
    var s' := Next(cfg, s, Act(c, ch));
    assert DropRelies(s, c, pc);
    SettledIsCommitted(s, c, pc.claim, pc.offer);
    var succ := pc.offer.successor;
    assert s'.records == s.records - {succ};
    assert RecordOk(s, succ) && BehindTip(s, succ) && TipOk(s, pc.claim.family);
    assert RecordOk(s, s.tips[pc.claim.family]);
  }

  // ---- what is left behind stays ----

  /** No call on family `f` is past its revocation check. */
  ghost predicate Over(s: State, f: Family) {
    f in s.markers && forall c :: c in s.callers ==> NotPast(s, c, f)
  }

  predicate NotPast(s: State, c: CallerId, f: Family)
    requires c in s.callers
  {
    var pc := s.callers[c].pc;
    OnFamily(s, pc, f) ==> pc.Load? || pc.CheckTime? || pc.CheckRevoked? || pc.Pause?
  }

  predicate OnFamily(s: State, pc: Pc, f: Family) {
    Subject(pc).Some? && Subject(pc).value in s.births && s.births[Subject(pc).value].family == f
  }

  lemma RemoverIsOnFamily(cfg: Config, s: State, c: CallerId, pc: Pc, f: Family, h: Handle)
    requires Global(cfg, s) && Relies(cfg, s, c, pc) && h in s.births && s.births[h].family == f
    requires (pc.DropSuccessor? && h == pc.offer.successor) || (pc.EraseDelete? && h == pc.key)
    ensures OnFamily(s, pc, f)
  {
    assert BirthOk(s, h);
    if pc.DropSuccessor? {
      assert DropRelies(s, c, pc);
      if pc.why.Withheld? { SettledIsCommitted(s, c, pc.claim, pc.offer); }
    } else {
      assert RevokeRelies(s, pc);
    }
  }

  /** A caller past its check touches only records of its own family. */
  lemma TouchesOwnFamily(cfg: Config, s: State, c: CallerId, ch: Choice, f: Family, h: Handle)
    requires Inv(cfg, s) && Allowed(cfg, s, Act(c, ch)) && h in s.births && s.births[h].family == f
    requires NotPast(s, c, f)
    ensures var e := Turn(cfg, s, s.callers[c].pc, ch).effect;
      !((e.Create? || e.Overwrite? || e.Rotate? || e.Remove?) && e.handle == h)
  {
    var pc := s.callers[c].pc;
    TurnIsLegal(cfg, s, c, pc, ch);
    EffectsComeFrom(cfg, s, pc, ch);
    var e := Turn(cfg, s, pc, ch).effect;
    assert Relies(cfg, s, c, pc);
    if e.Remove? {
      if e.handle == h { RemoverIsOnFamily(cfg, s, c, pc, f, h); }
    } else if e.Create? {
    } else if e.Overwrite? || e.Rotate? {
      assert Subject(pc) == Some(pc.claim.handle);
    }
  }

  lemma NotPastMoves(cfg: Config, s: State, c: CallerId, ch: Choice, f: Family)
    requires Inv(cfg, s) && Allowed(cfg, s, Act(c, ch)) && f in s.markers && f in s.families && s.now < s.families[f]
    requires NotPast(s, c, f) && NoTokensPending(s.callers[c].pc)
    ensures NotPast(Next(cfg, s, Act(c, ch)), c, f)
  {
    var pc := s.callers[c].pc;
    assert Relies(cfg, s, c, pc) && MarkerOk(s, f);
    TurnStays(cfg, s, pc, ch);
    if Subject(pc).Some? { SubjectIsBorn(cfg, s, Act(c, ch), c, pc, Subject(pc).value); }
    if OnFamily(s, pc, f) { CheckLeadsNowhere(cfg, s, pc, ch, f); }
  }

  lemma NotPastStays(cfg: Config, s: State, ev: Event, c: CallerId, f: Family)
    requires Inv(cfg, s) && Allowed(cfg, s, ev) && f in s.markers && f in s.families && s.now < s.families[f]
    requires c in Next(cfg, s, ev).callers && (c in s.callers ==> NotPast(s, c, f) && NoTokensPending(s.callers[c].pc))
    ensures NotPast(Next(cfg, s, ev), c, f)
  {
    if c in s.callers {
      var pc := s.callers[c].pc;
      assert Relies(cfg, s, c, pc);
      if ev.Act? && ev.caller == c {
        NotPastMoves(cfg, s, c, ev.choice, f);
      } else if Subject(pc).Some? {
        SubjectIsBorn(cfg, s, ev, c, pc, Subject(pc).value);
      }
    }
  }

  lemma SubjectIsKnown(cfg: Config, s: State, c: CallerId, pc: Pc, h: Handle)
    requires Relies(cfg, s, c, pc) && Subject(pc) == Some(h)
    ensures Committed(s, h) || h in s.presentable
  {
    if Refreshing(pc) || Claiming(pc) {
      assert Refreshing(pc) ==> RefreshRelies(s, pc);
      assert Claiming(pc) ==> ClaimRelies(s, c, pc);
    } else {
      HolderIsCommitted(cfg, s, c, pc, h);
    }
  }

  lemma HolderIsCommitted(cfg: Config, s: State, c: CallerId, pc: Pc, h: Handle)
    requires Relies(cfg, s, c, pc) && Subject(pc) == Some(h) && !Refreshing(pc) && !Claiming(pc)
    ensures Committed(s, h)
  {
    if Erasing(pc) {
      assert RevokeRelies(s, pc);
    } else if Preparing(pc) || pc.SwapTombstone? {
      assert PrepareRelies(cfg, s, c, pc);
    } else if Dropping(pc) {
      assert DropRelies(s, c, pc);
    } else {
      assert HoldRelies(s, c, pc);
    }
  }

  /** The handle a caller is about is never born later. */
  lemma SubjectIsBorn(cfg: Config, s: State, ev: Event, c: CallerId, pc: Pc, h: Handle)
    requires Inv(cfg, s) && Allowed(cfg, s, ev) && Relies(cfg, s, c, pc) && Subject(pc) == Some(h)
    ensures h in Next(cfg, s, ev).births <==> h in s.births
    ensures h in s.births ==> Next(cfg, s, ev).births[h] == s.births[h]
  {
    SubjectIsKnown(cfg, s, c, pc, h);
    NextGrows(cfg, s, ev, h);
    if ev.Act? { TurnIsLegal(cfg, s, ev.caller, s.callers[ev.caller].pc, ev.choice); }
  }

  lemma CheckLeadsNowhere(cfg: Config, s: State, pc: Pc, ch: Choice, f: Family)
    requires pc.Load? || pc.CheckTime? || pc.CheckRevoked? || pc.Pause?
    requires pc.CheckRevoked? ==> pc.seen.record.family == f && Live(s.markers, f, s.now)
    ensures var next := Turn(cfg, s, pc, ch).next;
      next.Load? || next.CheckTime? || next.CheckRevoked? || next.Pause? || next.Done?
  {
  }

  lemma NextKeepsOver(cfg: Config, s: State, ev: Event, f: Family, h: Handle)
    requires Inv(cfg, s) && AllAddressed(s) && Allowed(cfg, s, ev) && Over(s, f) && f in s.families &&
      s.now < s.families[f]
    requires h in s.records && h in s.births && s.births[h].family == f
    ensures var s' := Next(cfg, s, ev);
      && Over(s', f) && f in s'.families && s'.families[f] == s.families[f]
      && h in s'.births && s'.births[h] == s.births[h] && h in s'.records && s'.records[h] == s.records[h]
  {
    var s' := Next(cfg, s, ev);
    NextGrows(cfg, s, ev, h);
    forall c | c in s'.callers ensures NotPast(s', c, f) {
      assert c in s.callers ==> Addressed(s, c);
      NotPastStays(cfg, s, ev, c, f);
    }
    if ev.Act? {
      TouchesOwnFamily(cfg, s, ev.caller, ev.choice, f, h);
      TurnIsLegal(cfg, s, ev.caller, s.callers[ev.caller].pc, ev.choice);
    }
  }

  lemma {:induction false} RunKeepsOver(cfg: Config, s: State, run: seq<Event>, f: Family, h: Handle)
    requires Inv(cfg, s) && AllAddressed(s) && Possible(cfg, s, run) && Over(s, f) && f in s.families
    requires h in s.records && h in s.births && s.births[h].family == f
    requires After(cfg, s, run).now < s.families[f]
    ensures var s' := After(cfg, s, run); h in s'.records && s'.records[h] == s.records[h]
    decreases |run|
  {
    TimePasses(cfg, s, run);
    if run != [] {
      NextKeepsInv(cfg, s, run[0]);
      NextKeepsAddresses(cfg, s, run[0]);
      NextKeepsOver(cfg, s, run[0], f, h);
      RunKeepsOver(cfg, Next(cfg, s, run[0]), run[1..], f, h);
    }
  }

  lemma {:induction false} TimePasses(cfg: Config, s: State, run: seq<Event>)
    requires Inv(cfg, s) && Possible(cfg, s, run)
    ensures s.now <= After(cfg, s, run).now
    decreases |run|
  {
    if run != [] {
      NextKeepsInv(cfg, s, run[0]);
      NextGrows(cfg, s, run[0], 0);
      TimePasses(cfg, Next(cfg, s, run[0]), run[1..]);
    }
  }

  /**
   What a revocation leaves behind when every call on the family has ended stays: whatever is
   presented later, and whatever fails, no record of the family changes before it expires. So a
   token left by a cut chain is not erased by a later call.
   */
  lemma LeftoversStay(cfg: Config, run: seq<Event>, more: seq<Event>, f: Family, h: Handle)
    requires Possible(cfg, INITIAL, run) && Possible(cfg, After(cfg, INITIAL, run), more)
    requires var s := After(cfg, INITIAL, run);
      && f in s.markers && f in s.families && Quiet(s, f) && h in s.records && s.records[h].value.record.family == f
      && After(cfg, s, more).now < s.families[f]
    ensures var s := After(cfg, INITIAL, run);
      var end := After(cfg, s, more);
      h in end.records && end.records[h] == s.records[h]
  {
    ReachedInv(cfg, run);
    RunKeepsAddresses(cfg, INITIAL, run);
    var s := After(cfg, INITIAL, run);
    assert RecordOk(s, h);
    forall c | c in s.callers ensures NotPast(s, c, f) {}
    RunKeepsOver(cfg, s, more, f, h);
  }
}
