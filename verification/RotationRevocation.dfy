/**
 Lifetimes and revocation of token families: what stays visible for how long, that reuse always
 revokes, and that a revoked family yields no tokens.
 */
module RotationRevocation {
  import opened RotationProtocol
  import opened RotationInvariant
  import opened RotationSafety

  // ---- lifetimes ----

  /** Until the family expires or is revoked, the record of every chain member is visible. */
  lemma ChainStaysVisible(cfg: Config, run: seq<Event>, h: Handle)
    requires Possible(cfg, INITIAL, run)
    requires var s := After(cfg, INITIAL, run);
      Committed(s, h) && s.births[h].family !in s.markers && s.now < s.births[h].expires
    ensures var s := After(cfg, INITIAL, run); Live(s.records, h, s.now)
  {
    ReachedInv(cfg, run);
    var s := After(cfg, INITIAL, run);
    assert KeptOk(cfg, s, h) && RecordOk(s, h);
  }

  /** A revocation marker is visible until every member of its family has expired. */
  lemma MarkerStaysVisible(cfg: Config, s: State, h: Handle)
    requires Global(cfg, s) && h in s.births && s.births[h].family in s.markers && s.now < s.births[h].expires
    ensures Live(s.markers, s.births[h].family, s.now)
  {
    assert BirthOk(s, h) && MarkerOk(s, s.births[h].family);
  }

  /** Every member of a family, whatever its age, expires when the family does. */
  lemma SuccessorInheritsExpiry(cfg: Config, run: seq<Event>, h: Handle)
    requires Possible(cfg, INITIAL, run) && h in After(cfg, INITIAL, run).rotations
    ensures var s := After(cfg, INITIAL, run);
      && h in s.births && s.rotations[h].successor in s.births
      && s.births[s.rotations[h].successor].expires == s.births[h].expires
      && s.births[s.rotations[h].successor].family == s.births[h].family
  {
    ReachedInv(cfg, run);
    var s := After(cfg, INITIAL, run);
    assert RotationOk(s, h) && BirthOk(s, s.rotations[h].successor);
  }

  /**
   For the whole grace period, and the margin after it, the recorded response of a rotation is
   there to be replayed, unless the family is revoked or has expired.
   */
  lemma ReplyVisibleInGrace(cfg: Config, run: seq<Event>, h: Handle)
    requires Possible(cfg, INITIAL, run)
    requires var s := After(cfg, INITIAL, run);
      && h in s.rotations && h in s.births && s.births[h].family !in s.markers && s.now < s.births[h].expires
      && s.now < s.rotations[h].rotatedAt + cfg.grace + GRACE_RESPONSE_MARGIN
    ensures var s := After(cfg, INITIAL, run);
      && Live(s.replies, (h, s.rotations[h].claim), s.now)
      && s.replies[(h, s.rotations[h].claim)].value == s.rotations[h].reply
  {
    ReachedInv(cfg, run);
    var s := After(cfg, INITIAL, run);
    assert RotationOk(s, h) && KeptOk(cfg, s, h) && ReplyOk(s, h);
  }

  // ---- reuse revokes ----

  /** The call by `c` on the rotated handle `h` has revoked the family or is on its way to. */
  predicate Pursues(cfg: Config, s: State, c: CallerId, h: Handle) {
    && c in s.callers && h in s.births && h in s.rotations
    && Elapsed(s.now, s.rotations[h].rotatedAt) > cfg.grace
    && (s.births[h].family in s.markers || s.now >= s.births[h].expires || Chasing(cfg, s, s.callers[c].pc, h))
  }

  predicate Chasing(cfg: Config, s: State, pc: Pc, h: Handle)
    requires h in s.births && h in s.rotations
  {
    || (pc.Load? && pc.handle == h)
    || (pc.CheckTime? && pc.handle == h && Matches(s, h, pc.seen.record) && pc.seen.record.state.Rotated?)
    || (pc.CheckRevoked? && pc.handle == h && Matches(s, h, pc.seen.record) && pc.seen.record.state.Rotated?
        && Elapsed(pc.at, s.rotations[h].rotatedAt) > cfg.grace)
    || ((pc.RevokeClock? || pc.PutMarker?) && pc.rev.family == s.births[h].family &&
       pc.rev.expires == s.births[h].expires)
  }

  lemma ChaseGoesOn(cfg: Config, s: State, pc: Pc, ch: Choice, h: Handle)
    requires Global(cfg, s) && h in s.births && h in s.rotations && ch.luck.Fine?
    requires Elapsed(s.now, s.rotations[h].rotatedAt) > cfg.grace
    requires s.births[h].family !in s.markers && s.now < s.births[h].expires && Chasing(cfg, s, pc, h)
    ensures var m := Turn(cfg, s, pc, ch);
      Chasing(cfg, s, m.next, h) || (m.effect.Mark? && m.effect.family == s.births[h].family)
  {
    assert KeptOk(cfg, s, h) && RecordOk(s, h) && RotationOk(s, h);
    if pc.Load? {
    } else if pc.CheckTime? {
    } else if pc.CheckRevoked? {
      assert MarkerOk(s, s.births[h].family);
    } else {
    }
  }

  lemma NextKeepsPursuit(cfg: Config, s: State, ev: Event, c: CallerId, h: Handle)
    requires Inv(cfg, s) && Allowed(cfg, s, ev) && Pursues(cfg, s, c, h)
    requires !Next(cfg, s, ev).faulty
    ensures Pursues(cfg, Next(cfg, s, ev), c, h)
  {
    NextGrows(cfg, s, ev, h);
    if ev.Act? && s.births[h].family !in s.markers && s.now < s.births[h].expires && ev.caller == c {
      ChaseGoesOn(cfg, s, s.callers[c].pc, ev.choice, h);
    }
  }

  lemma {:induction false} RunKeepsPursuit(cfg: Config, s: State, run: seq<Event>, c: CallerId, h: Handle)
    requires Inv(cfg, s) && Possible(cfg, s, run) && Pursues(cfg, s, c, h) && !After(cfg, s, run).faulty
    ensures Pursues(cfg, After(cfg, s, run), c, h)
    decreases |run|
  {
    if run != [] {
      FaultsRemain(cfg, Next(cfg, s, run[0]), run[1..]);
      NextKeepsPursuit(cfg, s, run[0], c, h);
      NextKeepsInv(cfg, s, run[0]);
      RunKeepsPursuit(cfg, Next(cfg, s, run[0]), run[1..], c, h);
    }
  }

  lemma NextKeepsFaults(cfg: Config, s: State, ev: Event)
    requires Allowed(cfg, s, ev) && s.faulty
    ensures Next(cfg, s, ev).faulty
  {
    if ev.Act? { assert AfterAct(cfg, s, ev.caller, ev.choice).faulty; }
  }

  lemma {:induction false} FaultsRemain(cfg: Config, s: State, run: seq<Event>)
    requires Possible(cfg, s, run)
    ensures s.faulty ==> After(cfg, s, run).faulty
    decreases |run|
  {
    if run != [] {
      if s.faulty { NextKeepsFaults(cfg, s, run[0]); }
      FaultsRemain(cfg, Next(cfg, s, run[0]), run[1..]);
    }
  }

  /**
   A handle presented after its grace period: whatever else happens meanwhile, once that call has
   ended, without a store or sealer failure, the family is marked revoked or has expired.
   */
  lemma ReuseRevokes(cfg: Config, before: seq<Event>, c: CallerId, h: Handle, rest: seq<Event>)
    requires Possible(cfg, INITIAL, before)
    requires var s := After(cfg, INITIAL, before);
      && h in s.rotations && Elapsed(s.now, s.rotations[h].rotatedAt) > cfg.grace
      && Allowed(cfg, s, Present(c, h)) && Possible(cfg, Next(cfg, s, Present(c, h)), rest)
    requires var end := After(cfg, Next(cfg, After(cfg, INITIAL, before), Present(c, h)), rest);
      !end.faulty && c in end.callers && end.callers[c].pc.Done?
    ensures var end := After(cfg, Next(cfg, After(cfg, INITIAL, before), Present(c, h)), rest);
      && h in end.births
      && (end.births[h].family in end.markers || end.now >= end.births[h].expires)
  {
    ReachedInv(cfg, before);
    var s := After(cfg, INITIAL, before);
    var s1 := Next(cfg, s, Present(c, h));
    NextKeepsInv(cfg, s, Present(c, h));
    assert RotationOk(s, h);
    RunKeepsPursuit(cfg, s1, rest, c, h);
  }

  // ---- a revoked family yields no tokens ----

  /** Past the revocation check on the way to the upstream or to a recorded response. */
  predicate PastCheck(pc: Pc) {
    pc.FetchReply? || Claiming(pc) || pc.Ask? || Preparing(pc) || Settling(pc) || Releasing(pc)
  }

  /** A call that began after its family was marked revoked gets nowhere before the family expires. */
  predicate Wary(s: State, c: CallerId)
    requires c in s.callers
  {
    var caller := s.callers[c];
    && caller.knew <= s.markers.Keys
    && (PastCheck(caller.pc) || AnsweredTokens(caller.pc) ==>
          && caller.presented.Some? && caller.presented.value in s.births
          && (s.births[caller.presented.value].family in caller.knew ==>
             s.now >= s.births[caller.presented.value].expires))
  }

  predicate AnsweredTokens(pc: Pc) {
    pc.Done? && pc.outcome.Tokens?
  }

  ghost predicate AllWary(s: State) {
    forall c :: c in s.callers ==> Wary(s, c)
  }

  /** Only the revocation check leads past the revocation check. */
  lemma CheckGuards(cfg: Config, s: State, pc: Pc, ch: Choice)
    requires NoTokensPending(pc)
    ensures var next := Turn(cfg, s, pc, ch).next;
      PastCheck(next) || AnsweredTokens(next) ==>
        PastCheck(pc) || AnsweredTokens(pc) || (pc.CheckRevoked? && !Live(s.markers, pc.seen.record.family, s.now))
  {
    if Issuing(pc) {
    } else if Refreshing(pc) {
    } else if Erasing(pc) {
    } else if PastCheck(pc) {
    } else {
    }
  }

  lemma ActKeepsWary(cfg: Config, s: State, me: CallerId, ch: Choice)
    requires Inv(cfg, s) && Allowed(cfg, s, Act(me, ch)) && Addressed(s, me) && Wary(s, me)
    ensures Wary(Next(cfg, s, Act(me, ch)), me)
  {
    var caller := s.callers[me];
    CheckGuards(cfg, s, caller.pc, ch);
    if caller.presented.Some? {
      var h := caller.presented.value;
      NextGrows(cfg, s, Act(me, ch), h);
      if h in s.births && s.births[h].family in s.markers && s.now < s.births[h].expires {
        MarkerStaysVisible(cfg, s, h);
      }
    }
  }

  lemma NextKeepsWary(cfg: Config, s: State, ev: Event, c: CallerId)
    requires Inv(cfg, s) && Allowed(cfg, s, ev) && c in Next(cfg, s, ev).callers
    requires c in s.callers ==> Addressed(s, c) && Wary(s, c)
    ensures Wary(Next(cfg, s, ev), c)
  {
    if ev.Act? && ev.caller == c {
      ActKeepsWary(cfg, s, c, ev.choice);
    } else if c in s.callers {
      OthersKeepWary(cfg, s, ev, c);
    } else {
      NextGrows(cfg, s, ev, 0);
    }
  }

  lemma WaryWhileUndisturbed(s: State, s': State, c: CallerId, h: Handle)
    requires c in s.callers && Wary(s, c) && Undisturbed(s, s', c) && Grows(s, s', h)
    requires s.callers[c].presented.Some? ==> s.callers[c].presented.value == h
    ensures Wary(s', c)
  {
  }

  lemma OthersKeepWary(cfg: Config, s: State, ev: Event, c: CallerId)
    requires Inv(cfg, s) && Allowed(cfg, s, ev) && c in s.callers && Wary(s, c) && !(ev.Act? && ev.caller == c)
    ensures c in Next(cfg, s, ev).callers && Wary(Next(cfg, s, ev), c)
  {
    var h := if s.callers[c].presented.Some? then s.callers[c].presented.value else 0;
    OthersLeaveAlone(cfg, s, ev, c);
    NextGrows(cfg, s, ev, h);
    WaryWhileUndisturbed(s, Next(cfg, s, ev), c, h);
  }

  lemma {:induction false} RunKeepsWary(cfg: Config, s: State, run: seq<Event>)
    requires Inv(cfg, s) && AllAddressed(s) && AllWary(s) && Possible(cfg, s, run)
    ensures AllWary(After(cfg, s, run))
    decreases |run|
  {
    if run != [] {
      NextKeepsInv(cfg, s, run[0]);
      NextKeepsAddresses(cfg, s, run[0]);
      forall c | c in Next(cfg, s, run[0]).callers ensures Wary(Next(cfg, s, run[0]), c) {
        NextKeepsWary(cfg, s, run[0], c);
      }
      RunKeepsWary(cfg, Next(cfg, s, run[0]), run[1..]);
    }
  }

  /**
   In every run: a call that began once its family was marked revoked, until the family expires,
   asks no upstream, holds no claim, and is not answered with tokens.
   */
  lemma RevokedFamilyYieldsNothing(cfg: Config, run: seq<Event>, c: CallerId)
    requires Possible(cfg, INITIAL, run)
    requires var s := After(cfg, INITIAL, run);
      && c in s.callers && s.callers[c].presented.Some? && s.callers[c].presented.value in s.births
      && var b := s.births[s.callers[c].presented.value]; b.family in s.callers[c].knew && s.now < b.expires
    ensures var pc := After(cfg, INITIAL, run).callers[c].pc; !PastCheck(pc) && !AnsweredTokens(pc)
  {
    InitialInv(cfg);
    RunKeepsWary(cfg, INITIAL, run);
    assert Wary(After(cfg, INITIAL, run), c);
  }

  /** A refresh whose check after the commit comes once the family is marked withholds its tokens. */
  lemma InFlightRefreshWithholds(cfg: Config, run: seq<Event>, c: CallerId, ch: Choice)
    requires Possible(cfg, INITIAL, run)
    requires var s := After(cfg, INITIAL, run);
      && c in s.callers && s.callers[c].pc.PostCheck?
      && s.callers[c].pc.claim.family in s.markers && s.now < s.callers[c].pc.claim.expires
    ensures var s := After(cfg, INITIAL, run);
      var s' := Next(cfg, s, Act(c, ch));
      && !AnsweredTokens(s'.callers[c].pc) && s'.returned == s.returned && s'.presentable == s.presentable
      && (!ch.luck.StoreError? ==> s'.callers[c].pc.DropReply? && s'.callers[c].pc.why == Withheld)
  {
    ReachedInv(cfg, run);
    var s := After(cfg, INITIAL, run);
    MarkerStaysVisible(cfg, s, s.callers[c].pc.claim.handle);
  }
}
