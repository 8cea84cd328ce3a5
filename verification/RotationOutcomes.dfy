/**
 How a granted refresh ends when any other calls interleave with it, fail and crash, as long as no
 seal or store call of its own fails.
 */
module RotationOutcomes {
  import opened Wrappers
  import opened RotationProtocol
  import opened RotationInvariant
  import opened RotationSafety
  import opened RotationProgress
  import opened RotationCommit

  /** The family has expired, or the claim stands no more and has not become a rotation. */
  predicate Overtaken(s: State, claim: Claim) {
    || s.now >= claim.expires
    || (&& !(claim.handle in s.records && s.records[claim.handle].value == claim.bytes)
        && !(claim.handle in s.rotations && s.rotations[claim.handle].claim == claim.id))
  }

  /** Neither the response nor the successor of the claim is in the store. */
  predicate Cleared(s: State, claim: Claim, o: Offer) {
    o.successor !in s.records && (claim.handle, claim.id) !in s.replies
  }

  /** The claim has become the rotation to the offered successor. */
  predicate RotatedTo(s: State, claim: Claim, o: Offer) {
    && claim.handle in s.rotations && o.successor in s.births && s.births[o.successor].token == o.token
    && var r := s.rotations[claim.handle];
       r.claim == claim.id && r.successor == o.successor && r.reply == o.reply && r.rotated == o.rotated
  }

  /** How a granted refresh ends. */
  predicate GrantEnded(s: State, outcome: Outcome, claim: Claim, o: Offer) {
    || (outcome == Tokens(o.reply) && RotatedTo(s, claim, o))
    || (outcome == Denied && claim.family in s.markers && Cleared(s, claim, o))
    || (outcome == Unavailable && Overtaken(s, claim) && Cleared(s, claim, o))
  }

  /** How many more steps a caller takes after a grant, at most. */
  function Left(pc: Pc): nat {
    if pc.CommitClock? then 11
    else if pc.SealReply? then 10
    else if pc.PutReply? then 9
    else if pc.SealSuccessor? then 8
    else if pc.PutSuccessor? then 7
    else if pc.SealTombstone? then 6
    else if pc.SwapTombstone? then 5
    else if pc.MoveHead? then 4
    else if pc.PostCheck? || (pc.DropReply? && !pc.why.Withheld?) then 3
    else if pc.DropReply? || (pc.DropSuccessor? && !pc.why.Withheld?) then 2
    else if pc.DropSuccessor? || pc.LostCheck? then 1
    else 0
  }

  /** A caller on its way from a grant to one of these ends. */
  predicate Granting(s: State, pc: Pc, claim: Claim, o: Offer) {
    if Preparing(pc) || pc.SwapTombstone? then
      && pc.claim == claim && pc.offer == o
      && (pc.CommitClock? || pc.SealReply? || pc.PutReply? ==> (claim.handle, claim.id) !in s.replies)
    else if pc.MoveHead? || pc.PostCheck? then
      pc.claim == claim && pc.offer == o && RotatedTo(s, claim, o)
    else if Dropping(pc) then
      && pc.claim == claim && pc.offer == o && (pc.DropSuccessor? ==> (claim.handle, claim.id) !in s.replies)
      && ((pc.why.Withheld? && claim.family in s.markers) || (pc.why.LostSwap? && Overtaken(s, claim)))
    else if pc.LostCheck? then pc.claim == claim && Overtaken(s, claim) && Cleared(s, claim, o)
    else pc.Done? && GrantEnded(s, pc.outcome, claim, o)
  }

  /** The caller still owns the names its claim and its offer are made of. */
  predicate OwnsBoth(s: State, c: CallerId, claim: Claim, o: Offer) {
    && Owns(s, c, claim.id) && Owns(s, c, o.successor) && Committed(s, claim.handle)
    && claim.family == s.births[claim.handle].family && claim.expires == s.births[claim.handle].expires
    && claim.bytes.record == ClaimRecord(claim)
  }

  lemma OvertakenStays(cfg: Config, s: State, me: CallerId, e: Effect, c: CallerId, claim: Claim, o: Offer)
    requires Global(cfg, s) && Legal(cfg, s, me, e) && me != c && OwnsBoth(s, c, claim, o) && Overtaken(s, claim)
    ensures Overtaken(Apply(s, me, e), claim)
  {
    ChainGrows(cfg, s, me, e, claim.handle);
  }

  lemma RotatedToStays(cfg: Config, s: State, me: CallerId, e: Effect, claim: Claim, o: Offer)
    requires Global(cfg, s) && Legal(cfg, s, me, e) && RotatedTo(s, claim, o)
    ensures RotatedTo(Apply(s, me, e), claim, o)
  {
    ChainGrows(cfg, s, me, e, claim.handle);
    ChainGrows(cfg, s, me, e, o.successor);
  }

  lemma ClearedStays(cfg: Config, s: State, me: CallerId, e: Effect, c: CallerId, claim: Claim, o: Offer)
    requires Legal(cfg, s, me, e) && me != c && OwnsBoth(s, c, claim, o)
    ensures o.successor !in s.records ==> o.successor !in Apply(s, me, e).records
    ensures (claim.handle, claim.id) !in s.replies ==> (claim.handle, claim.id) !in Apply(s, me, e).replies
  {
  }

  /** Nothing that others do takes a caller off its way. */
  lemma OthersLetGrant(cfg: Config, s: State, me: CallerId, e: Effect, c: CallerId, pc: Pc, claim: Claim, o: Offer)
    requires Global(cfg, s) && Legal(cfg, s, me, e) && me != c && OwnsBoth(s, c, claim, o) && Granting(s, pc, claim, o)
    ensures Granting(Apply(s, me, e), pc, claim, o)
  {
    ClearedStays(cfg, s, me, e, c, claim, o);
    if Overtaken(s, claim) { OvertakenStays(cfg, s, me, e, c, claim, o); }
    if RotatedTo(s, claim, o) { RotatedToStays(cfg, s, me, e, claim, o); }
    StaysMarked(s, me, e);
  }

  lemma StaysMarked(s: State, me: CallerId, e: Effect)
    ensures s.markers.Keys <= Apply(s, me, e).markers.Keys
  {
  }

  lemma OwnershipOfBothStays(cfg: Config, s: State, me: CallerId, e: Effect, c: CallerId, claim: Claim, o: Offer)
    requires Global(cfg, s) && Legal(cfg, s, me, e) && OwnsBoth(s, c, claim, o)
    ensures OwnsBoth(Apply(s, me, e), c, claim, o)
  {
    OwnershipStays(cfg, s, me, e, c, claim.id);
    OwnershipStays(cfg, s, me, e, c, o.successor);
    ChainGrows(cfg, s, me, e, claim.handle);
  }

  lemma OnwardLetsGrant(s: State, s': State, c: CallerId, pc: Pc, claim: Claim, o: Offer)
    requires Onward(s, s') && OwnsBoth(s, c, claim, o) && Granting(s, pc, claim, o)
    ensures OwnsBoth(s', c, claim, o) && Granting(s', pc, claim, o)
  {
  }

  lemma PrepareGrants(cfg: Config, s: State, c: CallerId, pc: Pc, ch: Choice, claim: Claim, o: Offer)
    requires Inv(cfg, s) && c in s.callers && s.callers[c].pc == pc && Preparing(pc) && !pc.CommitClock?
    requires ch.luck.Fine? && Granting(s, pc, claim, o)
    ensures var m := Turn(cfg, s, pc, ch); Granting(Apply(s, c, m.effect), m.next, claim, o) && Left(m.next) < Left(pc)
  {
    assert PrepareRelies(cfg, s, c, pc) && RecordOk(s, o.successor);
    assert Turn(cfg, s, pc, ch) == PrepareTurn(cfg, s, pc, ch);
  }

  lemma ClockGrants(cfg: Config, s: State, c: CallerId, pc: Pc, ch: Choice, claim: Claim, o: Offer)
    requires Inv(cfg, s) && c in s.callers && s.callers[c].pc == pc && pc.CommitClock? && Granting(s, pc, claim, o)
    ensures var m := Turn(cfg, s, pc, ch); Granting(Apply(s, c, m.effect), m.next, claim, o) && Left(m.next) < Left(pc)
  {
    assert PrepareRelies(cfg, s, c, pc) && RecordOk(s, o.successor);
    NothingChanges(s, c);
  }

  lemma SwapGrants(cfg: Config, s: State, c: CallerId, pc: Pc, ch: Choice, claim: Claim, o: Offer)
    requires Inv(cfg, s) && c in s.callers && s.callers[c].pc == pc && pc.SwapTombstone? && ch.luck.Fine?
    requires Granting(s, pc, claim, o)
    ensures var m := Turn(cfg, s, pc, ch); Granting(Apply(s, c, m.effect), m.next, claim, o) && Left(m.next) < Left(pc)
  {
    assert PrepareRelies(cfg, s, c, pc) && RecordOk(s, claim.handle);
    assert Turn(cfg, s, pc, ch) == SettleTurn(s, pc, ch);
  }

  lemma SettleGrants(cfg: Config, s: State, c: CallerId, pc: Pc, ch: Choice, claim: Claim, o: Offer)
    requires (pc.MoveHead? || pc.PostCheck?) && ch.luck.Fine? && Granting(s, pc, claim, o)
    ensures var m := Turn(cfg, s, pc, ch); Granting(Apply(s, c, m.effect), m.next, claim, o) && Left(m.next) < Left(pc)
  {
    assert Turn(cfg, s, pc, ch) == SettleTurn(s, pc, ch);
  }

  lemma DropGrants(cfg: Config, s: State, c: CallerId, pc: Pc, ch: Choice, claim: Claim, o: Offer)
    requires (Dropping(pc) || pc.LostCheck?) && ch.luck.Fine? && Granting(s, pc, claim, o)
    ensures var m := Turn(cfg, s, pc, ch); Granting(Apply(s, c, m.effect), m.next, claim, o) && Left(m.next) < Left(pc)
  {
    assert Turn(cfg, s, pc, ch) == SettleTurn(s, pc, ch);
  }

  lemma GrantsOn(cfg: Config, s: State, c: CallerId, ch: Choice, claim: Claim, o: Offer)
    requires Inv(cfg, s) && c in s.callers && ch.luck.Fine? && Granting(s, s.callers[c].pc, claim, o)
    ensures var pc := s.callers[c].pc; var m := Turn(cfg, s, pc, ch);
      Granting(Apply(s, c, m.effect), m.next, claim, o) && (Left(m.next) < Left(pc) || pc.Done?)
  {
    var pc := s.callers[c].pc;
    if pc.CommitClock? { ClockGrants(cfg, s, c, pc, ch, claim, o); }
    else if Preparing(pc) { PrepareGrants(cfg, s, c, pc, ch, claim, o); }
    else if pc.SwapTombstone? { SwapGrants(cfg, s, c, pc, ch, claim, o); }
    else if pc.MoveHead? || pc.PostCheck? { SettleGrants(cfg, s, c, pc, ch, claim, o); }
    else if Dropping(pc) || pc.LostCheck? { DropGrants(cfg, s, c, pc, ch, claim, o); }
    else { DoneStays(cfg, s, c, ch); }
  }

  lemma DoneStays(cfg: Config, s: State, c: CallerId, ch: Choice)
    requires c in s.callers && s.callers[c].pc.Done?
    ensures Turn(cfg, s, s.callers[c].pc, ch) == Move(Nothing, s.callers[c].pc) && Apply(s, c, Nothing) == s
  {
    NothingChanges(s, c);
  }

  /** The same of the state: `c` is on its way from the grant. */
  predicate GrantGoesOn(s: State, c: CallerId, claim: Claim, o: Offer) {
    c in s.callers && OwnsBoth(s, c, claim, o) && Granting(s, s.callers[c].pc, claim, o)
  }

  lemma ActLetsGrant(cfg: Config, s: State, me: CallerId, ch: Choice, c: CallerId, claim: Claim, o: Offer)
    requires Inv(cfg, s) && GrantGoesOn(s, c, claim, o) && Allowed(cfg, s, Act(me, ch)) && (me == c ==> ch.luck.Fine?)
    ensures GrantGoesOn(Next(cfg, s, Act(me, ch)), c, claim, o)
    ensures me == c ==> var next := Next(cfg, s, Act(me, ch)).callers[c].pc;
      Left(next) < Left(s.callers[c].pc) || s.callers[c].pc.Done?
  {
    var m := Turn(cfg, s, s.callers[me].pc, ch);
    TurnIsLegal(cfg, s, me, s.callers[me].pc, ch);
    OwnershipOfBothStays(cfg, s, me, m.effect, c, claim, o);
    if me == c { GrantsOn(cfg, s, c, ch, claim, o); }
    else { OthersLetGrant(cfg, s, me, m.effect, c, s.callers[c].pc, claim, o); }
    var mid, s' := Apply(s, me, m.effect), Next(cfg, s, Act(me, ch));
    OnwardLetsGrant(mid, s', c, s'.callers[c].pc, claim, o);
  }

  lemma NextLetsGrant(cfg: Config, s: State, ev: Event, c: CallerId, claim: Claim, o: Offer)
    requires Inv(cfg, s) && GrantGoesOn(s, c, claim, o) && Allowed(cfg, s, ev) && Sound(c, ev)
    ensures var s' := Next(cfg, s, ev);
      && GrantGoesOn(s', c, claim, o)
      && (if ev.Act? && ev.caller == c then Left(s'.callers[c].pc) < Left(s.callers[c].pc) || s.callers[c].pc.Done?
          else s'.callers[c].pc == s.callers[c].pc)
  {
    if ev.Act? {
      ActLetsGrant(cfg, s, ev.caller, ev.choice, c, claim, o);
    } else {
      OtherEventIsOnward(cfg, s, ev);
      OnwardLetsGrant(s, Next(cfg, s, ev), c, s.callers[c].pc, claim, o);
    }
  }

  lemma NoStepsLeft(s: State, pc: Pc, claim: Claim, o: Offer)
    requires Granting(s, pc, claim, o) && Left(pc) == 0
    ensures pc.Done? && GrantEnded(s, pc.outcome, claim, o)
  {
  }

  /** On its way, with no more than `left` steps to go. */
  predicate WithinSteps(s: State, c: CallerId, claim: Claim, o: Offer, left: nat) {
    GrantGoesOn(s, c, claim, o) && Left(s.callers[c].pc) <= left
  }

  lemma NextTakesSteps(cfg: Config, s: State, ev: Event, c: CallerId, claim: Claim, o: Offer, left: nat)
    requires Inv(cfg, s) && WithinSteps(s, c, claim, o, left) && Allowed(cfg, s, ev) && Sound(c, ev)
    ensures WithinSteps(Next(cfg, s, ev), c, claim, o, if ev.Act? && ev.caller == c && left > 0 then left - 1 else left)
  {
    NextLetsGrant(cfg, s, ev, c, claim, o);
  }

  predicate Ended(s: State, c: CallerId, claim: Claim, o: Offer) {
    c in s.callers && s.callers[c].pc.Done? && GrantEnded(s, s.callers[c].pc.outcome, claim, o)
  }

  lemma {:induction false} RunLetsGrant(cfg: Config, s: State, run: seq<Event>, c: CallerId, claim: Claim, o: Offer,
                                        left: nat)
    requires Inv(cfg, s) && WithinSteps(s, c, claim, o, left) && Possible(cfg, s, run) && SoundRun(c, run)
    requires left <= Steps(c, run)
    ensures Ended(After(cfg, s, run), c, claim, o)
    decreases |run|
  {
    if run == [] {
      NoStepsLeft(s, s.callers[c].pc, claim, o);
    } else {
      var s' := Next(cfg, s, run[0]);
      assert Sound(c, run[0]) && SoundRun(c, run[1..]);
      NextTakesSteps(cfg, s, run[0], c, claim, o, left);
      NextKeepsInv(cfg, s, run[0]);
      var left' := if run[0].Act? && run[0].caller == c && left > 0 then left - 1 else left;
      RunLetsGrant(cfg, s', run[1..], c, claim, o, left');
    }
  }

  lemma GrantSetsOut(cfg: Config, s: State, c: CallerId, claim: Claim, ch: Choice)
    requires Inv(cfg, s) && Recording(s) && c in s.callers && s.callers[c].pc == Ask(claim)
    requires ch.answer.Granted? && Allowed(cfg, s, Act(c, ch))
    ensures var s' := Next(cfg, s, Act(c, ch)); var o := OfferOf(claim, ch);
      s'.callers[c].pc == CommitClock(claim, o) && GrantGoesOn(s', c, claim, o)
  {
    AskMove(cfg, s, claim, ch);
    NextKeepsInv(cfg, s, Act(c, ch));
    Acted(cfg, s, c, ch);
    assert Unrecorded(s, c);
    GrantStands(cfg, Next(cfg, s, Act(c, ch)), c, claim, OfferOf(claim, ch));
  }

  lemma GrantStands(cfg: Config, s: State, c: CallerId, claim: Claim, o: Offer)
    requires Inv(cfg, s) && c in s.callers && s.callers[c].pc == CommitClock(claim, o)
    requires (claim.handle, claim.id) !in s.replies
    ensures GrantGoesOn(s, c, claim, o)
  {
    assert Relies(cfg, s, c, s.callers[c].pc) && PrepareRelies(cfg, s, c, s.callers[c].pc);
  }

  /**
   In every run, whatever others do meanwhile, failing and crashing included: a caller that the
   upstream has granted a refresh, and whose own steps do not fail, ends within eleven steps more.
   Its client is told the upstream's answer, with a handle that now carries on the family with the
   token the upstream returned; or it is denied, and then the family is revoked; or the relay is
   unavailable to it, and then the family has expired or the claim was lost before it became a
   rotation. In the last two cases nothing is left of the grant.
   */
  lemma GrantEnds(cfg: Config, before: seq<Event>, c: CallerId, ch: Choice, rest: seq<Event>)
    requires Possible(cfg, INITIAL, before)
    requires var s := After(cfg, INITIAL, before);
      && c in s.callers && s.callers[c].pc.Ask? && Allowed(cfg, s, Act(c, ch)) && ch.answer.Granted?
      && Possible(cfg, Next(cfg, s, Act(c, ch)), rest) && Steps(c, rest) >= 11
      && SoundRun(c, rest)
    ensures var s := After(cfg, INITIAL, before); var end := After(cfg, Next(cfg, s, Act(c, ch)), rest);
      var claim := s.callers[c].pc.claim;
      Ended(end, c, claim, Offer(ch.name, if ch.answer.rotated.Some? then ch.answer.rotated.value else claim.token,
                                 Reply(ch.name, ch.answer.content), ch.answer.rotated))
  {
    ReachedInv(cfg, before);
    ReachedRecording(cfg, before);
    var s := After(cfg, INITIAL, before);
    var s1 := Next(cfg, s, Act(c, ch));
    GrantSetsOut(cfg, s, c, s.callers[c].pc.claim, ch);
    NextKeepsInv(cfg, s, Act(c, ch));
    RunLetsGrant(cfg, s1, rest, c, s.callers[c].pc.claim, OfferOf(s.callers[c].pc.claim, ch), 11);
  }
}
