/**
 Safety of rotation over whole runs: one successor and one response per handle, whatever fails;
 one chain per family; and the upstream token each handle stands for.
 */
module RotationSafety {
  import opened Wrappers
  import opened RotationProtocol
  import opened RotationInvariant

  lemma ReachedInv(cfg: Config, run: seq<Event>)
    requires Possible(cfg, INITIAL, run)
    ensures Inv(cfg, After(cfg, INITIAL, run))
  {
    InitialInv(cfg);
    RunKeepsInv(cfg, INITIAL, run);
  }

  // ---- which handle a call is about ----

  lemma {:induction false} OneMore(cfg: Config, s: State, run: seq<Event>, ev: Event)
    requires Possible(cfg, s, run) && Allowed(cfg, After(cfg, s, run), ev)
    ensures Possible(cfg, s, run + [ev]) && After(cfg, s, run + [ev]) == Next(cfg, After(cfg, s, run), ev)
    decreases |run|
  {
    if run == [] {
      assert run + [ev] == [ev];
      assert After(cfg, Next(cfg, s, ev), []) == Next(cfg, s, ev);
    } else {
      OneMore(cfg, Next(cfg, s, run[0]), run[1..], ev);
      assert (run + [ev])[1..] == run[1..] + [ev];
    }
  }

  function Subject(pc: Pc): Option<Handle> {
    if Refreshing(pc) || pc.ClaimClock? then Some(pc.handle)
    else if Issuing(pc) || pc.Done? then None
    else if Erasing(pc) then Some(pc.rev.known)
    else Some(pc.claim.handle)
  }

  /** The answer that waits behind a clean-up is never a token response. */
  predicate NoTokensPending(pc: Pc) {
    && (Erasing(pc) ==> !pc.rev.result.Tokens?)
    && (Releasing(pc) ==> !pc.result.Tokens?)
    && (Dropping(pc) && pc.why.Failed? ==> !pc.why.fault.Tokens?)
  }

  /** From `pc` a turn stays with its handle, and answers tokens only by telling them for that handle. */
  predicate Stays(pc: Pc, m: Move) {
    && (Subject(m.next).Some? ==> Subject(m.next) == Subject(pc))
    && NoTokensPending(m.next)
    && (m.next.Done? && m.next.outcome.Tokens? && !pc.Done? ==>
          Subject(pc).Some? && m.effect == Tell(Subject(pc).value, m.next.outcome.reply))
  }

  lemma IssueStays(cfg: Config, s: State, pc: Pc, ch: Choice)
    requires Issuing(pc)
    ensures Stays(pc, IssueTurn(cfg, s, pc, ch))
  {
  }

  lemma RefreshStays(cfg: Config, s: State, pc: Pc, ch: Choice)
    requires Refreshing(pc)
    ensures Stays(pc, RefreshTurn(cfg, s, pc, ch))
  {
  }

  lemma ClaimStays(s: State, pc: Pc, ch: Choice)
    requires Claiming(pc)
    ensures Stays(pc, ClaimTurn(s, pc, ch))
  {
  }

  lemma EarlyStays(cfg: Config, s: State, pc: Pc, ch: Choice)
    requires Issuing(pc) || Refreshing(pc) || Claiming(pc)
    ensures Stays(pc, Turn(cfg, s, pc, ch))
  {
    if Issuing(pc) { IssueStays(cfg, s, pc, ch); }
    else if Refreshing(pc) { RefreshStays(cfg, s, pc, ch); }
    else { ClaimStays(s, pc, ch); }
  }

  lemma PrepareStays(cfg: Config, s: State, pc: Pc, ch: Choice)
    requires Preparing(pc)
    ensures Stays(pc, PrepareTurn(cfg, s, pc, ch))
  {
    if pc.PutReply? {
    } else if pc.PutSuccessor? {
    } else if pc.CommitClock? {
    } else {
    }
  }

  lemma ReleaseStays(s: State, pc: Pc, ch: Choice)
    requires Releasing(pc) && NoTokensPending(pc)
    ensures Stays(pc, ReleaseTurn(s, pc, ch))
  {
  }

  lemma HolderStays(cfg: Config, s: State, pc: Pc, ch: Choice)
    requires (Preparing(pc) || Releasing(pc) || pc.Ask?) && NoTokensPending(pc)
    ensures Stays(pc, Turn(cfg, s, pc, ch))
  {
    if Preparing(pc) { PrepareStays(cfg, s, pc, ch); }
    else if Releasing(pc) { ReleaseStays(s, pc, ch); }
    else { assert Stays(pc, AskTurn(pc.claim, ch)); }
  }

  lemma SettleStays(s: State, pc: Pc, ch: Choice)
    requires Settling(pc) && NoTokensPending(pc)
    ensures Stays(pc, SettleTurn(s, pc, ch))
  {
    if Dropping(pc) {
    } else {
    }
  }

  lemma EraseStays(s: State, pc: Pc, ch: Choice)
    requires Erasing(pc) && NoTokensPending(pc)
    ensures Stays(pc, RevokeTurn(s, pc, ch))
  {
    assert Stays(pc, Move(Nothing, AfterWalk(pc.rev, true))) && Stays(pc, Move(Nothing, AfterWalk(pc.rev, false)));
  }

  lemma TurnStays(cfg: Config, s: State, pc: Pc, ch: Choice)
    requires NoTokensPending(pc)
    ensures Stays(pc, Turn(cfg, s, pc, ch))
  {
    if Issuing(pc) || Refreshing(pc) || Claiming(pc) { EarlyStays(cfg, s, pc, ch); }
    else if Preparing(pc) || Releasing(pc) || pc.Ask? { HolderStays(cfg, s, pc, ch); }
    else if Settling(pc) { SettleStays(s, pc, ch); }
    else if Erasing(pc) { EraseStays(s, pc, ch); }
  }

  predicate Addressed(s: State, c: CallerId)
    requires c in s.callers
  {
    var caller := s.callers[c];
    && (Subject(caller.pc).Some? ==> caller.presented == Subject(caller.pc))
    && NoTokensPending(caller.pc)
    && (caller.pc.Done? && caller.pc.outcome.Tokens? ==>
          caller.presented.Some? && (caller.presented.value, caller.pc.outcome.reply) in s.returned)
  }

  ghost predicate AllAddressed(s: State) {
    forall c :: c in s.callers ==> Addressed(s, c)
  }

  lemma ActKeepsAddress(cfg: Config, s: State, me: CallerId, ch: Choice)
    requires me in s.callers && Addressed(s, me) && Allowed(cfg, s, Act(me, ch))
    ensures Addressed(AfterAct(cfg, s, me, ch), me)
  {
    TurnStays(cfg, s, s.callers[me].pc, ch);
  }

  lemma NextKeepsAddresses(cfg: Config, s: State, ev: Event)
    requires AllAddressed(s) && Allowed(cfg, s, ev)
    ensures AllAddressed(Next(cfg, s, ev))
  {
    if ev.Act? { ActKeepsAddress(cfg, s, ev.caller, ev.choice); }
    var s' := Next(cfg, s, ev);
    forall c | c in s'.callers ensures Addressed(s', c) {
      if c in s.callers && !(ev.Act? && c == ev.caller) {
        OthersLeaveAlone(cfg, s, ev, c);
        AddressedWhileUndisturbed(s, s', c);
      }
    }
  }

  /** Another caller's step, or the passing of time, leaves a caller where it is, unless it crashes. */
  predicate Undisturbed(s: State, s': State, c: CallerId)
    requires c in s.callers
  {
    && c in s'.callers && s'.callers[c].presented == s.callers[c].presented && s'.callers[c].knew == s.callers[c].knew
    && (s'.callers[c].pc == s.callers[c].pc || s'.callers[c].pc == Done(Crashed))
    && s.returned <= s'.returned
  }

  lemma OthersLeaveAlone(cfg: Config, s: State, ev: Event, c: CallerId)
    requires Allowed(cfg, s, ev) && c in s.callers && !(ev.Act? && ev.caller == c)
    ensures Undisturbed(s, Next(cfg, s, ev), c)
  {
  }

  lemma AddressedWhileUndisturbed(s: State, s': State, c: CallerId)
    requires c in s.callers && Addressed(s, c) && Undisturbed(s, s', c)
    ensures Addressed(s', c)
  {
  }

  lemma {:induction false} RunKeepsAddresses(cfg: Config, s: State, run: seq<Event>)
    requires AllAddressed(s) && Possible(cfg, s, run)
    ensures AllAddressed(After(cfg, s, run))
    decreases |run|
  {
    if run != [] {
      NextKeepsAddresses(cfg, s, run[0]);
      RunKeepsAddresses(cfg, Next(cfg, s, run[0]), run[1..]);
    }
  }

  // ---- one response per handle ----

  /**
   In every run, with takeovers, releases, crashes and writes of unknown outcome: any two calls
   that presented the same handle and were answered with tokens were answered with the same
   response, and it names the successor the handle was rotated to.
   */
  lemma OneResponsePerHandle(cfg: Config, run: seq<Event>, a: CallerId, b: CallerId)
    requires Possible(cfg, INITIAL, run)
    requires var s := After(cfg, INITIAL, run);
      && a in s.callers && b in s.callers
      && s.callers[a].presented.Some? && s.callers[a].presented == s.callers[b].presented
      && s.callers[a].pc.Done? && s.callers[a].pc.outcome.Tokens?
      && s.callers[b].pc.Done? && s.callers[b].pc.outcome.Tokens?
    ensures var s := After(cfg, INITIAL, run);
      && s.callers[a].pc.outcome == s.callers[b].pc.outcome
      && var h := s.callers[a].presented.value;
      && Committed(s, s.callers[a].pc.outcome.reply.successor)
      && s.births[s.callers[a].pc.outcome.reply.successor].parent == Some(h)
  {
    ReachedInv(cfg, run);
    RunKeepsAddresses(cfg, INITIAL, run);
    var s := After(cfg, INITIAL, run);
    var h := s.callers[a].presented.value;
    assert Addressed(s, a) && Addressed(s, b);
    assert ReturnOk(s, (h, s.callers[a].pc.outcome.reply)) && ReturnOk(s, (h, s.callers[b].pc.outcome.reply));
    assert RotationOk(s, h);
  }

  /** A record that reads `Rotated` keeps its exact bytes for as long as it exists. */
  lemma RotatedForGood(cfg: Config, s: State, ev: Event, h: Handle)
    requires Inv(cfg, s) && Allowed(cfg, s, ev)
    requires h in s.records && !HoldsToken(s.records[h].value)
    ensures var s' := Next(cfg, s, ev); h in s'.records ==> s'.records[h] == s.records[h]
  {
    if ev.Act? {
      TurnIsLegal(cfg, s, ev.caller, s.callers[ev.caller].pc, ev.choice);
      assert RecordOk(s, h);
    }
  }

  /** Once rotated and deleted, a handle's record never comes back, and no rotation of it changes. */
  lemma RotatedAtMostOnce(cfg: Config, s: State, ev: Event, h: Handle)
    requires Inv(cfg, s) && Allowed(cfg, s, ev) && h in s.rotations
    ensures var s' := Next(cfg, s, ev);
      && h in s'.rotations && s'.rotations[h] == s.rotations[h]
      && (h in s'.records ==> h in s.records)
  {
    if ev.Act? {
      TurnIsLegal(cfg, s, ev.caller, s.callers[ev.caller].pc, ev.choice);
      assert RotationOk(s, h) && RecordOk(s, h);
    }
  }

  /** A successor whose rotation was never committed is known to no client. */
  lemma UncommittedIsUndisclosed(cfg: Config, run: seq<Event>, h: Handle)
    requires Possible(cfg, INITIAL, run)
    requires var s := After(cfg, INITIAL, run); h in s.births && h in s.presentable
    ensures Committed(After(cfg, INITIAL, run), h)
  {
    ReachedInv(cfg, run);
    assert DisclosedOk(After(cfg, INITIAL, run), h);
  }

  // ---- one chain per family ----

  /** Rotation is injective and goes up the chain, so the committed links form one acyclic chain. */
  lemma UniquePredecessor(cfg: Config, run: seq<Event>, a: Handle, b: Handle)
    requires Possible(cfg, INITIAL, run)
    requires var s := After(cfg, INITIAL, run);
      a in s.rotations && b in s.rotations && s.rotations[a].successor == s.rotations[b].successor
    ensures a == b
  {
    ReachedInv(cfg, run);
    assert RotationOk(After(cfg, INITIAL, run), a) && RotationOk(After(cfg, INITIAL, run), b);
  }

  /** At most one record on a family's chain holds a token: that of the tip. */
  lemma OneTokenOnTheChain(cfg: Config, run: seq<Event>, a: Handle, b: Handle)
    requires Possible(cfg, INITIAL, run)
    requires var s := After(cfg, INITIAL, run);
      && a in s.records && b in s.records && HoldsToken(s.records[a].value) && HoldsToken(s.records[b].value)
      && s.records[a].value.record.family == s.records[b].value.record.family
      && Committed(s, a) && Committed(s, b)
    ensures a == b
  {
    ReachedInv(cfg, run);
    var s := After(cfg, INITIAL, run);
    assert RecordOk(s, a) && RecordOk(s, b) && BehindTip(s, a) && BehindTip(s, b);
  }

  /** While it lives, the head pointer names a chain member of its family, and it only moves up the chain. */
  lemma HeadMovesForward(cfg: Config, s: State, ev: Event, f: Family)
    requires Inv(cfg, s) && Allowed(cfg, s, ev) && Live(s.heads, f, s.now)
    ensures var s' := Next(cfg, s, ev);
      && f in s'.heads && OnChain(s', f, s'.heads[f].value)
      && s.heads[f].value in s'.births
      && s'.births[s.heads[f].value].index <= s'.births[s'.heads[f].value].index
  {
    NextKeepsInv(cfg, s, ev);
    var s' := Next(cfg, s, ev);
    assert HeadOk(s, f) && HeadOk(s', f);
    if ev.Act? {
      var e := Turn(cfg, s, s.callers[ev.caller].pc, ev.choice).effect;
      TurnIsLegal(cfg, s, ev.caller, s.callers[ev.caller].pc, ev.choice);
      ChainGrows(cfg, s, ev.caller, e, s.heads[f].value);
      if e.WriteHead? { HeadWriter(cfg, s, ev.caller, ev.choice, f); }
    }
  }

  /** Where an effect on the shared store can come from. */
  predicate From(s: State, pc: Pc, e: Effect) {
    && (e.WriteHead? ==> pc.PutFirstHead? || pc.MoveHead?)
    && (e.Create? && e.birth.parent.Some? ==> pc.PutSuccessor? && e.handle == pc.offer.successor)
    && (e.Disclose? ==> pc.HandOver? && e.handle == pc.handle)
    && (e.Remove? ==> (pc.DropSuccessor? && e.handle == pc.offer.successor) || (pc.EraseDelete? && e.handle == pc.key))
    && (e.Mark? ==> pc.PutMarker? && e.family == pc.rev.family && !Live(s.markers, e.family, s.now))
    && (e.Tell? ==> (pc.FetchReply? && e.handle == pc.handle)
                    || (pc.PostCheck? && !Live(s.markers, pc.claim.family, s.now) && e.handle == pc.claim.handle))
    && (e.Rotate? ==> pc.SwapTombstone? && e.handle == pc.claim.handle && Holds(s, e.handle, pc.claim.bytes))
    && (e.Overwrite? ==> && (pc.SwapClaim? || pc.SwapRelease?) && e.handle == pc.claim.handle
                         && Holds(s, e.handle, if pc.SwapClaim? then pc.seen else pc.claim.bytes))
  }

  lemma EarlyEffectsComeFrom(cfg: Config, s: State, pc: Pc, ch: Choice)
    requires Issuing(pc) || Refreshing(pc) || Claiming(pc)
    ensures From(s, pc, Turn(cfg, s, pc, ch).effect)
  {
    if Issuing(pc) {
    } else if Refreshing(pc) {
    } else {
    }
  }

  lemma CommitEffectsComeFrom(cfg: Config, s: State, pc: Pc, ch: Choice)
    requires Preparing(pc) || Settling(pc)
    ensures From(s, pc, Turn(cfg, s, pc, ch).effect)
  {
    if Preparing(pc) {
    } else {
    }
  }

  lemma EffectsComeFrom(cfg: Config, s: State, pc: Pc, ch: Choice)
    ensures From(s, pc, Turn(cfg, s, pc, ch).effect)
  {
    if Issuing(pc) || Refreshing(pc) || Claiming(pc) {
      EarlyEffectsComeFrom(cfg, s, pc, ch);
    } else if Preparing(pc) || Settling(pc) {
      CommitEffectsComeFrom(cfg, s, pc, ch);
    } else if Releasing(pc) {
    } else {
    }
  }

  lemma HeadWriter(cfg: Config, s: State, c: CallerId, ch: Choice, f: Family)
    requires Inv(cfg, s) && Allowed(cfg, s, Act(c, ch)) && Live(s.heads, f, s.now)
    requires Turn(cfg, s, s.callers[c].pc, ch).effect.WriteHead?
    ensures var e := Turn(cfg, s, s.callers[c].pc, ch).effect;
      e.family == f ==>
        && s.heads[f].value in s.births && e.handle in s.births
        && s.births[s.heads[f].value].index < s.births[e.handle].index
  {
    var pc := s.callers[c].pc;
    EffectsComeFrom(cfg, s, pc, ch);
    if pc.MoveHead? { SettledIsCommitted(s, c, pc.claim, pc.offer); }
  }

  // ---- the upstream token a handle stands for ----

  /** The chain from the root of the family down to `h`. */
  ghost function PathTo(s: State, h: Handle): (path: seq<Handle>)
    requires BirthsOk(s) && h in s.births
    ensures path != [] && path[|path| - 1] == h
    ensures forall i :: 0 <= i < |path| ==> path[i] in s.births
    decreases s.births[h].index
  {
    assert BirthOk(s, h);
    if s.births[h].parent.None? then [h] else PathTo(s, s.births[h].parent.value) + [h]
  }

  /** What the upstream last returned along `path` after its first member; `issued` if it never rotated. */
  ghost function LastReturned(s: State, path: seq<Handle>, issued: Token): Token {
    if |path| < 2 then issued
    else
      var before := LastReturned(s, path[..|path| - 1], issued);
      var p := path[|path| - 2];
      if p in s.rotations && s.rotations[p].rotated.Some? then s.rotations[p].rotated.value else before
  }

  lemma {:induction false} TokenFollowsUpstream(cfg: Config, s: State, h: Handle)
    requires Global(cfg, s) && Committed(s, h)
    ensures var path := PathTo(s, h);
      s.births[h].token == LastReturned(s, path, s.births[path[0]].token)
    decreases s.births[h].index
  {
    assert BirthOk(s, h);
    if s.births[h].parent.Some? {
      var p := s.births[h].parent.value;
      TokenFollowsUpstream(cfg, s, p);
      assert RotationOk(s, p);
      var path := PathTo(s, h);
      assert path[..|path| - 1] == PathTo(s, p);
    }
  }

  /**
   In every run, a record on a chain that holds an upstream token holds the one the upstream last
   returned along that chain, or the issued one if it never returned another.
   */
  lemma TokenIsLastReturned(cfg: Config, run: seq<Event>, h: Handle)
    requires Possible(cfg, INITIAL, run)
    requires var s := After(cfg, INITIAL, run);
      h in s.records && HoldsToken(s.records[h].value) && Committed(s, h)
    ensures var s := After(cfg, INITIAL, run);
      && BirthsOk(s)
      && var path := PathTo(s, h);
         s.records[h].value.record.state.token == LastReturned(s, path, s.births[path[0]].token)
  {
    ReachedInv(cfg, run);
    var s := After(cfg, INITIAL, run);
    assert RecordOk(s, h);
    TokenFollowsUpstream(cfg, s, h);
  }
}
