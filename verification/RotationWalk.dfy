/**
 The walk that erases a revoked family's token, as the loop it is, and what it achieves when
 nothing interferes. The steps of the protocol refine this loop to one store call each.
 */
module RotationWalk {
  import opened Wrappers
  import opened RotationProtocol
  import opened RotationInvariant
  import opened RotationSafety
  import opened RotationErasure

  /** The first record that holds a token on the chain from `key`, within the hop limit. */
  function WalkEnd(records: map<Handle, Slot<Bytes>>, now: nat, key: Handle, hops: nat): Option<Handle>
    decreases MAX_ERASE_HOPS - hops
  {
    if hops >= MAX_ERASE_HOPS || !Live(records, key, now) then None
    else if HoldsToken(records[key].value) then Some(key)
    else WalkEnd(records, now, records[key].value.record.state.successor, hops + 1)
  }

  function Erased(records: map<Handle, Slot<Bytes>>, now: nat, key: Handle, hops: nat): map<Handle, Slot<Bytes>> {
    var end := WalkEnd(records, now, key, hops);
    if end.Some? then records - {end.value} else records
  }

  class ChainStore {
    var records: map<Handle, Slot<Bytes>>

    /** Deletes the record the walk from `start` ends at, if it ends at one. */
    method EraseTokens(now: nat, start: Handle)
      modifies this
      ensures records == Erased(old(records), now, start, 0)
    {
      var key := start;
      for hops := 0 to MAX_ERASE_HOPS
        invariant records == old(records)
        invariant WalkEnd(records, now, start, 0) == WalkEnd(records, now, key, hops)
      {
        if !Live(records, key, now) {
          return;
        }
        var bytes := records[key].value;
        if HoldsToken(bytes) {
          records := records - {key};
          return;
        }
        key := bytes.record.state.successor;
      }
    }
  }

  /**
   From any member of a connected chain the walk finds the token at the tip, if the tip is within
   the hop limit. So the head pointer may lag.
   */
  lemma {:induction false} WalkFindsTip(cfg: Config, s: State, h: Handle, hops: nat)
    requires Global(cfg, s) && Committed(s, h) && s.now < s.births[h].expires && Connected(s, s.births[h].family)
    requires var f := s.births[h].family;
      f in s.tips && s.tips[f] in s.births && s.tips[f] in s.records &&
        s.births[s.tips[f]].index + hops < MAX_ERASE_HOPS + s.births[h].index
    ensures WalkEnd(s.records, s.now, h, hops) == Some(s.tips[s.births[h].family])
    decreases MAX_ERASE_HOPS - hops
  {
    var f := s.births[h].family;
    assert TipOk(s, f) && BehindTip(s, h) && RecordOk(s, h) && RotationOk(s, h);
    if h != s.tips[f] {
      var next := s.rotations[h].successor;
      assert BirthOk(s, next) && BehindTip(s, next);
      WalkFindsTip(cfg, s, next, hops + 1);
    } else {
      assert RecordOk(s, s.tips[f]);
    }
  }

  const CALM := Choice(Fine, 0, 0, 0, 0, Unreachable, false)

  /** Some run leads from `s` to `end`. */
  ghost predicate Leads(cfg: Config, s: State, end: State) {
    exists run :: Possible(cfg, s, run) && After(cfg, s, run) == end
  }

  /** `reached` has every state that a calm step of `c` leads to from one of its own. */
  ghost predicate Closed(cfg: Config, c: CallerId, reached: iset<State>) {
    forall s {:trigger Allowed(cfg, s, Act(c, CALM))} :: s in reached && Allowed(cfg, s, Act(c, CALM)) ==>
      Next(cfg, s, Act(c, CALM)) in reached
  }

  lemma ReachableIsClosed(cfg: Config, s: State, c: CallerId)
    ensures s in (iset e | Leads(cfg, s, e)) && Closed(cfg, c, iset e | Leads(cfg, s, e))
  {
    assert Possible(cfg, s, []) && After(cfg, s, []) == s;
    forall e | Leads(cfg, s, e) && Allowed(cfg, e, Act(c, CALM)) ensures Leads(cfg, s, Next(cfg, e, Act(c, CALM))) {
      var run :| Possible(cfg, s, run) && After(cfg, s, run) == e;
      OneMore(cfg, s, run, Act(c, CALM));
    }
  }

  /** One calm step of a caller that erases. */
  lemma Acts(cfg: Config, reached: iset<State>, s: State, c: CallerId, m: Move) returns (s': State)
    requires s in reached && Closed(cfg, c, reached)
    requires c in s.callers && Erasing(s.callers[c].pc) && RevokeTurn(s, s.callers[c].pc, CALM) == m
    requires m.effect.Nothing? || m.effect.Remove?
    ensures s' in reached && c in s'.callers && s'.callers[c].pc == m.next && s'.now == s.now
    ensures s'.records == if m.effect.Remove? then s.records - {m.effect.handle} else s.records
  {
    assert Turn(cfg, s, s.callers[c].pc, CALM) == m && Allowed(cfg, s, Act(c, CALM));
    s' := Next(cfg, s, Act(c, CALM));
  }

  lemma {:induction false} WalkReaches(cfg: Config, reached: iset<State>, s: State, c: CallerId,
                                       rev: Revoking, key: Handle, hops: nat, more: bool) returns (end: State)
    requires s in reached && Closed(cfg, c, reached)
    requires c in s.callers && s.callers[c].pc == EraseLoad(rev, key, hops, more)
    ensures end in reached && c in end.callers && end.callers[c].pc == AfterWalk(rev, more) && end.now == s.now
    ensures end.records == Erased(s.records, s.now, key, hops)
    decreases MAX_ERASE_HOPS - hops
  {
    if hops >= MAX_ERASE_HOPS || !Live(s.records, key, s.now) {
      end := Acts(cfg, reached, s, c, Move(Nothing, AfterWalk(rev, more)));
    } else if HoldsToken(s.records[key].value) {
      var s1 := Acts(cfg, reached, s, c, Move(Nothing, EraseDelete(rev, key, more)));
      end := Acts(cfg, reached, s1, c, Move(Remove(key), AfterWalk(rev, more)));
    } else {
      var next := s.records[key].value.record.state.successor;
      var s1 := Acts(cfg, reached, s, c, Move(Nothing, EraseLoad(rev, next, hops + 1, more)));
      end := WalkReaches(cfg, reached, s1, c, rev, next, hops + 1, more);
    }
  }

  /**
   Undisturbed, the protocol's steps from `EraseLoad` do what the loop does, and nothing else to the
   records.
   */
  lemma UndisturbedWalk(cfg: Config, s: State, c: CallerId, rev: Revoking, key: Handle, more: bool) returns (end: State)
    requires c in s.callers && s.callers[c].pc == EraseLoad(rev, key, 0, more)
    ensures Leads(cfg, s, end) && c in end.callers && end.callers[c].pc == AfterWalk(rev, more)
    ensures end.records == Erased(s.records, s.now, key, 0)
  {
    ReachableIsClosed(cfg, s, c);
    var reached := iset e | Leads(cfg, s, e);
    end := WalkReaches(cfg, reached, s, c, rev, key, 0, more);
  }

  // ---- exactly when an undisturbed revocation erases ----

  /** `g` is on the chain of `h`, at `h` or after it. */
  predicate OnwardFrom(s: State, h: Handle, g: Handle)
    requires h in s.births
  {
    Committed(s, g) && s.births[g].family == s.births[h].family && s.births[g].index >= s.births[h].index
  }

  /** Every chain member from `h` on is there. */
  ghost predicate NoGapFrom(s: State, h: Handle)
    requires h in s.births
  {
    forall g :: OnwardFrom(s, h, g) ==> g in s.records
  }

  /** A chain has one member of each index. */
  lemma {:induction false} OneMemberPerIndex(cfg: Config, s: State, g: Handle, h: Handle)
    requires Global(cfg, s) && Committed(s, g) && Committed(s, h)
    requires s.births[g].family == s.births[h].family && s.births[g].index == s.births[h].index
    requires var f := s.births[g].family; f in s.tips && s.tips[f] in s.births
    ensures g == h
    decreases s.births[s.tips[s.births[g].family]].index - s.births[g].index
  {
    assert BehindTip(s, g) && BehindTip(s, h) && RotationOk(s, g) && RotationOk(s, h);
    var tip := s.tips[s.births[g].family];
    if g != tip && h != tip {
      var g', h' := s.rotations[g].successor, s.rotations[h].successor;
      assert BirthOk(s, g') && BirthOk(s, h') && BehindTip(s, g');
      OneMemberPerIndex(cfg, s, g', h');
    }
  }

  /** The walk from `h`, after so many hops, is to find the token. */
  ghost predicate InReach(s: State, h: Handle, hops: nat)
    requires h in s.births
  {
    && NoGapFrom(s, h)
    && var f := s.births[h].family;
       f in s.tips && s.tips[f] in s.births && s.births[s.tips[f]].index + hops < MAX_ERASE_HOPS + s.births[h].index
  }

  lemma NoGapOneFurther(cfg: Config, s: State, h: Handle)
    requires Global(cfg, s) && Committed(s, h) && h in s.rotations
    ensures s.rotations[h].successor in s.births
    ensures NoGapFrom(s, h) <==> h in s.records && NoGapFrom(s, s.rotations[h].successor)
  {
    var next := s.rotations[h].successor;
    assert RotationOk(s, h) && BirthOk(s, next) && BehindTip(s, h);
    if h in s.records && NoGapFrom(s, next) {
      forall g | OnwardFrom(s, h, g) ensures g in s.records {
        if s.births[g].index == s.births[h].index {
          OneMemberPerIndex(cfg, s, g, h);
        } else {
          assert OnwardFrom(s, next, g);
        }
      }
    }
  }

  lemma NoGapAtTip(cfg: Config, s: State, f: Family)
    requires Global(cfg, s) && f in s.tips
    ensures s.tips[f] in s.births && (NoGapFrom(s, s.tips[f]) <==> s.tips[f] in s.records)
  {
    assert TipOk(s, f);
    forall g | OnwardFrom(s, s.tips[f], g) ensures g == s.tips[f] {
      assert BehindTip(s, g);
    }
  }

  /**
   From a chain member the walk finds the tip's token exactly if no record from there on is missing
   and the tip is within the hop limit; otherwise it finds nothing.
   */
  lemma {:induction false} WalkEndsExactlyWhen(cfg: Config, s: State, h: Handle, hops: nat)
    requires Global(cfg, s) && Committed(s, h) && s.now < s.births[h].expires
    ensures s.births[h].family in s.tips
    ensures WalkEnd(s.records, s.now, h, hops) == if InReach(s, h, hops) then Some(s.tips[s.births[h].family]) else None
    decreases MAX_ERASE_HOPS - hops
  {
    var f := s.births[h].family;
    assert BehindTip(s, h) && RecordOk(s, h) && TipOk(s, f);
    if h == s.tips[f] {
      NoGapAtTip(cfg, s, f);
    } else {
      NoGapOneFurther(cfg, s, h);
      if hops < MAX_ERASE_HOPS && h in s.records { WalkEndsOneFurther(cfg, s, h, hops); }
    }
  }

  lemma {:induction false} WalkEndsOneFurther(cfg: Config, s: State, h: Handle, hops: nat)
    requires Global(cfg, s) && Committed(s, h) && s.now < s.births[h].expires && h in s.records && h in s.rotations
    requires hops < MAX_ERASE_HOPS
    ensures s.births[h].family in s.tips
    ensures WalkEnd(s.records, s.now, h, hops) == if InReach(s, h, hops) then Some(s.tips[s.births[h].family]) else None
    decreases MAX_ERASE_HOPS - hops, 0
  {
    var next := s.rotations[h].successor;
    assert RecordOk(s, h) && RotationOk(s, h) && BirthOk(s, next) && BehindTip(s, next);
    NoGapOneFurther(cfg, s, h);
    WalkEndsExactlyWhen(cfg, s, next, hops + 1);
    assert WalkEnd(s.records, s.now, h, hops) == WalkEnd(s.records, s.now, next, hops + 1);
  }

  /** What both walks of a revocation leave, from the head pointer if it is live and from the known handle. */
  function BothErased(s: State, rev: Revoking): map<Handle, Slot<Bytes>> {
    if Live(s.heads, rev.family, s.now) && s.heads[rev.family].value != rev.known then
      Erased(Erased(s.records, s.now, s.heads[rev.family].value, 0), s.now, rev.known, 0)
    else Erased(s.records, s.now, rev.known, 0)
  }

  lemma BothWalksReach(cfg: Config, reached: iset<State>, s: State, c: CallerId, rev: Revoking) returns (end: State)
    requires s in reached && Closed(cfg, c, reached)
    requires c in s.callers && s.callers[c].pc == ReadHead(rev)
    ensures end in reached && c in end.callers && end.callers[c].pc == Done(rev.result)
    ensures end.records == BothErased(s, rev)
  {
    if Live(s.heads, rev.family, s.now) {
      var head := s.heads[rev.family].value;
      var s1 := Acts(cfg, reached, s, c, Move(Nothing, EraseLoad(rev, head, 0, head != rev.known)));
      end := WalkReaches(cfg, reached, s1, c, rev, head, 0, head != rev.known);
      if head != rev.known { end := WalkReaches(cfg, reached, end, c, rev, rev.known, 0, false); }
    } else {
      var s1 := Acts(cfg, reached, s, c, Move(Nothing, EraseLoad(rev, rev.known, 0, false)));
      end := WalkReaches(cfg, reached, s1, c, rev, rev.known, 0, false);
    }
  }

  /** Whether one of a revocation's two walks finds the token. */
  ghost predicate Found(s: State, rev: Revoking) {
    || (rev.known in s.births && InReach(s, rev.known, 0))
    || (Live(s.heads, rev.family, s.now) && s.heads[rev.family].value in s.births &&
       InReach(s, s.heads[rev.family].value, 0))
  }

  lemma BothErasedExactlyWhen(cfg: Config, s: State, rev: Revoking)
    requires Global(cfg, s) && RevokingFits(s, rev) && s.now < rev.expires
    ensures rev.family in s.tips
    ensures s.tips[rev.family] in BothErased(s, rev) <==> s.tips[rev.family] in s.records && !Found(s, rev)
  {
    WalkEndsExactlyWhen(cfg, s, rev.known, 0);
    if Live(s.heads, rev.family, s.now) {
      var head := s.heads[rev.family].value;
      assert HeadOk(s, rev.family) && BirthOk(s, head) && BirthOk(s, rev.known);
      WalkEndsExactlyWhen(cfg, s, head, 0);
    }
  }

  /**
   An undisturbed revocation erases the tip's token exactly if from the head pointer, or from the
   handle it holds, no record up to the tip is missing and the tip is within the hop limit.
   */
  lemma UndisturbedRevocation(cfg: Config, s: State, c: CallerId, rev: Revoking) returns (end: State)
    requires Inv(cfg, s) && c in s.callers && s.callers[c].pc == ReadHead(rev) && s.now < rev.expires
    ensures Leads(cfg, s, end) && c in end.callers && end.callers[c].pc == Done(rev.result)
    ensures rev.family in s.tips
    ensures s.tips[rev.family] in end.records <==> s.tips[rev.family] in s.records && !Found(s, rev)
  {
    ReachableIsClosed(cfg, s, c);
    var reached := iset e | Leads(cfg, s, e);
    assert Relies(cfg, s, c, s.callers[c].pc) && RevokeRelies(s, s.callers[c].pc);
    end := BothWalksReach(cfg, reached, s, c, rev);
    BothErasedExactlyWhen(cfg, s, rev);
  }
}
