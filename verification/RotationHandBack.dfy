/**
 Claims that come to nothing: the holder hands the record back as it found it, so that the handle
 can be presented again. So after any upstream answer that is not a grant, and after a failure on
 the way to the swap, which also takes back what was written until then.
 */
module RotationHandBack {
  import opened RotationProtocol
  import opened RotationInvariant
  import opened RotationSafety
  import opened RotationProgress
  import opened RotationCommit

  // ---- release ----

  /** Where a releasing caller is after `k` steps, and what it has done. */
  predicate Freeing(s1: State, s: State, c: CallerId, claim: Claim, result: Outcome, k: nat) {
    && c in s.callers
    && (var pc := s.callers[c].pc;
        if k == 0 then pc == SealRelease(claim, result)
        else if k == 1 then pc == ReleaseClock(claim, result)
        else if k == 2 then pc.SwapRelease? && pc == SwapRelease(claim, pc.ttl, result)
        else pc == Done(result))
    && OnlyRecord(s1, s, claim.handle)
    && claim.handle in s.records
    && if k < 3 then s.records[claim.handle].value == claim.bytes
       else s.records[claim.handle].value.record == Record(claim.family, claim.expires, Active(claim.token))
  }

  predicate Frees(s: State, claim: Claim, result: Outcome, k: nat, m: Move) {
    if k == 0 then m == Move(Nothing, ReleaseClock(claim, result))
    else if k == 1 then m == Move(Nothing, SwapRelease(claim, Elapsed(claim.expires, s.now), result))
    else
      && m.next == Done(result) && m.effect.Overwrite? && m.effect.handle == claim.handle
      && m.effect.bytes.record == Record(claim.family, claim.expires, Active(claim.token))
  }

  lemma FreeingMove(cfg: Config, s: State, c: CallerId, claim: Claim, result: Outcome, ch: Choice, k: nat)
    requires c in s.callers && Freeing(s, s, c, claim, result, k) && k < 3 && ch.luck.Fine?
    requires s.now < claim.expires && s.now < s.records[claim.handle].until
    ensures Frees(s, claim, result, k, Turn(cfg, s, s.callers[c].pc, ch))
  {
    assert Turn(cfg, s, s.callers[c].pc, ch) == ReleaseTurn(s, s.callers[c].pc, ch);
  }

  lemma FreedStep(s1: State, s: State, s': State, c: CallerId, claim: Claim, result: Outcome, k: nat, m: Move)
    requires Freeing(s1, s, c, claim, result, k) && k < 3 && Frees(s, claim, result, k, m) && Happened(s, s', c, m)
    ensures Freeing(s1, s', c, claim, result, k + 1)
  {
  }

  lemma ClaimIsLive(cfg: Config, s: State, c: CallerId, claim: Claim)
    requires Inv(cfg, s) && c in s.callers && Releasing(s.callers[c].pc) && s.callers[c].pc.claim == claim
    requires claim.handle in s.records && s.now < claim.expires
    ensures s.now < s.records[claim.handle].until
  {
    assert Relies(cfg, s, c, s.callers[c].pc) && RecordOk(s, claim.handle);
  }

  lemma FreeingGoesOn(cfg: Config, s1: State, s: State, c: CallerId, ev: Event, claim: Claim, result: Outcome, k: nat)
    requires Inv(cfg, s) && Freeing(s1, s, c, claim, result, k) && s.now < claim.expires
    requires Calm(c, ev) && Allowed(cfg, s, ev) && (ev.Act? ==> k < 3)
    ensures Freeing(s1, Next(cfg, s, ev), c, claim, result, if ev.Act? then k + 1 else k)
  {
    if ev.Act? {
      ClaimIsLive(cfg, s, c, claim);
      FreeingMove(cfg, s, c, claim, result, ev.choice, k);
      Acted(cfg, s, c, ev.choice);
      FreedStep(s1, s, Next(cfg, s, ev), c, claim, result, k, Turn(cfg, s, s.callers[c].pc, ev.choice));
    }
  }

  lemma {:induction false} FreeRun(cfg: Config, s1: State, s: State, run: seq<Event>, c: CallerId, claim: Claim,
                                   result: Outcome, k: nat)
    requires Inv(cfg, s) && Freeing(s1, s, c, claim, result, k)
    requires Possible(cfg, s, run) && CalmRun(c, run) && k + Steps(c, run) == 3
    requires After(cfg, s, run).now < claim.expires
    ensures Freeing(s1, After(cfg, s, run), c, claim, result, 3)
    decreases |run|
  {
    if run != [] {
      TimePasses(cfg, s, run);
      var k' := if run[0].Act? then k + 1 else k;
      assert Calm(c, run[0]) && CalmRun(c, run[1..]);
      FreeingGoesOn(cfg, s1, s, c, run[0], claim, result, k);
      NextKeepsInv(cfg, s, run[0]);
      FreeRun(cfg, s1, Next(cfg, s, run[0]), run[1..], c, claim, result, k');
    }
  }

  /** The answers that leave the family's token as good as it was, and what the client is told then. */
  predicate NoGrant(answer: Answer, result: Outcome) {
    || (answer == Unreachable && result == UpstreamFailed)
    || (answer == OtherError && result == PassedOn)
    || (answer == NotAnObject && result == UpstreamUnusable)
  }

  lemma RefusedStep(cfg: Config, s: State, c: CallerId, claim: Claim, ch: Choice, result: Outcome)
    requires c in s.callers && s.callers[c].pc == Ask(claim) && Holds(s, claim.handle, claim.bytes)
    requires Allowed(cfg, s, Act(c, ch)) && NoGrant(ch.answer, result)
    ensures Freeing(s, Next(cfg, s, Act(c, ch)), c, claim, result, 0)
  {
    Acted(cfg, s, c, ch);
    assert Turn(cfg, s, Ask(claim), ch) == AskTurn(claim, ch) == Move(Nothing, SealRelease(claim, result));
  }

  /**
   The upstream does not answer, answers with an error other than `invalid_grant`, or with something
   unusable, and nobody disturbs the holder of a claim that stands: three steps later the record is
   active again with the token it held, nothing else has changed, and the client is told which.
   */
  lemma ClaimIsHandedBack(cfg: Config, before: seq<Event>, c: CallerId, ch: Choice, rest: seq<Event>, result: Outcome)
    requires Possible(cfg, INITIAL, before)
    requires var s := After(cfg, INITIAL, before);
      && c in s.callers && s.callers[c].pc.Ask? && Allowed(cfg, s, Act(c, ch)) && NoGrant(ch.answer, result)
      && var claim := s.callers[c].pc.claim;
      && Holds(s, claim.handle, claim.bytes)
      && Possible(cfg, Next(cfg, s, Act(c, ch)), rest) && CalmRun(c, rest) && Steps(c, rest) == 3
      && After(cfg, Next(cfg, s, Act(c, ch)), rest).now < claim.expires
    ensures var s := After(cfg, INITIAL, before); var end := After(cfg, Next(cfg, s, Act(c, ch)), rest);
      var claim := s.callers[c].pc.claim;
      && c in end.callers && end.callers[c].pc == Done(result) && OnlyRecord(s, end, claim.handle)
      && claim.handle in end.records
      && end.records[claim.handle].value.record == Record(claim.family, claim.expires, Active(claim.token))
  {
    ReachedInv(cfg, before);
    var s := After(cfg, INITIAL, before);
    var claim := s.callers[c].pc.claim;
    RefusedStep(cfg, s, c, claim, ch, result);
    NextKeepsInv(cfg, s, Act(c, ch));
    FreeRun(cfg, s, Next(cfg, s, Act(c, ch)), rest, c, claim, result, 0);
  }

  // ---- a failure before the swap ----

  /** `s` differs from `s0` in the response of `claim` and the record of its successor at most. */
  predicate OnlyPrepared(s0: State, s: State, claim: Claim, o: Offer) {
    var p := (claim.handle, claim.id);
    && s.records - {o.successor} == s0.records - {o.successor} && s.replies - {p} == s0.replies - {p}
    && s.heads == s0.heads && s.markers == s0.markers && s0.now <= s.now
    && claim.handle != o.successor && claim.handle in s.records && s.records[claim.handle].value == claim.bytes
  }

  /** Where a caller is that takes back what it prepared, after `k` steps. */
  predicate Undoing(s0: State, s: State, c: CallerId, claim: Claim, o: Offer, fault: Outcome, k: nat) {
    && c in s.callers && OnlyPrepared(s0, s, claim, o)
    && (k >= 1 ==> (claim.handle, claim.id) !in s.replies)
    && (k >= 2 ==> o.successor !in s.records)
    && var pc := s.callers[c].pc;
    if k == 0 then pc == DropReply(claim, o, Failed(fault))
    else if k == 1 then pc == DropSuccessor(claim, o, Failed(fault))
    else pc == SealRelease(claim, fault)
  }

  lemma UndoingMove(cfg: Config, s: State, claim: Claim, o: Offer, fault: Outcome, ch: Choice)
    requires ch.luck.Fine?
    ensures Turn(cfg, s, DropReply(claim, o, Failed(fault)), ch) ==
      Move(RemoveReply(claim.handle, claim.id), DropSuccessor(claim, o, Failed(fault)))
    ensures Turn(cfg, s, DropSuccessor(claim, o, Failed(fault)), ch) ==
      Move(Remove(o.successor), SealRelease(claim, fault))
  {
  }

  lemma UndoneStep(s0: State, s: State, s': State, c: CallerId, claim: Claim, o: Offer, fault: Outcome, k: nat, m: Move)
    requires Undoing(s0, s, c, claim, o, fault, k) && k < 2 && Happened(s, s', c, m)
    requires k == 0 ==> m == Move(RemoveReply(claim.handle, claim.id), DropSuccessor(claim, o, Failed(fault)))
    requires k == 1 ==> m == Move(Remove(o.successor), SealRelease(claim, fault))
    ensures Undoing(s0, s', c, claim, o, fault, k + 1)
  {
  }

  lemma UndoingGoesOn(cfg: Config, s0: State, s: State, c: CallerId, ev: Event, claim: Claim, o: Offer, fault: Outcome,
                      k: nat)
    requires Undoing(s0, s, c, claim, o, fault, k) && Calm(c, ev) && Allowed(cfg, s, ev) && (ev.Act? ==> k < 2)
    ensures Undoing(s0, Next(cfg, s, ev), c, claim, o, fault, if ev.Act? then k + 1 else k)
  {
    if ev.Act? {
      UndoingMove(cfg, s, claim, o, fault, ev.choice);
      Acted(cfg, s, c, ev.choice);
      UndoneStep(s0, s, Next(cfg, s, ev), c, claim, o, fault, k, Turn(cfg, s, s.callers[c].pc, ev.choice));
    }
  }

  /** Everything prepared is gone again, and the record is as it was before it was claimed. */
  predicate TakenBack(s0: State, end: State, c: CallerId, claim: Claim, o: Offer, fault: Outcome) {
    var h, p := claim.handle, (claim.handle, claim.id);
    && c in end.callers && end.callers[c].pc == Done(fault)
    && h in end.records && end.records[h].value.record == Record(claim.family, claim.expires, Active(claim.token))
    && o.successor !in end.records && p !in end.replies
    && end.records - {h, o.successor} == s0.records - {h, o.successor} && end.replies - {p} == s0.replies - {p}
    && end.heads == s0.heads && end.markers == s0.markers
  }

  lemma FreedIsTakenBack(s0: State, s1: State, end: State, c: CallerId, claim: Claim, o: Offer, fault: Outcome)
    requires Undoing(s0, s1, c, claim, o, fault, 2) && Freeing(s1, end, c, claim, fault, 3)
    ensures TakenBack(s0, end, c, claim, o, fault)
  {
    var h := claim.handle;
    assert end.records - {h, o.successor} == (end.records - {h}) - {o.successor};
    assert s0.records - {h, o.successor} == (s0.records - {o.successor}) - {h};
    assert (s1.records - {o.successor}) - {h} == (s1.records - {h}) - {o.successor};
    assert o.successor in end.records ==> o.successor in end.records - {h};
  }

  lemma {:induction false} UndoRun(cfg: Config, s0: State, s: State, run: seq<Event>, c: CallerId, claim: Claim,
                                   o: Offer, fault: Outcome, k: nat)
    requires Inv(cfg, s) && Undoing(s0, s, c, claim, o, fault, k) && k <= 2
    requires Possible(cfg, s, run) && CalmRun(c, run) && k + Steps(c, run) == 5
    requires After(cfg, s, run).now < claim.expires
    ensures TakenBack(s0, After(cfg, s, run), c, claim, o, fault)
    decreases |run|
  {
    if k == 2 {
      FreeRun(cfg, s, s, run, c, claim, fault, 0);
      FreedIsTakenBack(s0, s, After(cfg, s, run), c, claim, o, fault);
    } else {
      var k' := if run[0].Act? then k + 1 else k;
      assert Calm(c, run[0]) && CalmRun(c, run[1..]);
      UndoingGoesOn(cfg, s0, s, c, run[0], claim, o, fault, k);
      NextKeepsInv(cfg, s, run[0]);
      UndoRun(cfg, s0, Next(cfg, s, run[0]), run[1..], c, claim, o, fault, k');
    }
  }

  /** The seal or the store call that `pc` makes fails, and what the client is told then. */
  predicate FailsWith(pc: Pc, luck: Luck, fault: Outcome) {
    if pc.SealReply? || pc.SealSuccessor? || pc.SealTombstone? then
      (luck == SealError(true) && fault == SealerDown) || (luck == SealError(false) && fault == Denied)
    else (pc.PutReply? || pc.PutSuccessor?) && luck.StoreError? && fault == StoreFailed
  }

  predicate GivesUp(claim: Claim, o: Offer, fault: Outcome, m: Move) {
    && m.next == DropReply(claim, o, Failed(fault))
    && (|| m.effect.Nothing?
        || (m.effect.WriteReply? && m.effect.handle == claim.handle && m.effect.id == claim.id)
        || (m.effect.Create? && m.effect.handle == o.successor))
  }

  lemma FailingMove(cfg: Config, s: State, pc: Pc, ch: Choice, fault: Outcome)
    requires Preparing(pc) && FailsWith(pc, ch.luck, fault)
    ensures GivesUp(pc.claim, pc.offer, fault, Turn(cfg, s, pc, ch))
  {
    assert Turn(cfg, s, pc, ch) == PrepareTurn(cfg, s, pc, ch);
  }

  lemma GivenUpStep(s: State, s': State, c: CallerId, claim: Claim, o: Offer, fault: Outcome, m: Move)
    requires GivesUp(claim, o, fault, m) && Happened(s, s', c, m) && claim.handle != o.successor
    requires claim.handle in s.records && s.records[claim.handle].value == claim.bytes
    ensures Undoing(s, s', c, claim, o, fault, 0)
  {
  }

  lemma SuccessorIsAnother(cfg: Config, s: State, c: CallerId)
    requires Inv(cfg, s) && c in s.callers && Preparing(s.callers[c].pc)
    ensures s.callers[c].pc.claim.handle != s.callers[c].pc.offer.successor
  {
    assert PrepareRelies(cfg, s, c, s.callers[c].pc);
    assert BirthOk(s, s.callers[c].pc.claim.handle);
  }

  /**
   A seal or a store call fails before the final swap, with or without effect, and nobody disturbs
   the holder of a claim that stands: five steps later neither the response nor the successor is in
   the store, and the presented handle's record is active again with the token it held.
   */
  lemma FailedCommitIsUndone(cfg: Config, before: seq<Event>, c: CallerId, ch: Choice, rest: seq<Event>, fault: Outcome)
    requires Possible(cfg, INITIAL, before)
    requires var s := After(cfg, INITIAL, before);
      && c in s.callers && Preparing(s.callers[c].pc) && Allowed(cfg, s, Act(c, ch))
      && FailsWith(s.callers[c].pc, ch.luck, fault)
      && var claim := s.callers[c].pc.claim;
      && Holds(s, claim.handle, claim.bytes)
      && Possible(cfg, Next(cfg, s, Act(c, ch)), rest) && CalmRun(c, rest) && Steps(c, rest) == 5
      && After(cfg, Next(cfg, s, Act(c, ch)), rest).now < claim.expires
    ensures var s := After(cfg, INITIAL, before); var pc := s.callers[c].pc;
      TakenBack(s, After(cfg, Next(cfg, s, Act(c, ch)), rest), c, pc.claim, pc.offer, fault)
  {
    ReachedInv(cfg, before);
    var s := After(cfg, INITIAL, before);
    var pc := s.callers[c].pc;
    SuccessorIsAnother(cfg, s, c);
    FailingMove(cfg, s, pc, ch, fault);
    Acted(cfg, s, c, ch);
    var s1 := Next(cfg, s, Act(c, ch));
    GivenUpStep(s, s1, c, pc.claim, pc.offer, fault, Turn(cfg, s, pc, ch));
    NextKeepsInv(cfg, s, Act(c, ch));
    UndoRun(cfg, s, s1, rest, c, pc.claim, pc.offer, fault, 0);
  }
}
