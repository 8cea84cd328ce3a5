/**
 What the claim holder makes of the upstream's answer when nobody disturbs it: a granted refresh is
 committed and told, any other answer hands the claim back, and so does a failure on the way.
 */
module RotationCommit {
  import opened Wrappers
  import opened RotationProtocol
  import opened RotationInvariant
  import opened RotationSafety
  import opened RotationProgress

  // ---- a claim's response is recorded by its holder only, and once ----

  predicate NothingRecordedYet(pc: Pc) {
    pc.SealClaim? || pc.SwapClaim? || pc.Ask? || pc.CommitClock? || pc.SealReply? || pc.PutReply?
  }

  predicate Unrecorded(s: State, c: CallerId)
    requires c in s.callers
  {
    var pc := s.callers[c].pc;
    NothingRecordedYet(pc) ==> (pc.claim.handle, pc.claim.id) !in s.replies
  }

  predicate Named(s: State, p: (Handle, ClaimId)) { p in s.replies ==> p.1 in s.names }

  ghost predicate Recording(s: State) {
    (forall p :: Named(s, p)) && forall c :: c in s.callers ==> Unrecorded(s, c)
  }

  /** Only `PutReply` records a response, that of its own claim; and a claim is new when it is made. */
  lemma RecordsOwnReply(cfg: Config, s: State, pc: Pc, ch: Choice)
    ensures var m := Turn(cfg, s, pc, ch);
      && (m.effect.WriteReply? ==> pc.PutReply? && m.effect.id == pc.claim.id && !NothingRecordedYet(m.next))
      && (NothingRecordedYet(m.next) ==>
           if pc.ClaimClock? then m.effect == Mint({m.next.claim.id})
           else NothingRecordedYet(pc) && m.next.claim == pc.claim)
  {
    if Issuing(pc) || Refreshing(pc) || Claiming(pc) {
      EarlyRecordsOwnReply(cfg, s, pc, ch);
    } else if Preparing(pc) {
    } else if Settling(pc) {
    } else if Releasing(pc) {
    } else if Erasing(pc) {
    } else {
    }
  }

  lemma EarlyRecordsOwnReply(cfg: Config, s: State, pc: Pc, ch: Choice)
    requires Issuing(pc) || Refreshing(pc) || Claiming(pc)
    ensures var m := Turn(cfg, s, pc, ch);
      && !m.effect.WriteReply?
      && (NothingRecordedYet(m.next) ==>
           if pc.ClaimClock? then m.effect == Mint({m.next.claim.id})
           else NothingRecordedYet(pc) && m.next.claim == pc.claim)
  {
    if Issuing(pc) {
    } else if Refreshing(pc) {
    } else {
    }
  }

  /** Whoever has recorded nothing yet owns its claim's name. */
  lemma OwnsClaim(cfg: Config, s: State, c: CallerId, pc: Pc)
    requires NothingRecordedYet(pc) && Relies(cfg, s, c, pc)
    ensures Owns(s, c, pc.claim.id)
  {
  }

  lemma ActKeepsRecording(cfg: Config, s: State, me: CallerId, ch: Choice)
    requires Inv(cfg, s) && Recording(s) && Allowed(cfg, s, Act(me, ch))
    ensures Recording(Next(cfg, s, Act(me, ch)))
  {
    var pc := s.callers[me].pc;
    var m := Turn(cfg, s, pc, ch);
    RecordsOwnReply(cfg, s, pc, ch);
    var s' := Next(cfg, s, Act(me, ch));
    if pc.PutReply? { OwnsClaim(cfg, s, me, pc); }
    forall p ensures Named(s', p) { assert Named(s, p); }
    forall c | c in s'.callers ensures Unrecorded(s', c) {
      assert Unrecorded(s, c);
      if c != me && NothingRecordedYet(s.callers[c].pc) { OwnsClaim(cfg, s, c, s.callers[c].pc); }
      if c == me && pc.ClaimClock? && m.next.SealClaim? { assert Named(s, (m.next.claim.handle, m.next.claim.id)); }
    }
  }

  lemma NextKeepsRecording(cfg: Config, s: State, ev: Event)
    requires Inv(cfg, s) && Recording(s) && Allowed(cfg, s, ev)
    ensures Recording(Next(cfg, s, ev))
  {
    if ev.Act? {
      ActKeepsRecording(cfg, s, ev.caller, ev.choice);
    } else {
      OtherEventIsOnward(cfg, s, ev);
      var s' := Next(cfg, s, ev);
      forall p ensures Named(s', p) { assert Named(s, p); }
      forall c | c in s'.callers ensures Unrecorded(s', c) { assert Calmly(s, s', c); }
    }
  }

  lemma {:induction false} RunKeepsRecording(cfg: Config, s: State, run: seq<Event>)
    requires Inv(cfg, s) && Recording(s) && Possible(cfg, s, run)
    ensures Recording(After(cfg, s, run))
    decreases |run|
  {
    if run != [] {
      NextKeepsInv(cfg, s, run[0]);
      NextKeepsRecording(cfg, s, run[0]);
      RunKeepsRecording(cfg, Next(cfg, s, run[0]), run[1..]);
    }
  }

  lemma ReachedRecording(cfg: Config, run: seq<Event>)
    requires Possible(cfg, INITIAL, run)
    ensures Recording(After(cfg, INITIAL, run))
  {
    InitialInv(cfg);
    RunKeepsRecording(cfg, INITIAL, run);
  }

  // ---- a granted refresh ----

  /** Where a committing caller is after `k` steps. */
  function CommitPc(claim: Claim, o: Offer, at: nat, k: nat): Pc {
    if k <= 1 then CommitClock(claim, o)
    else if k == 2 then SealReply(claim, o, at)
    else if k == 3 then PutReply(claim, o, at)
    else if k == 4 then SealSuccessor(claim, o, at)
    else if k == 5 then PutSuccessor(claim, o, at)
    else if k == 6 then SealTombstone(claim, o, at)
    else if k == 7 then SwapTombstone(claim, o, at)
    else if k == 8 then MoveHead(claim, o, at)
    else if k == 9 then PostCheck(claim, o)
    else Done(Tokens(o.reply))
  }

  /** The records of the presented handle and of its successor; all others are as they were. */
  predicate RecordsBy(s0: State, s: State, claim: Claim, o: Offer, at: nat, k: nat) {
    var h, n := claim.handle, o.successor;
    && s.records - {h, n} == s0.records - {h, n}
    && (k < 8 ==> h in s.records && s.records[h].value == claim.bytes)
    && (k >= 6 ==> Holding(s, n, Record(claim.family, claim.expires, Active(o.token))))
    && (k >= 8 ==> Holding(s, h, Record(claim.family, claim.expires, Rotated(at, claim.id, n))))
  }

  predicate RepliesBy(s0: State, s: State, claim: Claim, o: Offer, k: nat) {
    var p := (claim.handle, claim.id);
    && s.replies - {p} == s0.replies - {p} && (k < 4 ==> p !in s.replies)
    && (k >= 4 ==> p in s.replies && s.replies[p].value == o.reply)
  }

  /** The head pointer has moved to the successor if it named the presented handle. */
  predicate HeadMoved(s0: State, s: State, claim: Claim, o: Offer) {
    var f := claim.family;
    if f in s0.heads && s0.heads[f].value == claim.handle then
      f in s.heads && s.heads[f].value == o.successor && s.heads - {f} == s0.heads - {f}
    else s.heads == s0.heads
  }

  predicate Told(s: State, claim: Claim, o: Offer) {
    (claim.handle, o.reply) in s.returned && o.successor in s.presentable
  }

  predicate Committing(s0: State, s: State, c: CallerId, claim: Claim, o: Offer, at: nat, k: nat) {
    && c in s.callers && s.callers[c].pc == CommitPc(claim, o, at, k)
    && s0.now <= s.now && s.markers == s0.markers && claim.handle != o.successor
    && (k >= 2 ==> s0.now <= at <= s.now)
    && RecordsBy(s0, s, claim, o, at, k) && RepliesBy(s0, s, claim, o, k)
    && (if k < 9 then s.heads == s0.heads else HeadMoved(s0, s, claim, o))
    && (k >= 10 ==> Told(s, claim, o))
  }

  lemma TickOfCommit(cfg: Config, s0: State, s: State, c: CallerId, d: nat, claim: Claim, o: Offer, at: nat, k: nat)
    requires Committing(s0, s, c, claim, o, at, k)
    ensures Committing(s0, Next(cfg, s, Tick(d)), c, claim, o, at, k)
  {
  }

  /** Preparing, each step does what it is there for. */
  predicate Prepares(claim: Claim, o: Offer, at: nat, k: nat, m: Move) {
    && m.next == CommitPc(claim, o, at, k + 1)
    && if k == 3 then m.effect.WriteReply? && m.effect == WriteReply(claim.handle, claim.id, o.reply, m.effect.until)
       else if k == 5 then
         && m.effect.Create? && m.effect.handle == o.successor
         && m.effect.bytes.record == Record(claim.family, claim.expires, Active(o.token))
       else m.effect == Nothing
  }

  lemma PreparingMove(cfg: Config, s: State, claim: Claim, o: Offer, at: nat, ch: Choice, k: nat)
    requires 2 <= k < 7 && ch.luck.Fine?
    requires k == 3 ==> (claim.handle, claim.id) !in s.replies
    requires k == 5 ==> o.successor !in s.records
    ensures Prepares(claim, o, at, k, Turn(cfg, s, CommitPc(claim, o, at, k), ch))
  {
    var pc := CommitPc(claim, o, at, k);
    assert Turn(cfg, s, pc, ch) == PrepareTurn(cfg, s, pc, ch);
  }

  lemma PreparedStep(s0: State, s: State, s': State, c: CallerId, m: Move, claim: Claim, o: Offer, at: nat, k: nat)
    requires Committing(s0, s, c, claim, o, at, k) && 2 <= k < 7
    requires Prepares(claim, o, at, k, m) && Happened(s, s', c, m)
    ensures Committing(s0, s', c, claim, o, at, k + 1)
  {
  }

  lemma PreparingStep(cfg: Config, s0: State, s: State, c: CallerId, ch: Choice, claim: Claim, o: Offer, at: nat,
                      k: nat)
    requires Inv(cfg, s) && Committing(s0, s, c, claim, o, at, k) && 2 <= k < 7
    requires ch.luck.Fine? && Allowed(cfg, s, Act(c, ch))
    ensures Committing(s0, Next(cfg, s, Act(c, ch)), c, claim, o, at, k + 1)
  {
    if k == 5 { SuccessorIsNew(cfg, s, c, claim, o, at); }
    PreparingMove(cfg, s, claim, o, at, ch, k);
    Acted(cfg, s, c, ch);
    PreparedStep(s0, s, Next(cfg, s, Act(c, ch)), c, Turn(cfg, s, s.callers[c].pc, ch), claim, o, at, k);
  }

  lemma SuccessorIsNew(cfg: Config, s: State, c: CallerId, claim: Claim, o: Offer, at: nat)
    requires Inv(cfg, s) && c in s.callers && s.callers[c].pc == PutSuccessor(claim, o, at)
    ensures o.successor !in s.records
  {
    assert PrepareRelies(cfg, s, c, PutSuccessor(claim, o, at)) && RecordOk(s, o.successor);
  }

  /** From the swap on, each step does what it is there for. */
  predicate Settles(s: State, claim: Claim, o: Offer, at: nat, k: nat, m: Move) {
    && m.next == CommitPc(claim, o, at, k + 1)
    && if k == 7 then
         && m.effect.Rotate? && m.effect.handle == claim.handle
         && m.effect.bytes.record == Record(claim.family, claim.expires, Rotated(at, claim.id, o.successor))
       else if k == 8 then
         if claim.family in s.heads && s.heads[claim.family].value == claim.handle then
           m.effect.WriteHead? && m.effect == WriteHead(claim.family, o.successor, m.effect.until)
         else m.effect == Nothing
       else m.effect == Tell(claim.handle, o.reply)
  }

  lemma SettlingMove(cfg: Config, s: State, claim: Claim, o: Offer, at: nat, ch: Choice, k: nat)
    requires 7 <= k < 10 && ch.luck.Fine?
    requires k == 7 ==> Holds(s, claim.handle, claim.bytes)
    requires k == 8 ==> claim.family in s.heads ==> s.now < s.heads[claim.family].until
    requires k == 9 ==> claim.family !in s.markers
    ensures Settles(s, claim, o, at, k, Turn(cfg, s, CommitPc(claim, o, at, k), ch))
  {
    var pc := CommitPc(claim, o, at, k);
    assert Turn(cfg, s, pc, ch) == SettleTurn(s, pc, ch);
  }

  lemma SettledStep(s0: State, s: State, s': State, c: CallerId, m: Move, claim: Claim, o: Offer, at: nat, k: nat)
    requires Committing(s0, s, c, claim, o, at, k) && 7 <= k < 10 && o.reply.successor == o.successor
    requires Settles(s, claim, o, at, k, m) && Happened(s, s', c, m)
    ensures Committing(s0, s', c, claim, o, at, k + 1)
  {
  }

  /** What the holder relies on, and the expiry of the family, make each of these steps succeed. */
  lemma SettlesUntilExpiry(cfg: Config, s: State, c: CallerId, claim: Claim, o: Offer, at: nat, k: nat)
    requires Inv(cfg, s) && c in s.callers && s.callers[c].pc == CommitPc(claim, o, at, k) && 7 <= k < 9
    requires s.now < claim.expires
    ensures k == 7 && claim.handle in s.records ==> s.now < s.records[claim.handle].until
    ensures k == 8 && claim.family in s.heads ==> s.now < s.heads[claim.family].until
  {
    assert Relies(cfg, s, c, s.callers[c].pc);
    assert ClaimMade(s, c, claim) && RecordOk(s, claim.handle) && BirthOk(s, claim.handle);
    assert HeadOk(s, claim.family);
    if k == 8 && claim.family in s.heads { assert BirthOk(s, s.heads[claim.family].value); }
  }

  lemma SettlingStep(cfg: Config, s0: State, s: State, c: CallerId, ch: Choice, claim: Claim, o: Offer, at: nat, k: nat)
    requires Inv(cfg, s) && Committing(s0, s, c, claim, o, at, k) && 7 <= k < 10
    requires s.now < claim.expires && claim.family !in s.markers && o.reply.successor == o.successor
    requires ch.luck.Fine? && Allowed(cfg, s, Act(c, ch))
    ensures Committing(s0, Next(cfg, s, Act(c, ch)), c, claim, o, at, k + 1)
  {
    if k < 9 { SettlesUntilExpiry(cfg, s, c, claim, o, at, k); }
    SettlingMove(cfg, s, claim, o, at, ch, k);
    Acted(cfg, s, c, ch);
    SettledStep(s0, s, Next(cfg, s, Act(c, ch)), c, Turn(cfg, s, s.callers[c].pc, ch), claim, o, at, k);
  }

  lemma ClockStep(cfg: Config, s0: State, s: State, c: CallerId, ch: Choice, claim: Claim, o: Offer, at: nat)
    requires Committing(s0, s, c, claim, o, at, 1) && s.now < claim.expires
    requires ch.luck.Fine? && Allowed(cfg, s, Act(c, ch))
    ensures Committing(s0, Next(cfg, s, Act(c, ch)), c, claim, o, s.now, 2)
  {
    Acted(cfg, s, c, ch);
  }

  lemma CommitStep(cfg: Config, s0: State, s: State, c: CallerId, ch: Choice, claim: Claim, o: Offer, at: nat, k: nat)
    requires Inv(cfg, s) && Committing(s0, s, c, claim, o, at, k) && 1 <= k < 10
    requires s.now < claim.expires && claim.family !in s0.markers && o.reply.successor == o.successor
    requires ch.luck.Fine? && Allowed(cfg, s, Act(c, ch))
    ensures Committing(s0, Next(cfg, s, Act(c, ch)), c, claim, o, if k == 1 then s.now else at, k + 1)
  {
    if k == 1 { ClockStep(cfg, s0, s, c, ch, claim, o, at); }
    else if k < 7 { PreparingStep(cfg, s0, s, c, ch, claim, o, at, k); }
    else { SettlingStep(cfg, s0, s, c, ch, claim, o, at, k); }
  }

  lemma CommitGoesOn(cfg: Config, s0: State, s: State, c: CallerId, ev: Event, claim: Claim, o: Offer, at: nat, k: nat)
    returns (at': nat)
    requires Inv(cfg, s) && Committing(s0, s, c, claim, o, at, k) && 1 <= k && (ev.Act? ==> k < 10)
    requires s.now < claim.expires && claim.family !in s0.markers && o.reply.successor == o.successor
    requires Calm(c, ev) && Allowed(cfg, s, ev)
    ensures Committing(s0, Next(cfg, s, ev), c, claim, o, at', if ev.Act? then k + 1 else k)
  {
    at' := at;
    if ev.Act? {
      CommitStep(cfg, s0, s, c, ev.choice, claim, o, at, k);
      at' := if k == 1 then s.now else at;
    } else {
      TickOfCommit(cfg, s0, s, c, ev.elapsed, claim, o, at, k);
    }
  }

  lemma {:induction false} CommitRun(cfg: Config, s0: State, s: State, run: seq<Event>, c: CallerId, claim: Claim,
                                     o: Offer, at: nat, k: nat) returns (at': nat)
    requires Inv(cfg, s) && Committing(s0, s, c, claim, o, at, k) && 1 <= k
    requires claim.family !in s0.markers && o.reply.successor == o.successor
    requires Possible(cfg, s, run) && CalmRun(c, run) && k + Steps(c, run) == 10
    requires After(cfg, s, run).now < claim.expires
    ensures Committing(s0, After(cfg, s, run), c, claim, o, at', 10)
    decreases |run|
  {
    at' := at;
    if run != [] {
      TimePasses(cfg, s, run);
      var k' := if run[0].Act? then k + 1 else k;
      assert Calm(c, run[0]) && CalmRun(c, run[1..]);
      at' := CommitGoesOn(cfg, s0, s, c, run[0], claim, o, at, k);
      NextKeepsInv(cfg, s, run[0]);
      at' := CommitRun(cfg, s0, Next(cfg, s, run[0]), run[1..], c, claim, o, at', k');
    }
  }

  /** What the upstream's grant makes of a claim. */
  function OfferOf(claim: Claim, ch: Choice): Offer
    requires ch.answer.Granted?
  {
    Offer(ch.name, if ch.answer.rotated.Some? then ch.answer.rotated.value else claim.token,
          Reply(ch.name, ch.answer.content), ch.answer.rotated)
  }

  lemma GrantedMove(s: State, s': State, c: CallerId, claim: Claim, o: Offer)
    requires Happened(s, s', c, Move(Mint({o.successor}), CommitClock(claim, o))) && o.successor != claim.handle
    requires claim.handle in s.records && s.records[claim.handle].value == claim.bytes
    requires (claim.handle, claim.id) !in s.replies
    ensures Committing(s, s', c, claim, o, 0, 1)
  {
  }

  lemma AskMove(cfg: Config, s: State, claim: Claim, ch: Choice)
    requires ch.answer.Granted?
    ensures Turn(cfg, s, Ask(claim), ch) == Move(Mint({ch.name}), CommitClock(claim, OfferOf(claim, ch)))
  {
    assert Turn(cfg, s, Ask(claim), ch) == AskTurn(claim, ch);
  }

  lemma FreshForGrant(cfg: Config, s: State, c: CallerId, claim: Claim, ch: Choice)
    requires Inv(cfg, s) && Recording(s) && c in s.callers && s.callers[c].pc == Ask(claim)
    requires claim.handle in s.records && ch.answer.Granted? && Allowed(cfg, s, Act(c, ch))
    ensures ch.name !in s.names && ch.name != claim.handle && (claim.handle, claim.id) !in s.replies
  {
    AskMove(cfg, s, claim, ch);
    assert RecordOk(s, claim.handle) && BirthOk(s, claim.handle) && Unrecorded(s, c);
  }

  lemma GrantStep(cfg: Config, s: State, c: CallerId, claim: Claim, ch: Choice)
    requires Inv(cfg, s) && Recording(s) && c in s.callers && s.callers[c].pc == Ask(claim)
    requires claim.handle in s.records && s.records[claim.handle].value == claim.bytes
    requires ch.answer.Granted? && Allowed(cfg, s, Act(c, ch))
    ensures Committing(s, Next(cfg, s, Act(c, ch)), c, claim, OfferOf(claim, ch), 0, 1)
  {
    Acted(cfg, s, c, ch);
    AskMove(cfg, s, claim, ch);
    FreshForGrant(cfg, s, c, claim, ch);
    GrantedMove(s, Next(cfg, s, Act(c, ch)), c, claim, OfferOf(claim, ch));
  }

  /**
   From `s`, the holder of `claim` was granted a refresh, and in `end` it has been committed: the
   client was told the upstream's answer with the handle `n`; the record of `n` is active and holds
   the token the upstream returned, or the old one if it returned none; the presented handle is
   rotated to `n`, the response is recorded, the head pointer has moved along, and nothing else in
   the store has changed.
   */
  predicate GrantDelivered(s: State, end: State, c: CallerId, claim: Claim, content: nat, rotated: Option<Token>,
                           n: Handle) {
    var h, f, reply := claim.handle, claim.family, Reply(n, content);
    && c in end.callers && end.callers[c].pc == Done(Tokens(reply))
    && (h, reply) in end.returned && n in end.presentable
    && n in end.records && end.records[n].value.record ==
         Record(f, claim.expires, Active(if rotated.Some? then rotated.value else claim.token))
    && h in end.records && end.records[h].value.record.state.Rotated?
    && (var at := end.records[h].value.record.state.rotatedAt;
        && end.records[h].value.record == Record(f, claim.expires, Rotated(at, claim.id, n))
        && s.now <= at <= end.now)
    && (h, claim.id) in end.replies && end.replies[(h, claim.id)].value == reply
    && (if f in s.heads && s.heads[f].value == h then
          f in end.heads && end.heads[f].value == n && end.heads - {f} == s.heads - {f}
        else end.heads == s.heads)
    && end.records - {h, n} == s.records - {h, n} && end.markers == s.markers
    && end.replies - {(h, claim.id)} == s.replies - {(h, claim.id)}
  }

  lemma CommittedIsDelivered(s: State, end: State, c: CallerId, claim: Claim, o: Offer, at: nat)
    requires Committing(s, end, c, claim, o, at, 10) && o.reply.successor == o.successor
    requires o.token == if o.rotated.Some? then o.rotated.value else claim.token
    ensures GrantDelivered(s, end, c, claim, o.reply.content, o.rotated, o.successor)
  {
  }

  lemma GrantFrom(cfg: Config, s: State, c: CallerId, claim: Claim, ch: Choice, rest: seq<Event>)
    requires Inv(cfg, s) && Recording(s) && c in s.callers && s.callers[c].pc == Ask(claim)
    requires Holds(s, claim.handle, claim.bytes) && claim.family !in s.markers
    requires ch.answer.Granted? && Allowed(cfg, s, Act(c, ch))
    requires Possible(cfg, Next(cfg, s, Act(c, ch)), rest) && CalmRun(c, rest) && Steps(c, rest) == 9
    requires After(cfg, Next(cfg, s, Act(c, ch)), rest).now < claim.expires
    ensures GrantDelivered(s, After(cfg, Next(cfg, s, Act(c, ch)), rest), c, claim,
                           ch.answer.content, ch.answer.rotated, ch.name)
  {
    var s1 := Next(cfg, s, Act(c, ch));
    GrantStep(cfg, s, c, claim, ch);
    NextKeepsInv(cfg, s, Act(c, ch));
    var at := CommitRun(cfg, s, s1, rest, c, claim, OfferOf(claim, ch), 0, 1);
    CommittedIsDelivered(s, After(cfg, s1, rest), c, claim, OfferOf(claim, ch), at);
  }

  /**
   The upstream grants a refresh while the claim stands, and nobody disturbs the holder: ten steps
   later the refresh is committed and its client has been told.
   */
  lemma GrantIsCommitted(cfg: Config, before: seq<Event>, c: CallerId, ch: Choice, rest: seq<Event>)
    requires Possible(cfg, INITIAL, before)
    requires var s := After(cfg, INITIAL, before);
      && c in s.callers && s.callers[c].pc.Ask? && Allowed(cfg, s, Act(c, ch)) && ch.answer.Granted?
      && var claim := s.callers[c].pc.claim;
      && Holds(s, claim.handle, claim.bytes) && claim.family !in s.markers
      && Possible(cfg, Next(cfg, s, Act(c, ch)), rest) && CalmRun(c, rest) && Steps(c, rest) == 9
      && After(cfg, Next(cfg, s, Act(c, ch)), rest).now < claim.expires
    ensures var s := After(cfg, INITIAL, before);
      GrantDelivered(s, After(cfg, Next(cfg, s, Act(c, ch)), rest), c, s.callers[c].pc.claim,
                     ch.answer.content, ch.answer.rotated, ch.name)
  {
    ReachedInv(cfg, before);
    ReachedRecording(cfg, before);
    var s := After(cfg, INITIAL, before);
    GrantFrom(cfg, s, c, s.callers[c].pc.claim, ch, rest);
  }
}
