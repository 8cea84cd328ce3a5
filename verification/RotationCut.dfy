/**
 Erasure is not unconditional. A run without any crash or failure in which a caller that withholds
 its tokens deletes its successor's record although that successor has been rotated already: the
 chain is cut there, the revocation's walk ends at the gap, and the newest record keeps its token.

 Call 1 rotates handle 1 to 4 and stalls before its last check. Call 2 replays that response, call
 3 rotates 4 to 6, call 4 presents 1 after its grace period and marks the family; then call 1
 resumes, sees the marker and deletes record 4.
 */
module RotationCut {
  import opened Wrappers
  import opened RotationProtocol
  import opened RotationInvariant
  import opened RotationSafety
  import opened RotationErasure

  const CFG := Config(1_000, 100_000, 60_000, 30_000, 5_000)
  const FAMILY: Family := 2
  const TOKEN: Token := 9
  const EXPIRES := 100_000

  ghost predicate Reached(s: State) {
    exists run :: Possible(CFG, INITIAL, run) && After(CFG, INITIAL, run) == s
  }

  lemma Step(s: State, ev: Event) returns (s': State)
    requires Reached(s) && Allowed(CFG, s, ev)
    ensures Reached(s') && s' == Next(CFG, s, ev)
  {
    var run :| Possible(CFG, INITIAL, run) && After(CFG, INITIAL, run) == s;
    OneMore(CFG, INITIAL, run, ev);
    s' := Next(CFG, s, ev);
  }

  const GO := Choice(Fine, 0, 0, 0, 0, Unreachable, false)

  function Named(n: Name): Choice { GO.(name := n, nonce := n) }

  function Answered(n: Name): Choice { GO.(name := n, answer := Granted(0, None)) }

  function Sealing(nonce: nat): Choice { GO.(nonce := nonce) }

  /** `s` with caller `c` at `pc`. */
  function At(s: State, c: CallerId, pc: Pc): State
    requires c in s.callers
  {
    s.(callers := s.callers[c := s.callers[c].(pc := pc)])
  }

  lemma EarlyTurnIgnoresCallers(s: State, callers: map<CallerId, Caller>, pc: Pc, ch: Choice)
    requires Issuing(pc) || Refreshing(pc) || Claiming(pc)
    ensures Turn(CFG, s.(callers := callers), pc, ch) == Turn(CFG, s, pc, ch)
  {
    if Issuing(pc) {
    } else if Refreshing(pc) {
    } else {
    }
  }

  lemma CommitIgnoresCallers(s: State, callers: map<CallerId, Caller>, pc: Pc, ch: Choice)
    requires Preparing(pc) || Settling(pc)
    ensures Turn(CFG, s.(callers := callers), pc, ch) == Turn(CFG, s, pc, ch)
  {
    if Preparing(pc) {
    } else {
    }
  }

  lemma TurnIgnoresCallers(s: State, callers: map<CallerId, Caller>, pc: Pc, ch: Choice)
    ensures Turn(CFG, s.(callers := callers), pc, ch) == Turn(CFG, s, pc, ch)
  {
    if Issuing(pc) || Refreshing(pc) || Claiming(pc) {
      EarlyTurnIgnoresCallers(s, callers, pc, ch);
    } else if Preparing(pc) || Settling(pc) {
      CommitIgnoresCallers(s, callers, pc, ch);
    } else if Releasing(pc) {
    } else if Erasing(pc) {
    } else {
    }
  }

  lemma ApplyIgnoresCallers(s: State, callers: map<CallerId, Caller>, c: CallerId, e: Effect)
    ensures Apply(s.(callers := callers), c, e) == Apply(s, c, e).(callers := callers)
  {
  }

  /** One more step of `c`, from `p` to `m.next`, with effect `m.effect` on the rest of the state `s`. */
  lemma Do(s: State, c: CallerId, p: Pc, ch: Choice, m: Move)
    requires c in s.callers && Reached(At(s, c, p)) && ch.luck.Fine? && !p.Draft?
    requires p.ClaimClock? ==> s.callers[c].spent == NOTHING_SPENT
    requires Turn(CFG, s, p, ch) == m && (m.effect.Mint? ==> m.effect.names !! s.names.Keys)
    ensures Reached(At(Apply(s, c, m.effect), c, m.next))
  {
    var s0 := At(s, c, p);
    TurnIgnoresCallers(s, s0.callers, p, ch);
    ApplyIgnoresCallers(s, s0.callers, c, m.effect);
    var s' := Step(s0, Act(c, ch));
    assert s'.callers == s.callers[c := s.callers[c].(pc := m.next)];
  }

  /** A step with no effect on the store or the history. */
  lemma Go(s: State, c: CallerId, p: Pc, q: Pc)
    requires c in s.callers && Reached(At(s, c, p)) && !p.Draft? && !p.ClaimClock?
    requires Turn(CFG, s, p, GO) == Move(Nothing, q)
    ensures Reached(At(s, c, q))
  {
    Do(s, c, p, GO, Move(Nothing, q));
    NothingChanges(s, c);
  }

  lemma MintOne(s: State, c: CallerId, n: Name)
    ensures Apply(s, c, Mint({n})) == s.(names := s.names[n := c])
  {
    assert Apply(s, c, Mint({n})).names == s.names[n := c];
  }

  function Holding(nonce: nat, state: RecordState): Bytes { Sealed(nonce, Record(FAMILY, EXPIRES, state)) }

  /** The record of `h` as it was created. Every write of the run has a nonce of its own. */
  function Unclaimed(h: Handle): Bytes { Holding(h, Active(TOKEN)) }

  const FIRST := First(1, FAMILY, EXPIRES, EXPIRES, TOKEN)

  /** Handle 1 of family 2 has been issued. */
  function Start(): State {
    State(0, map[1 := Slot(Unclaimed(1), EXPIRES)], map[], map[FAMILY := Slot(1, EXPIRES)], map[],
          map[0 := Caller(Done(Issued(1)), None, {}, NOTHING_SPENT)],
          map[1 := Birth(FAMILY, EXPIRES, TOKEN, None, 0)], map[], map[FAMILY := 1], map[FAMILY := EXPIRES],
          map[1 := 0, 2 := 0], {1}, {}, false, {})
  }

  function Begun(): State {
    INITIAL.(callers := map[0 := Caller(Draft(TOKEN), None, {}, NOTHING_SPENT)])
  }

  lemma Begins()
    ensures Reached(Begun())
  {
    assert Possible(CFG, INITIAL, []) && After(CFG, INITIAL, []) == INITIAL;
    var s0 := Step(INITIAL, IssueFor(0, TOKEN));
    assert INITIAL.markers.Keys == {};
    assert s0 == Begun();
  }

  lemma Minted()
    ensures Reached(At(Begun().(names := map[1 := 0, 2 := 0]), 0, SealFirst(FIRST)))
  {
    Begins();
    var s0 := Begun();
    var ch := GO.(name := 1, family := 2);
    assert Turn(CFG, s0, Draft(TOKEN), ch) == Move(Mint({1, 2}), SealFirst(FIRST));
    var s := Step(s0, Act(0, ch));
    assert s.names == map[1 := 0, 2 := 0];
  }

  function Written(): State {
    Start().(presentable := {}, heads := map[], callers := Begun().callers)
  }

  lemma Issue()
    ensures Reached(Start())
  {
    Minted();
    var s := Begun().(names := map[1 := 0, 2 := 0]);
    Go(s, 0, SealFirst(FIRST), PutFirst(FIRST));
    var create := Create(1, Unclaimed(1), EXPIRES, FirstBirth(FIRST));
    Do(s, 0, PutFirst(FIRST), Sealing(1), Move(create, PutFirstHead(FIRST)));
    assert Apply(s, 0, create) == Written();
    Headed();
    Shown();
  }

  lemma Headed()
    requires Reached(At(Written(), 0, PutFirstHead(FIRST)))
    ensures Reached(At(Written().(heads := Start().heads), 0, HandOver(1)))
  {
    var head := WriteHead(FAMILY, 1, EXPIRES);
    Do(Written(), 0, PutFirstHead(FIRST), GO, Move(head, HandOver(1)));
    assert Apply(Written(), 0, head).heads == Start().heads;
  }

  lemma Shown()
    requires Reached(At(Written().(heads := Start().heads), 0, HandOver(1)))
    ensures Reached(Start())
  {
    var s := Written().(heads := Start().heads);
    Do(s, 0, HandOver(1), GO, Move(Disclose(1), Done(Issued(1))));
    assert Apply(s, 0, Disclose(1)).presentable == Start().presentable;
    assert At(Apply(s, 0, Disclose(1)), 0, Done(Issued(1))).callers == Start().callers;
  }

  // ---- a call that rotates `h` to `succ`, up to its final swap ----

  function Taken(s: State, h: Handle, id: ClaimId): Claim {
    Claim(h, Holding(id, Claimed(TOKEN, id, s.now)), id, TOKEN, FAMILY, EXPIRES, s.now)
  }

  function Offered(succ: Handle): Offer { Offer(succ, TOKEN, Reply(succ, 0), None) }

  /** `h` is live and active, the family unmarked. */
  predicate Ready(s: State, h: Handle) {
    && s.now < EXPIRES && FAMILY !in s.markers && h in s.presentable && h in s.names && h in s.births
    && h in s.records && s.records[h] == Slot(Unclaimed(h), EXPIRES)
  }

  function Called(s: State, c: CallerId, h: Handle): State {
    s.(callers := s.callers[c := Caller(Load(h), Some(h), s.markers.Keys, NOTHING_SPENT)])
  }

  /** A known handle is presented and its record, read as `seen`, passes both checks. */
  lemma PassesChecks(s: State, c: CallerId, h: Handle, seen: Bytes)
    requires Reached(s) && c !in s.callers && FAMILY !in s.markers && s.now < EXPIRES
    requires h in s.presentable && h in s.names && h in s.records && s.records[h] == Slot(seen, EXPIRES)
    requires seen.record.family == FAMILY && seen.record.expires == EXPIRES
    ensures Reached(At(Called(s, c, h), c, Dispatch(CFG, h, seen, s.now)))
  {
    var s0 := Step(s, Present(c, h));
    assert s.presentable + {h} == s.presentable;
    var b := Called(s, c, h);
    assert At(b, c, Load(h)) == b == s0;
    Go(b, c, Load(h), CheckTime(h, seen));
    Go(b, c, CheckTime(h, seen), CheckRevoked(h, seen, s.now));
    Go(b, c, CheckRevoked(h, seen, s.now), Dispatch(CFG, h, seen, s.now));
  }

  function Asking(s: State, c: CallerId, h: Handle, id: ClaimId): State {
    s.(names := s.names[id := c], records := s.records[h := Slot(Taken(s, h, id).bytes, EXPIRES)])
  }

  lemma TakesClaim(s: State, c: CallerId, h: Handle, id: ClaimId)
    requires c in s.callers && s.callers[c].spent == NOTHING_SPENT && Ready(s, h) && id !in s.names
    requires Reached(At(s, c, ClaimClock(h, Unclaimed(h))))
    ensures Reached(At(Asking(s, c, h, id), c, Ask(Taken(s, h, id))))
  {
    var seen := Unclaimed(h);
    var claim := Taken(s, h, id);
    var ttl := EXPIRES - s.now;
    Do(s, c, ClaimClock(h, seen), Named(id), Move(Mint({id}), SealClaim(claim, seen, ttl)));
    MintOne(s, c, id);
    WinsClaim(s.(names := s.names[id := c]), c, claim, seen);
  }

  lemma WinsClaim(s: State, c: CallerId, claim: Claim, seen: Bytes)
    requires c in s.callers && s.now < EXPIRES && Live(s.records, claim.handle, s.now) &&
      s.records[claim.handle].value == seen
    requires Reached(At(s, c, SealClaim(claim, seen, EXPIRES - s.now)))
    ensures Reached(At(s.(records := s.records[claim.handle := Slot(claim.bytes, EXPIRES)]), c, Ask(claim)))
  {
    var ttl := EXPIRES - s.now;
    Go(s, c, SealClaim(claim, seen, ttl), SwapClaim(claim, seen, ttl));
    Do(s, c, SwapClaim(claim, seen, ttl), GO, Move(Overwrite(claim.handle, claim.bytes, EXPIRES), Ask(claim)));
  }

  function Minting(s: State, c: CallerId, succ: Handle): State { s.(names := s.names[succ := c]) }

  function Replied(s: State, claim: Claim, succ: Handle): State {
    s.(replies := s.replies[(claim.handle, claim.id) := Slot(Reply(succ, 0), ReplyUntil(s))])
  }

  function Succeeded(s: State, claim: Claim, succ: Handle): State {
    s.(records := s.records[succ := Slot(Unclaimed(succ), EXPIRES)],
       births := s.births[succ := SuccessorBirth(s, claim, Offered(succ))])
  }

  function Prepared(s: State, c: CallerId, claim: Claim, succ: Handle): State {
    Succeeded(Replied(Minting(s, c, succ), claim, succ), claim, succ)
  }

  /** What a caller that goes on to write a response and a successor for `claim` has. */
  predicate Granting(s: State, c: CallerId, claim: Claim) {
    && c in s.callers && s.callers[c].spent == NOTHING_SPENT && s.now < EXPIRES
    && claim.family == FAMILY && claim.expires == EXPIRES && claim.token == TOKEN
  }

  lemma IsGranted(s: State, c: CallerId, claim: Claim, succ: Handle)
    requires Granting(s, c, claim) && succ !in s.names && Reached(At(s, c, Ask(claim)))
    ensures Reached(At(Minting(s, c, succ), c, CommitClock(claim, Offered(succ))))
  {
    Do(s, c, Ask(claim), Answered(succ), Move(Mint({succ}), CommitClock(claim, Offered(succ))));
    MintOne(s, c, succ);
  }

  function ReplyUntil(s: State): nat {
    s.now + Min(CFG.grace + GRACE_RESPONSE_MARGIN, Elapsed(EXPIRES, s.now))
  }

  lemma WritesReply(s: State, c: CallerId, claim: Claim, succ: Handle)
    requires Granting(s, c, claim) && (claim.handle, claim.id) !in s.replies
    requires Reached(At(s, c, CommitClock(claim, Offered(succ))))
    ensures Reached(At(Replied(s, claim, succ), c, SealSuccessor(claim, Offered(succ), s.now)))
  {
    var offer := Offered(succ);
    Go(s, c, CommitClock(claim, offer), SealReply(claim, offer, s.now));
    Go(s, c, SealReply(claim, offer, s.now), PutReply(claim, offer, s.now));
    var write := WriteReply(claim.handle, claim.id, Reply(succ, 0), ReplyUntil(s));
    Do(s, c, PutReply(claim, offer, s.now), GO, Move(write, SealSuccessor(claim, offer, s.now)));
  }

  lemma WritesSuccessor(s: State, c: CallerId, claim: Claim, succ: Handle)
    requires Granting(s, c, claim) && succ !in s.records
    requires Reached(At(s, c, SealSuccessor(claim, Offered(succ), s.now)))
    ensures Reached(At(Succeeded(s, claim, succ), c, SwapTombstone(claim, Offered(succ), s.now)))
  {
    var offer := Offered(succ);
    Go(s, c, SealSuccessor(claim, offer, s.now), PutSuccessor(claim, offer, s.now));
    PutsSuccessor(s, c, claim, succ);
    Go(Succeeded(s, claim, succ), c, SealTombstone(claim, offer, s.now), SwapTombstone(claim, offer, s.now));
  }

  lemma PutsSuccessor(s: State, c: CallerId, claim: Claim, succ: Handle)
    requires Granting(s, c, claim) && succ !in s.records
    requires Reached(At(s, c, PutSuccessor(claim, Offered(succ), s.now)))
    ensures Reached(At(Succeeded(s, claim, succ), c, SealTombstone(claim, Offered(succ), s.now)))
  {
    var offer := Offered(succ);
    var create := Create(succ, Unclaimed(succ), EXPIRES, SuccessorBirth(s, claim, offer));
    Do(s, c, PutSuccessor(claim, offer, s.now), Sealing(succ), Move(create, SealTombstone(claim, offer, s.now)));
  }

  lemma Prepares(s: State, c: CallerId, claim: Claim, succ: Handle)
    requires Granting(s, c, claim) && succ !in s.names && succ !in s.records
    requires (claim.handle, claim.id) !in s.replies && Reached(At(s, c, Ask(claim)))
    ensures Reached(At(Prepared(s, c, claim, succ), c, SwapTombstone(claim, Offered(succ), s.now)))
  {
    IsGranted(s, c, claim, succ);
    var s1 := Minting(s, c, succ);
    WritesReply(s1, c, claim, succ);
    WritesSuccessor(Replied(s1, claim, succ), c, claim, succ);
  }

  function Tombstone(at: nat, id: ClaimId, succ: Handle): Bytes { Holding(100 + succ, Rotated(at, id, succ)) }

  function Swapped(s: State, claim: Claim, succ: Handle): State {
    s.(records := s.records[claim.handle := Slot(Tombstone(s.now, claim.id, succ), EXPIRES)],
       rotations := s.rotations[claim.handle := NewRotation(s, claim, Offered(succ), s.now)],
       tips := s.tips[FAMILY := succ])
  }

  lemma Swaps(s: State, c: CallerId, claim: Claim, succ: Handle)
    requires c in s.callers && s.now < EXPIRES
    requires claim.family == FAMILY && claim.expires == EXPIRES
    requires claim.handle in s.records && s.records[claim.handle] == Slot(claim.bytes, EXPIRES)
    requires Reached(At(s, c, SwapTombstone(claim, Offered(succ), s.now)))
    ensures Reached(At(Swapped(s, claim, succ), c, MoveHead(claim, Offered(succ), s.now)))
  {
    var offer := Offered(succ);
    var rotate := Rotate(claim.handle, Tombstone(s.now, claim.id, succ), EXPIRES, NewRotation(s, claim, offer, s.now));
    Do(s, c, SwapTombstone(claim, offer, s.now), Sealing(100 + succ), Move(rotate, MoveHead(claim, offer, s.now)));
    assert Apply(s, c, rotate) == Swapped(s, claim, succ);
  }

  function RotatedBy(s: State, c: CallerId, h: Handle, id: ClaimId, succ: Handle): State {
    var claim := Taken(s, h, id);
    var swapped := Swapped(Prepared(Asking(Called(s, c, h), c, h, id), c, claim, succ), claim, succ);
    At(swapped, c, MoveHead(claim, Offered(succ), s.now))
  }

  /** An undisturbed call rotates `h` to `succ` and has yet to move the head pointer. */
  lemma RotatesTo(s: State, c: CallerId, h: Handle, id: ClaimId, succ: Handle)
    requires Reached(s) && Ready(s, h) && c !in s.callers
    requires id !in s.names && succ !in s.names && id != succ && succ !in s.records && succ != h &&
      (h, id) !in s.replies
    ensures Reached(RotatedBy(s, c, h, id, succ))
  {
    var claim := Taken(s, h, id);
    PassesChecks(s, c, h, Unclaimed(h));
    var s1 := Called(s, c, h);
    TakesClaim(s1, c, h, id);
    var s2 := Asking(s1, c, h, id);
    Prepares(s2, c, claim, succ);
    Swaps(Prepared(s2, c, claim, succ), c, claim, succ);
  }

  // ---- the run ----

  const CLAIM_1 := Claim(1, Holding(3, Claimed(TOKEN, 3, 0)), 3, TOKEN, FAMILY, EXPIRES, 0)
  const REVOKING := Revoking(FAMILY, EXPIRES, 1, Denied)

  predicate Stalled(s: State) {
    && 1 in s.callers && s.callers[1].pc == MoveHead(CLAIM_1, Offered(4), 0)
    && s.heads == map[FAMILY := Slot(1, EXPIRES)] && !s.faulty
    && 1 in s.records && s.records[1] == Slot(Tombstone(0, 3, 4), EXPIRES)
  }

  predicate Others(s: State, n: nat) {
    forall c :: c in s.callers ==> c < n && (c == 1 || c == 4 || s.callers[c].pc.Done?)
  }

  predicate AfterCall1(s: State) {
    && Stalled(s) && Others(s, 2) && s.now == 0 && s.markers == map[] && s.presentable == {1} &&
       s.names.Keys == {1, 2, 3, 4}
    && s.records.Keys == {1, 4} && s.records[4] == Slot(Unclaimed(4), EXPIRES)
    && s.replies == map[(1, 3) := Slot(Reply(4, 0), 11_000)]
    && s.births.Keys == {1, 4} && s.births[4].index == 1 && s.tips == map[FAMILY := 4]
  }

  /** Call 1 rotates handle 1 to 4 and stalls before it moves the head pointer. */
  lemma Call1() returns (s: State)
    ensures Reached(s) && AfterCall1(s)
  {
    Issue();
    RotatesTo(Start(), 1, 1, 3, 4);
    s := RotatedBy(Start(), 1, 1, 3, 4);
    Keys1(s);
  }

  lemma Keys1(s: State)
    requires s == RotatedBy(Start(), 1, 1, 3, 4)
    ensures AfterCall1(s)
  {
    assert s.names.Keys == {1, 2, 3, 4} && s.records.Keys == {1, 4} && s.births.Keys == {1, 4};
    assert s.callers.Keys == {0, 1};
  }

  predicate AfterCall2(s: State) {
    && Stalled(s) && Others(s, 3) && s.now == 0 && s.markers == map[] && s.presentable == {1, 4} &&
       s.names.Keys == {1, 2, 3, 4}
    && s.records.Keys == {1, 4} && s.records[4] == Slot(Unclaimed(4), EXPIRES)
    && s.replies == map[(1, 3) := Slot(Reply(4, 0), 11_000)]
    && s.births.Keys == {1, 4} && s.births[4].index == 1 && s.tips == map[FAMILY := 4]
  }

  /** Call 2 presents 1 again within the grace period and learns of 4. */
  lemma Call2() returns (s: State)
    ensures Reached(s) && AfterCall2(s)
  {
    var s1 := Call1();
    PassesChecks(s1, 2, 1, Tombstone(0, 3, 4));
    var tell := Tell(1, Reply(4, 0));
    var b := Called(s1, 2, 1);
    Do(b, 2, FetchReply(1, 3), GO, Move(tell, Done(Tokens(Reply(4, 0)))));
    s := At(Apply(b, 2, tell), 2, Done(Tokens(Reply(4, 0))));
  }

  predicate AfterCall3(s: State) {
    && Stalled(s) && Others(s, 4) && s.now == 0 && s.markers == map[] && 1 in s.presentable && 1 in s.names
    && 4 in s.records && 6 in s.records && s.records[6].value == Unclaimed(6)
    && s.tips == map[FAMILY := 6] && 6 in s.births && s.births[6].index == 2
  }

  /** Call 3 rotates 4 to 6. */
  lemma Call3() returns (s: State)
    ensures Reached(s) && AfterCall3(s)
  {
    var s2 := Call2();
    RotatesTo(s2, 3, 4, 5, 6);
    s := Ends3(s2);
  }

  /** Call 3 before it moves the head pointer, which does not name handle 4. */
  function Before3(s2: State): State {
    var claim := Taken(s2, 4, 5);
    Swapped(Prepared(Asking(Called(s2, 3, 4), 3, 4, 5), 3, claim, 6), claim, 6)
  }

  function Told(s: State, h: Handle, reply: Reply): State { Apply(s, 0, Tell(h, reply)) }

  lemma Tells(s: State, c: CallerId, claim: Claim, succ: Handle)
    requires c in s.callers && FAMILY !in s.markers && claim.family == FAMILY
    requires Live(s.heads, FAMILY, s.now) ==> s.heads[FAMILY].value != claim.handle
    requires Reached(At(s, c, MoveHead(claim, Offered(succ), 0)))
    ensures Reached(At(Told(s, claim.handle, Reply(succ, 0)), c, Done(Tokens(Reply(succ, 0)))))
  {
    var offer := Offered(succ);
    Go(s, c, MoveHead(claim, offer, 0), PostCheck(claim, offer));
    Do(s, c, PostCheck(claim, offer), GO, Move(Tell(claim.handle, offer.reply), Done(Tokens(offer.reply))));
  }

  lemma Ends3(s2: State) returns (s: State)
    requires AfterCall2(s2) && Reached(RotatedBy(s2, 3, 4, 5, 6))
    ensures Reached(s) && AfterCall3(s)
  {
    Tells(Before3(s2), 3, Taken(s2, 4, 5), 6);
    s := At(Told(Before3(s2), 4, Reply(6, 0)), 3, Done(Tokens(Reply(6, 0))));
    assert s.tips == map[FAMILY := 6];
  }

  predicate AfterMark(s: State) {
    && Stalled(s) && 4 in s.callers && s.callers[4].pc == ReadHead(REVOKING) && Others(s, 5)
    && s.now == 2_000 && FAMILY in s.markers && s.markers[FAMILY].until == EXPIRES
    && 4 in s.records && 6 in s.records && s.records[6].value == Unclaimed(6)
    && s.tips == map[FAMILY := 6] && 6 in s.births && s.births[6].index == 2
  }

  predicate AfterPause(s: State) {
    && Stalled(s) && Others(s, 4) && s.now == 2_000 && s.markers == map[] && 1 in s.presentable && 1 in s.names
    && 4 in s.records && 6 in s.records && s.records[6].value == Unclaimed(6)
    && s.tips == map[FAMILY := 6] && 6 in s.births && s.births[6].index == 2
  }

  lemma Pauses() returns (s: State)
    ensures Reached(s) && AfterPause(s)
  {
    var s3 := Call3();
    s := Step(s3, Tick(2_000));
  }

  /** Two seconds later call 4 presents 1, which is reuse, and marks the family revoked. */
  lemma Call4() returns (s: State)
    ensures Reached(s) && AfterMark(s)
  {
    var s4 := Pauses();
    PassesChecks(s4, 4, 1, Tombstone(0, 3, 4));
    var b := Called(s4, 4, 1);
    assert Dispatch(CFG, 1, Tombstone(0, 3, 4), 2_000) == RevokeClock(REVOKING);
    s := Marks(b);
  }

  lemma Marks(b: State) returns (s: State)
    requires 4 in b.callers && b.now == 2_000 && b.markers == map[] && Reached(At(b, 4, RevokeClock(REVOKING)))
    ensures Reached(s) && s == At(b.(markers := map[FAMILY := Slot(4, EXPIRES)]), 4, ReadHead(REVOKING))
  {
    Go(b, 4, RevokeClock(REVOKING), PutMarker(REVOKING, 98_000));
    s := Marked(b);
  }

  lemma Marked(b: State) returns (s: State)
    requires 4 in b.callers && b.now == 2_000 && b.markers == map[]
    requires Reached(At(b, 4, PutMarker(REVOKING, 98_000)))
    ensures Reached(s) && s == At(b.(markers := map[FAMILY := Slot(4, EXPIRES)]), 4, ReadHead(REVOKING))
  {
    var mark := Mark(FAMILY, EXPIRES);
    Do(b, 4, PutMarker(REVOKING, 98_000), GO, Move(mark, ReadHead(REVOKING)));
    assert Apply(b, 4, mark).markers == map[FAMILY := Slot(4, EXPIRES)];
    s := At(Apply(b, 4, mark), 4, ReadHead(REVOKING));
  }

  predicate AfterCut(s: State) {
    && 1 in s.records && s.records[1] == Slot(Tombstone(0, 3, 4), EXPIRES) && 4 !in s.records
    && 4 in s.callers && s.callers[4].pc == ReadHead(REVOKING)
    && (forall c :: c in s.callers && c != 4 ==> s.callers[c].pc.Done?)
    && s.now == 2_000 && FAMILY in s.markers && !s.faulty && FAMILY in s.heads && s.heads[FAMILY] == Slot(4, 102_000)
    && 6 in s.records && s.records[6].value == Unclaimed(6)
    && s.tips == map[FAMILY := 6] && 6 in s.births && s.births[6].index == 2
  }

  /** Call 1 resumes, sees the marker and deletes record 4, a tombstone by now. */
  lemma Call1Withholds() returns (s: State)
    ensures Reached(s) && AfterCut(s)
  {
    var s0 := Call4();
    var offer := Offered(4);
    assert At(s0, 1, MoveHead(CLAIM_1, offer, 0)) == s0;
    MovesHead(s0);
    var s1 := s0.(heads := map[FAMILY := Slot(4, 102_000)]);
    FindsMarker(s1);
    s := Drops(s1);
  }

  /** Call 1 moves the head pointer to 4. */
  lemma MovesHead(s: State)
    requires 1 in s.callers && s.heads == map[FAMILY := Slot(1, EXPIRES)] && s.now == 2_000
    requires Reached(At(s, 1, MoveHead(CLAIM_1, Offered(4), 0)))
    ensures Reached(At(s.(heads := map[FAMILY := Slot(4, 102_000)]), 1, PostCheck(CLAIM_1, Offered(4))))
  {
    var head := WriteHead(FAMILY, 4, 102_000);
    Do(s, 1, MoveHead(CLAIM_1, Offered(4), 0), GO, Move(head, PostCheck(CLAIM_1, Offered(4))));
    assert Apply(s, 1, head).heads == map[FAMILY := Slot(4, 102_000)];
  }

  lemma FindsMarker(s: State)
    requires 1 in s.callers && s.now == 2_000 && Live(s.markers, FAMILY, s.now)
    requires Reached(At(s, 1, PostCheck(CLAIM_1, Offered(4))))
    ensures Reached(At(s, 1, DropReply(CLAIM_1, Offered(4), Withheld)))
  {
    Go(s, 1, PostCheck(CLAIM_1, Offered(4)), DropReply(CLAIM_1, Offered(4), Withheld));
  }

  lemma DropsBoth(s: State, c: CallerId, claim: Claim, succ: Handle)
    requires c in s.callers && Reached(At(s, c, DropReply(claim, Offered(succ), Withheld)))
    ensures Reached(At(Dropped(s, c, claim, succ), c, Done(Denied)))
  {
    var offer := Offered(succ);
    var drop := RemoveReply(claim.handle, claim.id);
    Do(s, c, DropReply(claim, offer, Withheld), GO, Move(drop, DropSuccessor(claim, offer, Withheld)));
    Do(Apply(s, c, drop), c, DropSuccessor(claim, offer, Withheld), GO, Move(Remove(succ), Done(Denied)));
  }

  function Dropped(s: State, c: CallerId, claim: Claim, succ: Handle): State {
    Apply(Apply(s, c, RemoveReply(claim.handle, claim.id)), c, Remove(succ))
  }

  lemma Drops(s1: State) returns (s: State)
    requires 1 in s1.callers && Reached(At(s1, 1, DropReply(CLAIM_1, Offered(4), Withheld)))
    requires AfterMark(s1.(heads := map[FAMILY := Slot(1, EXPIRES)])) && s1.heads == map[FAMILY := Slot(4, 102_000)]
    ensures Reached(s) && AfterCut(s)
  {
    DropsBoth(s1, 1, CLAIM_1, 4);
    s := At(Dropped(s1, 1, CLAIM_1, 4), 1, Done(Denied));
  }

  /** The walk from the head pointer finds nothing at 4, and the one from 1 only the tombstone of 1. */
  lemma Walks(s: State, c: CallerId)
    requires c in s.callers && Reached(At(s, c, ReadHead(REVOKING)))
    requires Live(s.heads, FAMILY, s.now) && s.heads[FAMILY].value == 4 && 4 !in s.records
    requires Live(s.records, 1, s.now) && s.records[1].value == Tombstone(0, 3, 4)
    ensures Reached(At(s, c, Done(Denied)))
  {
    Go(s, c, ReadHead(REVOKING), EraseLoad(REVOKING, 4, 0, true));
    Go(s, c, EraseLoad(REVOKING, 4, 0, true), EraseLoad(REVOKING, 1, 0, false));
    WalksOn(s, c);
  }

  lemma WalksOn(s: State, c: CallerId)
    requires c in s.callers && Reached(At(s, c, EraseLoad(REVOKING, 1, 0, false))) && 4 !in s.records
    requires Live(s.records, 1, s.now) && s.records[1].value == Tombstone(0, 3, 4)
    ensures Reached(At(s, c, Done(Denied)))
  {
    Go(s, c, EraseLoad(REVOKING, 1, 0, false), EraseLoad(REVOKING, 4, 1, false));
    Go(s, c, EraseLoad(REVOKING, 4, 1, false), Done(Denied));
  }

  lemma WalkEnds() returns (s: State)
    ensures Reached(s) && s.tips == map[FAMILY := 6] && 6 in s.births && s.births[6].index == 2
    ensures 6 in s.records && s.records[6].value == Unclaimed(6) && s.now == 2_000 &&
      FAMILY in s.markers && !s.faulty
    ensures forall c :: c in s.callers ==> s.callers[c].pc.Done?
  {
    var s0 := Call1Withholds();
    assert At(s0, 4, ReadHead(REVOKING)) == s0;
    Walks(s0, 4);
    s := At(s0, 4, Done(Denied));
  }

  /**
   A run without crash or failure ends with the family revoked and unexpired, every call on it
   ended, its chain three records long, and the newest of them still holding the upstream token.
   */
  lemma ErasureCanFail() returns (run: seq<Event>)
    ensures Possible(CFG, INITIAL, run)
    ensures var s := After(CFG, INITIAL, run);
      && !s.faulty && FAMILY in s.markers && FAMILY in s.families && s.now < s.families[FAMILY] && Quiet(s, FAMILY)
      && FAMILY in s.tips && s.tips[FAMILY] in s.births && s.births[s.tips[FAMILY]].index < MAX_ERASE_HOPS
      && s.tips[FAMILY] in s.records && s.records[s.tips[FAMILY]].value.record.family == FAMILY
      && HoldsToken(s.records[s.tips[FAMILY]].value)
  {
    var s := WalkEnds();
    run :| Possible(CFG, INITIAL, run) && After(CFG, INITIAL, run) == s;
    ReachedInv(CFG, run);
    assert RecordOk(s, 6) && BirthOk(s, 6) && TipOk(s, FAMILY);
  }
}
