/**
 What calls of the rotation protocol achieve: a caller whose own steps do not fail, and which nobody
 disturbs, gets through, in a number of steps that is known. Time may pass between any two of them.
 */
module RotationProgress {
  import opened Wrappers
  import opened RotationProtocol
  import opened RotationInvariant
  import opened RotationSafety

  /** The steps of its own that `c` takes in a run. */
  function Steps(c: CallerId, run: seq<Event>): nat {
    if run == [] then 0
    else (if run[0].Act? && run[0].caller == c then 1 else 0) + Steps(c, run[1..])
  }

  predicate Calm(c: CallerId, ev: Event) {
    ev.Tick? || (ev.Act? && ev.caller == c && ev.choice.luck.Fine?)
  }

  /** Only `c` acts, without a failure, and time passes. */
  predicate CalmRun(c: CallerId, run: seq<Event>) {
    forall i :: 0 <= i < |run| ==> Calm(c, run[i])
  }

  /** No step of `c` fails in this event; others may fail and crash. */
  predicate Sound(c: CallerId, ev: Event) {
    (ev.Act? && ev.caller == c ==> ev.choice.luck.Fine?) && ev != Crash(c)
  }

  /** No step of `c` fails, whatever happens to others. */
  predicate SoundRun(c: CallerId, run: seq<Event>) {
    forall i :: 0 <= i < |run| ==> Sound(c, run[i])
  }

  lemma StepTakesTime(cfg: Config, s: State, ev: Event)
    requires Allowed(cfg, s, ev)
    ensures s.now <= Next(cfg, s, ev).now
  {
    if ev.Act? { assert AfterAct(cfg, s, ev.caller, ev.choice).now == s.now; }
  }

  lemma {:induction false} TimePasses(cfg: Config, s: State, run: seq<Event>)
    requires Possible(cfg, s, run)
    ensures s.now <= After(cfg, s, run).now
    decreases |run|
  {
    if run != [] {
      StepTakesTime(cfg, s, run[0]);
      TimePasses(cfg, Next(cfg, s, run[0]), run[1..]);
    }
  }

  /** The step `m` of `c` has led from `s` to `s'`. */
  predicate Happened(s: State, s': State, c: CallerId, m: Move) {
    && c in s'.callers && s'.callers[c].pc == m.next && s'.now == s.now
    && s'.records == RecordsAfter(s, m.effect) && s'.replies == RepliesAfter(s, m.effect)
    && s'.heads == (if m.effect.WriteHead? then s.heads[m.effect.family := Slot(m.effect.handle, m.effect.until)]
                    else s.heads)
    && (m.effect.Mark? || s'.markers == s.markers)
    && s'.presentable == PresentableAfter(s, m.effect)
    && s'.returned == (if m.effect.Tell? then s.returned + {(m.effect.handle, m.effect.reply)} else s.returned)
  }

  lemma Acted(cfg: Config, s: State, c: CallerId, ch: Choice)
    requires Allowed(cfg, s, Act(c, ch))
    ensures Happened(s, Next(cfg, s, Act(c, ch)), c, Turn(cfg, s, s.callers[c].pc, ch))
  {
  }

  predicate Holding(s: State, h: Handle, r: Record) { h in s.records && s.records[h].value.record == r }

  // ---- no caller is ever stuck ----

  lemma {:induction false} UnusedName(names: set<Name>) returns (n: Name)
    ensures forall m :: m in names ==> m < n
    decreases names
  {
    n := 0;
    if names != {} {
      var m :| m in names;
      n := UnusedName(names - {m});
      assert forall k :: k in names ==> k == m || k in names - {m};
      n := if n <= m then m + 1 else n;
    }
  }

  /** Some step without a failure is always open to a caller, whatever the upstream answers. */
  lemma CanStep(cfg: Config, s: State, c: CallerId, answer: Answer) returns (ch: Choice)
    requires c in s.callers
    ensures ch.luck.Fine? && ch.answer == answer && Allowed(cfg, s, Act(c, ch))
  {
    var n := UnusedName(s.names.Keys);
    ch := Choice(Fine, n, n + 1, n, 0, answer, true);
    assert n !in s.names && n + 1 !in s.names;
    var e := Turn(cfg, s, s.callers[c].pc, ch).effect;
    MintsOwnNames(cfg, s, s.callers[c].pc, ch);
  }

  lemma MintsOwnNames(cfg: Config, s: State, pc: Pc, ch: Choice)
    ensures var e := Turn(cfg, s, pc, ch).effect; e.Mint? ==> e.names <= {ch.name, ch.family}
  {
    if Issuing(pc) || Refreshing(pc) || Claiming(pc) {
      EarlyMintsOwnNames(cfg, s, pc, ch);
    } else if Preparing(pc) || Settling(pc) {
      CommitMintsNothing(cfg, s, pc, ch);
    } else if Releasing(pc) {
    } else if Erasing(pc) {
    } else {
    }
  }

  lemma EarlyMintsOwnNames(cfg: Config, s: State, pc: Pc, ch: Choice)
    requires Issuing(pc) || Refreshing(pc) || Claiming(pc)
    ensures var e := Turn(cfg, s, pc, ch).effect; e.Mint? ==> e.names <= {ch.name, ch.family}
  {
  }

  lemma CommitMintsNothing(cfg: Config, s: State, pc: Pc, ch: Choice)
    requires Preparing(pc) || Settling(pc)
    ensures !Turn(cfg, s, pc, ch).effect.Mint?
  {
  }

  /** So from any state a caller has an undisturbed run of any number of steps. */
  lemma {:induction false} CanGoOn(cfg: Config, s: State, c: CallerId, answer: Answer, k: nat) returns (run: seq<Event>)
    requires c in s.callers
    ensures Possible(cfg, s, run) && CalmRun(c, run) && Steps(c, run) == k && After(cfg, s, run).now == s.now
    ensures forall i :: 0 <= i < |run| ==> run[i].Act? && run[i].choice.answer == answer
    decreases k
  {
    run := [];
    if k > 0 {
      var ch := CanStep(cfg, s, c, answer);
      var rest := CanGoOn(cfg, Next(cfg, s, Act(c, ch)), c, answer, k - 1);
      run := [Act(c, ch)] + rest;
      assert run[1..] == rest;
    }
  }

  // ---- a handle that nobody holds is claimed ----

  /** Nothing in the store has changed, and time has not gone back. */
  predicate Still(s0: State, s: State) {
    && s.records == s0.records && s.replies == s0.replies && s.heads == s0.heads && s.markers == s0.markers
    && s0.now <= s.now
  }

  /** `s` differs from `s0` in the record of `h` at most. */
  predicate OnlyRecord(s0: State, s: State, h: Handle) {
    && s.records - {h} == s0.records - {h} && s.replies == s0.replies && s.heads == s0.heads
    && s.markers == s0.markers && s0.now <= s.now
  }

  /** A claim on what `h` holds, made since `s0`. */
  predicate ClaimOf(s0: State, s: State, h: Handle, r: Record, claim: Claim)
    requires !r.state.Rotated?
  {
    && claim.handle == h && claim.token == r.state.token && claim.family == r.family && claim.expires == r.expires
    && s0.now <= claim.since <= s.now
    && claim.bytes.record == Record(r.family, r.expires, Claimed(r.state.token, claim.id, claim.since))
  }

  /** Where a claiming call is after `k` steps. */
  predicate OnItsWay(s0: State, s: State, c: CallerId, h: Handle, k: nat)
    requires h in s0.records && HoldsToken(s0.records[h].value)
  {
    var seen := s0.records[h].value;
    && c in s.callers
    && var pc := s.callers[c].pc;
    if k == 0 then Still(s0, s) && pc == Load(h)
    else if k == 1 then Still(s0, s) && pc == CheckTime(h, seen)
    else if k == 2 then
      Still(s0, s) && pc.CheckRevoked? && pc == CheckRevoked(h, seen, pc.at) && s0.now <= pc.at <= s.now
    else if k == 3 then Still(s0, s) && pc == ClaimClock(h, seen)
    else if k == 4 then Still(s0, s) && pc.SealClaim? && pc.seen == seen && ClaimOf(s0, s, h, seen.record, pc.claim)
    else if k == 5 then Still(s0, s) && pc.SwapClaim? && pc.seen == seen && ClaimOf(s0, s, h, seen.record, pc.claim)
    else
      && OnlyRecord(s0, s, h) && pc.Ask? && ClaimOf(s0, s, h, seen.record, pc.claim)
      && h in s.records && s.records[h].value == pc.claim.bytes
  }

  /** Nobody holds `h`: it is active, or its claim is older than the lease. */
  predicate Claimable(cfg: Config, s: State, h: Handle) {
    && h in s.records
    && match s.records[h].value.record.state
       case Active(_) => true
       case Claimed(_, _, claimedAt) => s.now > claimedAt + cfg.lease
       case Rotated(_, _, _) => false
  }

  lemma TickOnTheWay(cfg: Config, s0: State, s: State, c: CallerId, d: nat, h: Handle, k: nat)
    requires h in s0.records && HoldsToken(s0.records[h].value) && OnItsWay(s0, s, c, h, k)
    ensures OnItsWay(s0, Next(cfg, s, Tick(d)), c, h, k)
  {
  }

  lemma StepOnTheWay(cfg: Config, s0: State, s: State, c: CallerId, ch: Choice, h: Handle, k: nat)
    requires RecordsOk(s0) && Claimable(cfg, s0, h) && OnItsWay(s0, s, c, h, k) && k < 6
    requires var r := s0.records[h].value.record; r.family !in s0.markers && s.now < r.expires
    requires ch.luck.Fine? && Allowed(cfg, s, Act(c, ch))
    ensures OnItsWay(s0, Next(cfg, s, Act(c, ch)), c, h, k + 1)
  {
    assert RecordOk(s0, h);
    if k < 3 {
      StepBeforeClaim(cfg, s0, s, c, ch, h, k);
    } else {
      StepOfClaim(cfg, s0, s, c, ch, h, k);
    }
  }

  lemma MoveBeforeClaim(cfg: Config, s0: State, s: State, c: CallerId, ch: Choice, h: Handle, k: nat)
    requires RecordsOk(s0) && Claimable(cfg, s0, h) && OnItsWay(s0, s, c, h, k) && k < 3
    requires var r := s0.records[h].value.record; r.family !in s0.markers && s.now < r.expires
    requires ch.luck.Fine?
    ensures var seen := s0.records[h].value;
      Turn(cfg, s, s.callers[c].pc, ch) ==
        Move(Nothing, if k == 0 then CheckTime(h, seen) else if k == 1 then CheckRevoked(h, seen, s.now)
                      else ClaimClock(h, seen))
  {
    assert RecordOk(s0, h);
    assert Turn(cfg, s, s.callers[c].pc, ch) == RefreshTurn(cfg, s, s.callers[c].pc, ch);
  }

  lemma StepBeforeClaim(cfg: Config, s0: State, s: State, c: CallerId, ch: Choice, h: Handle, k: nat)
    requires RecordsOk(s0) && Claimable(cfg, s0, h) && OnItsWay(s0, s, c, h, k) && k < 3
    requires var r := s0.records[h].value.record; r.family !in s0.markers && s.now < r.expires
    requires ch.luck.Fine? && Allowed(cfg, s, Act(c, ch))
    ensures OnItsWay(s0, Next(cfg, s, Act(c, ch)), c, h, k + 1)
  {
    MoveBeforeClaim(cfg, s0, s, c, ch, h, k);
    Acted(cfg, s, c, ch);
  }

  predicate Claims(s0: State, s: State, h: Handle, seen: Bytes, k: nat, m: Move)
    requires HoldsToken(seen)
  {
    if k == 3 then
      && m.next.SealClaim? && m.next.seen == seen && ClaimOf(s0, s, h, seen.record, m.next.claim)
      && m.effect.Mint?
    else if k == 4 then
      && m.next.SwapClaim? && m.next.seen == seen && ClaimOf(s0, s, h, seen.record, m.next.claim) && m.effect.Nothing?
    else
      && m.next.Ask? && ClaimOf(s0, s, h, seen.record, m.next.claim)
      && m.effect.Overwrite? && m.effect.handle == h && m.effect.bytes == m.next.claim.bytes
  }

  lemma MoveOfClaim(cfg: Config, s0: State, s: State, c: CallerId, ch: Choice, h: Handle, k: nat)
    requires RecordsOk(s0) && Claimable(cfg, s0, h) && OnItsWay(s0, s, c, h, k) && 3 <= k < 6
    requires s.now < s0.records[h].value.record.expires && ch.luck.Fine?
    ensures Claims(s0, s, h, s0.records[h].value, k, Turn(cfg, s, s.callers[c].pc, ch))
  {
    assert RecordOk(s0, h);
    assert Turn(cfg, s, s.callers[c].pc, ch) == ClaimTurn(s, s.callers[c].pc, ch);
  }

  lemma StepOfClaim(cfg: Config, s0: State, s: State, c: CallerId, ch: Choice, h: Handle, k: nat)
    requires RecordsOk(s0) && Claimable(cfg, s0, h) && OnItsWay(s0, s, c, h, k) && 3 <= k < 6
    requires s.now < s0.records[h].value.record.expires
    requires ch.luck.Fine? && Allowed(cfg, s, Act(c, ch))
    ensures OnItsWay(s0, Next(cfg, s, Act(c, ch)), c, h, k + 1)
  {
    MoveOfClaim(cfg, s0, s, c, ch, h, k);
    Acted(cfg, s, c, ch);
    ClaimedStep(s0, s, Next(cfg, s, Act(c, ch)), c, h, k, Turn(cfg, s, s.callers[c].pc, ch));
  }

  lemma ClaimedStep(s0: State, s: State, s': State, c: CallerId, h: Handle, k: nat, m: Move)
    requires h in s0.records && HoldsToken(s0.records[h].value) && OnItsWay(s0, s, c, h, k) && 3 <= k < 6
    requires Claims(s0, s, h, s0.records[h].value, k, m) && Happened(s, s', c, m)
    ensures OnItsWay(s0, s', c, h, k + 1)
  {
  }

  lemma {:induction false} GetsThere(cfg: Config, s0: State, s: State, run: seq<Event>, c: CallerId, h: Handle, k: nat)
    requires RecordsOk(s0) && Claimable(cfg, s0, h) && OnItsWay(s0, s, c, h, k)
    requires Possible(cfg, s, run) && CalmRun(c, run) && k + Steps(c, run) == 6
    requires var r := s0.records[h].value.record; r.family !in s0.markers && After(cfg, s, run).now < r.expires
    ensures OnItsWay(s0, After(cfg, s, run), c, h, 6)
    decreases |run|
  {
    if run != [] {
      assert Calm(c, run[0]);
      TimePasses(cfg, s, run);
      var k' := if run[0].Act? then k + 1 else k;
      if run[0].Act? { StepOnTheWay(cfg, s0, s, c, run[0].choice, h, k); }
      else { TickOnTheWay(cfg, s0, s, c, run[0].elapsed, h, k); }
      assert CalmRun(c, run[1..]);
      GetsThere(cfg, s0, Next(cfg, s, run[0]), run[1..], c, h, k');
    }
  }

  /**
   A handle that nobody holds, be it active or claimed by someone whose lease has passed: an
   undisturbed call that presents it is at the upstream after six steps, with the record's token,
   and the record holds its claim.
   */
  lemma HandleIsClaimed(cfg: Config, before: seq<Event>, run: seq<Event>, c: CallerId, h: Handle)
    requires Possible(cfg, INITIAL, before)
    requires var s := After(cfg, INITIAL, before);
      && c in s.callers && s.callers[c].pc == Load(h) && Claimable(cfg, s, h)
      && s.records[h].value.record.family !in s.markers
      && Possible(cfg, s, run) && CalmRun(c, run) && Steps(c, run) == 6
      && After(cfg, s, run).now < s.records[h].value.record.expires
    ensures var s := After(cfg, INITIAL, before); var end := After(cfg, s, run);
      && c in end.callers && end.callers[c].pc.Ask?
      && var r := s.records[h].value.record; var claim := end.callers[c].pc.claim;
      && claim.handle == h && claim.token == r.state.token && s.now <= claim.since <= end.now
      && h in end.records && end.records[h].value == claim.bytes
      && claim.bytes.record == Record(r.family, r.expires, Claimed(r.state.token, claim.id, claim.since))
      && OnlyRecord(s, end, h)
  {
    ReachedInv(cfg, before);
    var s := After(cfg, INITIAL, before);
    GetsThere(cfg, s, s, run, c, h, 0);
  }

  // ---- a handle that somebody holds is waited for ----

  /** Where a call is after `k` steps that finds `h` claimed. */
  predicate Waiting(s0: State, s: State, c: CallerId, h: Handle, k: nat)
    requires h in s0.records
  {
    var seen := s0.records[h].value;
    && c in s.callers && Still(s0, s)
    && var pc := s.callers[c].pc;
    if k == 0 then pc == Load(h)
    else if k == 1 then pc == CheckTime(h, seen)
    else if k == 2 then pc.CheckRevoked? && pc == CheckRevoked(h, seen, pc.at) && pc.at <= s.now
    else if k == 3 then pc == Pause(h)
    else pc == Load(h) || pc == Done(Unavailable)
  }

  lemma StepOfWaiting(cfg: Config, s0: State, s: State, c: CallerId, ch: Choice, h: Handle, k: nat)
    requires RecordsOk(s0) && h in s0.records && Waiting(s0, s, c, h, k) && k < 4
    requires var r := s0.records[h].value.record;
      && r.family !in s0.markers && s.now < r.expires
      && r.state.Claimed? && s.now <= r.state.claimedAt + cfg.lease
    requires ch.luck.Fine? && Allowed(cfg, s, Act(c, ch))
    ensures Waiting(s0, Next(cfg, s, Act(c, ch)), c, h, k + 1)
  {
    assert RecordOk(s0, h);
  }

  lemma TickOfWaiting(cfg: Config, s0: State, s: State, c: CallerId, d: nat, h: Handle, k: nat)
    requires h in s0.records && Waiting(s0, s, c, h, k)
    ensures Waiting(s0, Next(cfg, s, Tick(d)), c, h, k)
  {
  }

  lemma GoesOnWaiting(cfg: Config, s0: State, s: State, c: CallerId, ev: Event, h: Handle, k: nat)
    requires RecordsOk(s0) && h in s0.records && Waiting(s0, s, c, h, k) && (ev.Act? ==> k < 4)
    requires var r := s0.records[h].value.record;
      && r.family !in s0.markers && s.now < r.expires
      && r.state.Claimed? && s.now <= r.state.claimedAt + cfg.lease
    requires Calm(c, ev) && Allowed(cfg, s, ev)
    ensures Waiting(s0, Next(cfg, s, ev), c, h, if ev.Act? then k + 1 else k)
  {
    if ev.Act? {
      StepOfWaiting(cfg, s0, s, c, ev.choice, h, k);
    } else {
      TickOfWaiting(cfg, s0, s, c, ev.elapsed, h, k);
    }
  }

  lemma {:induction false} WaitsThere(cfg: Config, s0: State, s: State, run: seq<Event>, c: CallerId, h: Handle, k: nat)
    requires RecordsOk(s0) && h in s0.records && Waiting(s0, s, c, h, k)
    requires Possible(cfg, s, run) && CalmRun(c, run) && k + Steps(c, run) == 4
    requires var r := s0.records[h].value.record; var end := After(cfg, s, run);
      && r.family !in s0.markers && end.now < r.expires
      && r.state.Claimed? && end.now <= r.state.claimedAt + cfg.lease
    ensures Waiting(s0, After(cfg, s, run), c, h, 4)
    decreases |run|
  {
    if run != [] {
      TimePasses(cfg, s, run);
      var k' := if run[0].Act? then k + 1 else k;
      assert Calm(c, run[0]) && CalmRun(c, run[1..]);
      GoesOnWaiting(cfg, s0, s, c, run[0], h, k);
      WaitsThere(cfg, s0, Next(cfg, s, run[0]), run[1..], c, h, k');
    }
  }

  /** Until a claim's lease has passed, an undisturbed call leaves it alone: it loads again or gives up. */
  lemma ClaimIsWaitedFor(cfg: Config, before: seq<Event>, run: seq<Event>, c: CallerId, h: Handle)
    requires Possible(cfg, INITIAL, before)
    requires var s := After(cfg, INITIAL, before);
      && c in s.callers && s.callers[c].pc == Load(h) && h in s.records
      && Possible(cfg, s, run) && CalmRun(c, run) && Steps(c, run) == 4
      && var r := s.records[h].value.record; var end := After(cfg, s, run);
      && r.family !in s.markers && end.now < r.expires
      && r.state.Claimed? && end.now <= r.state.claimedAt + cfg.lease
    ensures var s := After(cfg, INITIAL, before); var end := After(cfg, s, run);
      && c in end.callers && (end.callers[c].pc == Load(h) || end.callers[c].pc == Done(Unavailable))
      && Still(s, end)
  {
    ReachedInv(cfg, before);
    var s := After(cfg, INITIAL, before);
    WaitsThere(cfg, s, s, run, c, h, 0);
  }

  // ---- issuing ----

  /** Where an issuing caller is after `k` steps, and what it has done. */
  predicate IssuedBy(s0: State, s: State, c: CallerId, first: First, k: nat) {
    var h, f := first.handle, first.family;
    && c in s.callers
    && (var pc := s.callers[c].pc;
        if k <= 1 then pc == SealFirst(first)
        else if k == 2 then pc == PutFirst(first)
        else if k == 3 then pc == PutFirstHead(first)
        else if k == 4 then pc == HandOver(h)
        else pc == Done(Issued(h)))
    && s.records - {h} == s0.records - {h} && s.heads - {f} == s0.heads - {f}
    && s.replies == s0.replies && s.markers == s0.markers
    && (k >= 3 ==> Holding(s, h, Record(f, first.expires, Active(first.token))))
    && (if k < 4 then f !in s.heads else f in s.heads && s.heads[f].value == h)
    && (k >= 5 ==> h in s.presentable)
  }

  predicate IssueMove(first: First, k: nat, m: Move) {
    if k <= 1 then m == Move(Nothing, PutFirst(first))
    else if k == 2 then
      && m.next == PutFirstHead(first) && m.effect.Create? && m.effect.handle == first.handle
      && m.effect.bytes.record == Record(first.family, first.expires, Active(first.token))
    else if k == 3 then
      && m.next == HandOver(first.handle)
      && m.effect.WriteHead? && m.effect == WriteHead(first.family, first.handle, m.effect.until)
    else m == Move(Disclose(first.handle), Done(Issued(first.handle)))
  }

  lemma IssuingMove(cfg: Config, s0: State, s: State, c: CallerId, first: First, ch: Choice, k: nat)
    requires Inv(cfg, s) && IssuedBy(s0, s, c, first, k) && 1 <= k < 5 && ch.luck.Fine?
    ensures IssueMove(first, k, Turn(cfg, s, s.callers[c].pc, ch))
  {
    assert Relies(cfg, s, c, s.callers[c].pc) && RecordOk(s, first.handle);
    assert Turn(cfg, s, s.callers[c].pc, ch) == IssueTurn(cfg, s, s.callers[c].pc, ch);
  }

  lemma IssuedStep(s0: State, s: State, s': State, c: CallerId, first: First, k: nat, m: Move)
    requires IssuedBy(s0, s, c, first, k) && 1 <= k < 5 && IssueMove(first, k, m) && Happened(s, s', c, m)
    ensures IssuedBy(s0, s', c, first, k + 1)
  {
    if k == 2 {
    } else if k == 3 {
    } else {
    }
  }

  lemma IssueGoesOn(cfg: Config, s0: State, s: State, c: CallerId, ev: Event, first: First, k: nat)
    requires Inv(cfg, s) && IssuedBy(s0, s, c, first, k) && Calm(c, ev) && Allowed(cfg, s, ev)
    requires 1 <= k && (ev.Act? ==> k < 5)
    ensures IssuedBy(s0, Next(cfg, s, ev), c, first, if ev.Act? then k + 1 else k)
  {
    if ev.Act? {
      IssuingMove(cfg, s0, s, c, first, ev.choice, k);
      Acted(cfg, s, c, ev.choice);
      IssuedStep(s0, s, Next(cfg, s, ev), c, first, k, Turn(cfg, s, s.callers[c].pc, ev.choice));
    }
  }

  lemma {:induction false} IssueRun(cfg: Config, s0: State, s: State, run: seq<Event>, c: CallerId, first: First,
                                    k: nat)
    requires Inv(cfg, s) && IssuedBy(s0, s, c, first, k) && 1 <= k
    requires Possible(cfg, s, run) && CalmRun(c, run) && k + Steps(c, run) == 5
    ensures IssuedBy(s0, After(cfg, s, run), c, first, 5)
    decreases |run|
  {
    if run != [] {
      var k' := if run[0].Act? then k + 1 else k;
      assert Calm(c, run[0]) && CalmRun(c, run[1..]);
      IssueGoesOn(cfg, s0, s, c, run[0], first, k);
      NextKeepsInv(cfg, s, run[0]);
      IssueRun(cfg, s0, Next(cfg, s, run[0]), run[1..], c, first, k');
    }
  }

  lemma HeadsAreNamed(cfg: Config, s: State, f: Family)
    requires Global(cfg, s) && f in s.heads
    ensures f in s.names
  {
    assert HeadOk(s, f) && TipOk(s, f) && BirthOk(s, s.heads[f].value);
  }

  lemma DraftMove(cfg: Config, s: State, tok: Token, ch: Choice)
    requires cfg.maxLifetime > 0
    ensures Turn(cfg, s, Draft(tok), ch) ==
      Move(Mint({ch.name, ch.family}),
           SealFirst(First(ch.name, ch.family, s.now + cfg.maxLifetime, cfg.maxLifetime, tok)))
  {
  }

  lemma DraftStep(cfg: Config, s: State, c: CallerId, ch: Choice)
    requires Inv(cfg, s) && c in s.callers && s.callers[c].pc.Draft? && cfg.maxLifetime > 0
    requires Allowed(cfg, s, Act(c, ch))
    ensures ch.name !in s.names && ch.family !in s.names
    ensures IssuedBy(s, Next(cfg, s, Act(c, ch)), c,
      First(ch.name, ch.family, s.now + cfg.maxLifetime, cfg.maxLifetime, s.callers[c].pc.tok), 1)
  {
    Acted(cfg, s, c, ch);
    DraftMove(cfg, s, s.callers[c].pc.tok, ch);
    assert ch.family in s.heads ==> ch.family in s.names by {
      if ch.family in s.heads { HeadsAreNamed(cfg, s, ch.family); }
    }
  }

  /** In `end` the handle `h` of the new family `f` has been issued, and nothing else in the store has changed. */
  predicate IssueDelivered(s: State, end: State, c: CallerId, h: Handle, f: Family, expires: nat, tok: Token) {
    && h !in s.names && f !in s.names
    && c in end.callers && end.callers[c].pc == Done(Issued(h)) && h in end.presentable
    && h in end.records && end.records[h].value.record == Record(f, expires, Active(tok))
    && f in end.heads && end.heads[f].value == h
    && end.records - {h} == s.records - {h} && end.heads - {f} == s.heads - {f}
    && end.replies == s.replies && end.markers == s.markers
  }

  lemma IssueFrom(cfg: Config, s: State, c: CallerId, ch: Choice, rest: seq<Event>)
    requires Inv(cfg, s) && c in s.callers && s.callers[c].pc.Draft? && cfg.maxLifetime > 0
    requires Allowed(cfg, s, Act(c, ch))
    requires Possible(cfg, Next(cfg, s, Act(c, ch)), rest) && CalmRun(c, rest) && Steps(c, rest) == 4
    ensures IssueDelivered(s, After(cfg, Next(cfg, s, Act(c, ch)), rest), c, ch.name, ch.family,
                           s.now + cfg.maxLifetime, s.callers[c].pc.tok)
  {
    DraftStep(cfg, s, c, ch);
    NextKeepsInv(cfg, s, Act(c, ch));
    var first := First(ch.name, ch.family, s.now + cfg.maxLifetime, cfg.maxLifetime, s.callers[c].pc.tok);
    IssueRun(cfg, s, Next(cfg, s, Act(c, ch)), rest, c, first, 1);
  }

  /**
   A caller that issues, undisturbed, has its handle after five steps: new, in a family of its own
   that ends `maxLifetime` later, its record active with the token, and the head pointer on it.
   */
  lemma HandleIsIssued(cfg: Config, before: seq<Event>, c: CallerId, ch: Choice, rest: seq<Event>)
    requires Possible(cfg, INITIAL, before) && cfg.maxLifetime > 0
    requires var s := After(cfg, INITIAL, before);
      && c in s.callers && s.callers[c].pc.Draft? && Allowed(cfg, s, Act(c, ch))
      && Possible(cfg, Next(cfg, s, Act(c, ch)), rest) && CalmRun(c, rest) && Steps(c, rest) == 4
    ensures var s := After(cfg, INITIAL, before);
      IssueDelivered(s, After(cfg, Next(cfg, s, Act(c, ch)), rest), c, ch.name, ch.family,
                     s.now + cfg.maxLifetime, s.callers[c].pc.tok)
  {
    ReachedInv(cfg, before);
    IssueFrom(cfg, After(cfg, INITIAL, before), c, ch, rest);
  }
}
