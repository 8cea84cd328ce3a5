/**
 What presentations end in when any others interleave with them, fail and crash, as long as no seal
 or store call of their own fails: which handles are denied, that `invalid_grant` revokes, and what a
 replay within its grace period is told. A call's own steps are counted, so that it does end.
 */
module RotationVerdicts {
  import opened RotationProtocol
  import opened RotationInvariant
  import opened RotationSafety
  import opened RotationProgress

  /** What others do leaves a caller where it is, unless it crashes. */
  lemma OthersWait(cfg: Config, s: State, ev: Event, c: CallerId)
    requires Allowed(cfg, s, ev) && c in s.callers && !(ev.Act? && ev.caller == c) && Sound(c, ev)
    ensures c in Next(cfg, s, ev).callers && Next(cfg, s, ev).callers[c].pc == s.callers[c].pc
  {
  }

  lemma StaysDone(cfg: Config, s: State, c: CallerId, ch: Choice)
    requires c in s.callers && s.callers[c].pc.Done? && Allowed(cfg, s, Act(c, ch))
    ensures var s' := Next(cfg, s, Act(c, ch));
      && c in s'.callers && s'.callers[c].pc == s.callers[c].pc
      && s'.now == s.now && s'.births == s.births && s'.rotations == s.rotations && s'.markers == s.markers
  {
  }

  predicate IsStep(c: CallerId, ev: Event) { ev.Act? && ev.caller == c }

  function Fewer(c: CallerId, ev: Event, left: nat): nat { if IsStep(c, ev) && left > 0 then left - 1 else left }

  // ---- revocations end ----

  const WALK_STEPS: nat := MAX_ERASE_HOPS + 2
  const REVOKE_STEPS: nat := 2 * WALK_STEPS + 3

  /** How many more steps a revocation takes, at most. */
  function LeftToRevoke(pc: Pc): nat {
    if pc.RevokeClock? then REVOKE_STEPS
    else if pc.PutMarker? then REVOKE_STEPS - 1
    else if pc.ReadHead? then REVOKE_STEPS - 2
    else if pc.EraseLoad? then
      (if pc.hops < MAX_ERASE_HOPS then MAX_ERASE_HOPS - pc.hops else 0) + 2 + (if pc.more then WALK_STEPS else 0)
    else if pc.EraseDelete? then 1 + (if pc.more then WALK_STEPS else 0)
    else 0
  }

  /** On its way through `rev`; past the marker, the family is marked or has expired. */
  predicate Revokes(s: State, c: CallerId, rev: Revoking, left: nat) {
    && c in s.callers
    && var pc := s.callers[c].pc;
    && ((Erasing(pc) && pc.rev == rev) || pc == Done(rev.result)) && LeftToRevoke(pc) <= left
    && (pc.RevokeClock? || pc.PutMarker? || rev.family in s.markers || s.now >= rev.expires)
  }

  lemma RevokeMove(cfg: Config, s: State, pc: Pc, ch: Choice)
    requires Erasing(pc) && ch.luck.Fine?
    ensures var m := Turn(cfg, s, pc, ch);
      && ((Erasing(m.next) && m.next.rev == pc.rev) || m.next == Done(pc.rev.result))
      && LeftToRevoke(m.next) < LeftToRevoke(pc)
      && (!m.next.PutMarker? && !m.next.RevokeClock? ==>
           || !(pc.RevokeClock? || pc.PutMarker?) || s.now >= pc.rev.expires
           || pc.rev.family in s.markers || (m.effect.Mark? && m.effect.family == pc.rev.family))
  {
    assert Turn(cfg, s, pc, ch) == RevokeTurn(s, pc, ch);
  }

  lemma OwnRevokes(cfg: Config, s: State, c: CallerId, ch: Choice, rev: Revoking, left: nat)
    requires Revokes(s, c, rev, left) && !s.callers[c].pc.Done? && Allowed(cfg, s, Act(c, ch)) && ch.luck.Fine?
    ensures left > 0 && Revokes(Next(cfg, s, Act(c, ch)), c, rev, left - 1)
  {
    RevokeMove(cfg, s, s.callers[c].pc, ch);
  }

  lemma NextRevokes(cfg: Config, s: State, ev: Event, c: CallerId, rev: Revoking, left: nat)
    requires Inv(cfg, s) && Revokes(s, c, rev, left) && Allowed(cfg, s, ev) && Sound(c, ev)
    ensures Revokes(Next(cfg, s, ev), c, rev, Fewer(c, ev, left))
  {
    NextGrows(cfg, s, ev, rev.known);
    if !IsStep(c, ev) { OthersWait(cfg, s, ev, c); }
    else if s.callers[c].pc.Done? { StaysDone(cfg, s, c, ev.choice); }
    else { OwnRevokes(cfg, s, c, ev.choice, rev, left); }
  }

  lemma {:induction false} RunRevokes(cfg: Config, s: State, run: seq<Event>, c: CallerId, rev: Revoking, left: nat)
    requires Inv(cfg, s) && Revokes(s, c, rev, left) && Possible(cfg, s, run) && SoundRun(c, run)
    requires left <= Steps(c, run)
    ensures var end := After(cfg, s, run);
      && c in end.callers && end.callers[c].pc == Done(rev.result)
      && (rev.family in end.markers || end.now >= rev.expires)
    decreases |run|
  {
    if run != [] {
      assert Sound(c, run[0]) && SoundRun(c, run[1..]);
      NextRevokes(cfg, s, run[0], c, rev, left);
      NextKeepsInv(cfg, s, run[0]);
      RunRevokes(cfg, Next(cfg, s, run[0]), run[1..], c, rev, Fewer(c, run[0], left));
    }
  }

  lemma InvalidGrantStep(cfg: Config, s: State, c: CallerId, claim: Claim, ch: Choice)
    requires c in s.callers && s.callers[c].pc == Ask(claim) && ch.answer == InvalidGrant && Allowed(cfg, s, Act(c, ch))
    ensures Revokes(Next(cfg, s, Act(c, ch)), c, Revoking(claim.family, claim.expires, claim.handle, PassedOn),
                    REVOKE_STEPS)
  {
    Acted(cfg, s, c, ch);
    assert Turn(cfg, s, Ask(claim), ch) == AskTurn(claim, ch);
  }

  /**
   In every run, whatever others do meanwhile: once the upstream has answered `invalid_grant`, a
   caller whose own steps do not fail passes that on, and by then the family is marked revoked or has
   expired.
   */
  lemma InvalidGrantRevokes(cfg: Config, before: seq<Event>, c: CallerId, ch: Choice, rest: seq<Event>)
    requires Possible(cfg, INITIAL, before)
    requires var s := After(cfg, INITIAL, before);
      && c in s.callers && s.callers[c].pc.Ask? && ch.answer == InvalidGrant && Allowed(cfg, s, Act(c, ch))
      && Possible(cfg, Next(cfg, s, Act(c, ch)), rest) && Steps(c, rest) >= REVOKE_STEPS
      && SoundRun(c, rest)
    ensures var s := After(cfg, INITIAL, before); var end := After(cfg, Next(cfg, s, Act(c, ch)), rest);
      var claim := s.callers[c].pc.claim;
      && c in end.callers && end.callers[c].pc == Done(PassedOn)
      && (claim.family in end.markers || end.now >= claim.expires)
  {
    ReachedInv(cfg, before);
    var s := After(cfg, INITIAL, before);
    var claim := s.callers[c].pc.claim;
    InvalidGrantStep(cfg, s, c, claim, ch);
    NextKeepsInv(cfg, s, Act(c, ch));
    var rev := Revoking(claim.family, claim.expires, claim.handle, PassedOn);
    RunRevokes(cfg, Next(cfg, s, Act(c, ch)), rest, c, rev, REVOKE_STEPS);
  }

  // ---- handles that are denied ----

  predicate PastGrace(cfg: Config, s: State, h: Handle, at: nat) {
    h in s.rotations && Elapsed(at, s.rotations[h].rotatedAt) > cfg.grace
  }

  /** Never issued, expired, of a revoked family, or rotated longer ago than the grace period. */
  predicate Dead(cfg: Config, s: State, h: Handle) {
    || h !in s.births || s.now >= s.births[h].expires || s.births[h].family in s.markers
    || PastGrace(cfg, s, h, s.now)
  }

  /** A call on the way to its denial; `since` is when its handle was dead already. */
  predicate Refused(cfg: Config, s: State, c: CallerId, h: Handle, since: nat, left: nat) {
    && c in s.callers && since <= s.now
    && var pc := s.callers[c].pc;
    if pc.Load? then pc.handle == h && Dead(cfg, s, h) && left >= REVOKE_STEPS + 3
    else if pc.CheckTime? then
      && pc.handle == h && h in s.births && left >= REVOKE_STEPS + 2
      && (|| s.now >= s.births[h].expires || s.births[h].family in s.markers
          || (PastGrace(cfg, s, h, s.now) && pc.seen.record.state.Rotated?))
    else if pc.CheckRevoked? then
      && pc.handle == h && h in s.births && left >= REVOKE_STEPS + 1 && since <= pc.at < s.births[h].expires
      && (s.births[h].family in s.markers || (PastGrace(cfg, s, h, pc.at) && pc.seen.record.state.Rotated?))
    else ((Erasing(pc) && pc.rev.result == Denied) || pc == Done(Denied)) && LeftToRevoke(pc) <= left
  }

  lemma LoadIsRefused(cfg: Config, s: State, pc: Pc, ch: Choice)
    requires Inv(cfg, s) && pc.Load? && Dead(cfg, s, pc.handle) && ch.luck.Fine?
    ensures var h := pc.handle; var m := Turn(cfg, s, pc, ch);
      && m.effect == Nothing
      && (m.next == Done(Denied)
          || (&& m.next.CheckTime? && m.next.handle == h && h in s.births
              && (|| s.now >= s.births[h].expires || s.births[h].family in s.markers
                  || (PastGrace(cfg, s, h, s.now) && m.next.seen.record.state.Rotated?))))
  {
    assert RecordOk(s, pc.handle);
    assert Turn(cfg, s, pc, ch) == RefreshTurn(cfg, s, pc, ch);
  }

  lemma CheckIsRefused(cfg: Config, s: State, pc: Pc, ch: Choice)
    requires Global(cfg, s) && (pc.CheckTime? || pc.CheckRevoked?) && RefreshRelies(s, pc) && ch.luck.Fine?
    requires pc.CheckTime? ==>
      || s.now >= s.births[pc.handle].expires || s.births[pc.handle].family in s.markers
      || (PastGrace(cfg, s, pc.handle, s.now) && pc.seen.record.state.Rotated?)
    requires pc.CheckRevoked? ==>
      && s.now < s.births[pc.handle].expires
      && (s.births[pc.handle].family in s.markers
          || (PastGrace(cfg, s, pc.handle, pc.at) && pc.seen.record.state.Rotated?))
    ensures var h := pc.handle; var m := Turn(cfg, s, pc, ch);
      && m.effect == Nothing
      && (|| m.next == Done(Denied)
          || (m.next.RevokeClock? && m.next.rev.result == Denied)
          || (&& pc.CheckTime? && m.next == CheckRevoked(h, pc.seen, s.now) && s.now < s.births[h].expires
              && (s.births[h].family in s.markers ||
                  (PastGrace(cfg, s, h, s.now) && pc.seen.record.state.Rotated?))))
  {
    assert BirthOk(s, pc.handle) && MarkerOk(s, s.births[pc.handle].family);
    assert Turn(cfg, s, pc, ch) == RefreshTurn(cfg, s, pc, ch);
  }

  lemma UnissuedStays(cfg: Config, s: State, ev: Event, h: Handle)
    requires Inv(cfg, s) && Allowed(cfg, s, ev) && h !in s.births && h in s.presentable
    ensures h !in Next(cfg, s, ev).births
  {
    if ev.Act? { TurnIsLegal(cfg, s, ev.caller, s.callers[ev.caller].pc, ev.choice); }
  }

  lemma DeadStays(cfg: Config, s: State, ev: Event, h: Handle)
    requires Inv(cfg, s) && Allowed(cfg, s, ev) && Dead(cfg, s, h) && h in s.presentable
    ensures Dead(cfg, Next(cfg, s, ev), h)
  {
    NextGrows(cfg, s, ev, h);
    if h !in s.births { UnissuedStays(cfg, s, ev, h); }
  }

  lemma OthersRefused(cfg: Config, s: State, ev: Event, c: CallerId, h: Handle, since: nat, left: nat)
    requires Inv(cfg, s) && Refused(cfg, s, c, h, since, left) && Allowed(cfg, s, ev) && Sound(c, ev)
    requires !IsStep(c, ev)
    ensures Refused(cfg, Next(cfg, s, ev), c, h, since, left)
  {
    OthersWait(cfg, s, ev, c);
    NextGrows(cfg, s, ev, h);
    var pc := s.callers[c].pc;
    if pc.Load? {
      assert RefreshRelies(s, pc);
      DeadStays(cfg, s, ev, h);
    }
  }

  lemma LoadRefused(cfg: Config, s: State, c: CallerId, ch: Choice, h: Handle, since: nat, left: nat)
    requires Inv(cfg, s) && Refused(cfg, s, c, h, since, left) && Allowed(cfg, s, Act(c, ch)) && ch.luck.Fine?
    requires s.callers[c].pc.Load? && left > 0
    ensures Refused(cfg, Next(cfg, s, Act(c, ch)), c, h, since, left - 1)
  {
    Acted(cfg, s, c, ch);
    NextGrows(cfg, s, Act(c, ch), h);
    LoadIsRefused(cfg, s, s.callers[c].pc, ch);
  }

  lemma CheckRefused(cfg: Config, s: State, c: CallerId, ch: Choice, h: Handle, since: nat, left: nat)
    requires Inv(cfg, s) && Refused(cfg, s, c, h, since, left) && Allowed(cfg, s, Act(c, ch)) && ch.luck.Fine?
    requires (s.callers[c].pc.CheckTime? || s.callers[c].pc.CheckRevoked?) && left > 0
    requires h in s.births ==> since >= s.births[h].expires || s.now < s.births[h].expires
    ensures Refused(cfg, Next(cfg, s, Act(c, ch)), c, h, since, left - 1)
  {
    Acted(cfg, s, c, ch);
    NextGrows(cfg, s, Act(c, ch), h);
    assert RefreshRelies(s, s.callers[c].pc);
    CheckIsRefused(cfg, s, s.callers[c].pc, ch);
  }

  lemma EraseRefused(cfg: Config, s: State, c: CallerId, ch: Choice, h: Handle, since: nat, left: nat)
    requires Refused(cfg, s, c, h, since, left) && Allowed(cfg, s, Act(c, ch)) && ch.luck.Fine?
    requires Erasing(s.callers[c].pc) && left > 0
    ensures Refused(cfg, Next(cfg, s, Act(c, ch)), c, h, since, left - 1)
  {
    Acted(cfg, s, c, ch);
    RevokeMove(cfg, s, s.callers[c].pc, ch);
  }

  lemma OwnRefused(cfg: Config, s: State, c: CallerId, ch: Choice, h: Handle, since: nat, left: nat)
    requires Inv(cfg, s) && Refused(cfg, s, c, h, since, left) && Allowed(cfg, s, Act(c, ch)) && ch.luck.Fine?
    requires h in s.births ==> since >= s.births[h].expires || s.now < s.births[h].expires
    ensures Refused(cfg, Next(cfg, s, Act(c, ch)), c, h, since, if left > 0 then left - 1 else left)
  {
    var pc := s.callers[c].pc;
    if pc.Load? { LoadRefused(cfg, s, c, ch, h, since, left); }
    else if pc.CheckTime? || pc.CheckRevoked? { CheckRefused(cfg, s, c, ch, h, since, left); }
    else if Erasing(pc) { EraseRefused(cfg, s, c, ch, h, since, left); }
    else { StaysDone(cfg, s, c, ch); }
  }

  /** Refused, and known to its store if at all, with the family expired from the start or never. */
  predicate Doomed(cfg: Config, s: State, c: CallerId, h: Handle, since: nat, left: nat, until: nat) {
    && Refused(cfg, s, c, h, since, left) && h in s.presentable && s.now <= until
    && (h in s.births ==> since >= s.births[h].expires || until < s.births[h].expires)
  }

  lemma NextRefused(cfg: Config, s: State, ev: Event, c: CallerId, h: Handle, since: nat, left: nat, until: nat)
    requires Inv(cfg, s) && Doomed(cfg, s, c, h, since, left, until) && Allowed(cfg, s, ev)
    requires Sound(c, ev) && Next(cfg, s, ev).now <= until
    ensures Doomed(cfg, Next(cfg, s, ev), c, h, since, Fewer(c, ev, left), until)
  {
    if IsStep(c, ev) { OwnRefused(cfg, s, c, ev.choice, h, since, left); }
    else { OthersRefused(cfg, s, ev, c, h, since, left); }
    NextGrows(cfg, s, ev, h);
    if h !in s.births { UnissuedStays(cfg, s, ev, h); }
  }

  lemma {:induction false} RunRefused(cfg: Config, s: State, run: seq<Event>, c: CallerId, h: Handle, since: nat,
                                      left: nat, until: nat)
    requires Inv(cfg, s) && Doomed(cfg, s, c, h, since, left, until) && Possible(cfg, s, run)
    requires SoundRun(c, run) && After(cfg, s, run).now <= until && left <= Steps(c, run)
    ensures var end := After(cfg, s, run); c in end.callers && end.callers[c].pc == Done(Denied)
    decreases |run|
  {
    if run == [] {
      NothingLeft(cfg, s, c, h, since);
    } else {
      var s' := Next(cfg, s, run[0]);
      assert Sound(c, run[0]) && SoundRun(c, run[1..]);
      TimePasses(cfg, s', run[1..]);
      NextRefused(cfg, s, run[0], c, h, since, left, until);
      NextKeepsInv(cfg, s, run[0]);
      RunRefused(cfg, s', run[1..], c, h, since, Fewer(c, run[0], left), until);
    }
  }

  lemma NothingLeft(cfg: Config, s: State, c: CallerId, h: Handle, since: nat)
    requires Refused(cfg, s, c, h, since, 0)
    ensures c in s.callers && s.callers[c].pc == Done(Denied)
  {
  }

  /**
   In every run, whatever others do meanwhile: a call that presents a handle which was never issued,
   has expired, is of a revoked family, or was rotated longer ago than the grace period, ends denied
   if no step of its own fails. (Unless a family that had not expired does so meanwhile.)
   */
  lemma DeadHandleIsDenied(cfg: Config, before: seq<Event>, c: CallerId, h: Handle, rest: seq<Event>)
    requires Possible(cfg, INITIAL, before)
    requires var s := After(cfg, INITIAL, before);
      && c in s.callers && s.callers[c].pc == Load(h) && Dead(cfg, s, h)
      && Possible(cfg, s, rest) && Steps(c, rest) >= REVOKE_STEPS + 3 && SoundRun(c, rest)
      && (h in s.births ==> s.now >= s.births[h].expires || After(cfg, s, rest).now < s.births[h].expires)
    ensures var end := After(cfg, After(cfg, INITIAL, before), rest);
      c in end.callers && end.callers[c].pc == Done(Denied)
  {
    ReachedInv(cfg, before);
    var s := After(cfg, INITIAL, before);
    assert RefreshRelies(s, s.callers[c].pc);
    TimePasses(cfg, s, rest);
    RunRefused(cfg, s, rest, c, h, s.now, REVOKE_STEPS + 3, After(cfg, s, rest).now);
  }

  // ---- replays within the grace period ----

  /** A call on its way to the recorded response of the rotation of `h`. */
  predicate Replaying(s: State, c: CallerId, h: Handle, left: nat) {
    && c in s.callers && h in s.rotations && h in s.births
    && var pc := s.callers[c].pc;
    if pc.Load? then pc.handle == h && left >= 4
    else if pc.CheckTime? then pc.handle == h && pc.seen.record.state.Rotated? && left >= 3
    else if pc.CheckRevoked? then pc.handle == h && pc.seen.record.state.Rotated? && left >= 2
    else if pc.FetchReply? then pc.handle == h && left >= 1
    else pc == Done(Tokens(s.rotations[h].reply))
  }

  lemma OwnReplay(cfg: Config, s: State, c: CallerId, ch: Choice, h: Handle, left: nat)
    requires Inv(cfg, s) && Replaying(s, c, h, left) && Allowed(cfg, s, Act(c, ch)) && ch.luck.Fine?
    requires s.births[h].family !in s.markers && s.now < s.births[h].expires
    requires s.now <= s.rotations[h].rotatedAt + cfg.grace
    ensures Replaying(Next(cfg, s, Act(c, ch)), c, h, if left > 0 then left - 1 else left)
  {
    if s.callers[c].pc.Done? { StaysDone(cfg, s, c, ch); }
    else { OwnReplayStep(cfg, s, c, ch, h, left); }
  }

  lemma OwnReplayStep(cfg: Config, s: State, c: CallerId, ch: Choice, h: Handle, left: nat)
    requires Inv(cfg, s) && Replaying(s, c, h, left) && Allowed(cfg, s, Act(c, ch)) && ch.luck.Fine?
    requires !s.callers[c].pc.Done? && s.births[h].family !in s.markers && s.now < s.births[h].expires
    requires s.now <= s.rotations[h].rotatedAt + cfg.grace
    ensures Replaying(Next(cfg, s, Act(c, ch)), c, h, if left > 0 then left - 1 else left)
  {
    var pc := s.callers[c].pc;
    Acted(cfg, s, c, ch);
    NextGrows(cfg, s, Act(c, ch), h);
    assert RefreshRelies(s, pc);
    ReplayMove(cfg, s, pc, ch);
    ReplayedStep(s, Next(cfg, s, Act(c, ch)), c, h, left, Turn(cfg, s, pc, ch));
  }

  lemma ReplayedStep(s: State, s': State, c: CallerId, h: Handle, left: nat, m: Move)
    requires Replaying(s, c, h, left) && Happened(s, s', c, m) && Grows(s, s', h)
    requires var pc := s.callers[c].pc;
      if pc.Load? then m.next.CheckTime? && m.next.handle == h && m.next.seen.record.state.Rotated?
      else if pc.CheckTime? then m.next == CheckRevoked(h, pc.seen, s.now)
      else if pc.CheckRevoked? then m.next == FetchReply(h, s.rotations[h].claim)
      else m.next == Done(Tokens(s.rotations[h].reply))
    ensures Replaying(s', c, h, if left > 0 then left - 1 else left)
  {
  }

  lemma ReplayMove(cfg: Config, s: State, pc: Pc, ch: Choice)
    requires Global(cfg, s) && Refreshing(pc) && !pc.Pause? && RefreshRelies(s, pc) && ch.luck.Fine?
    requires var h := pc.handle;
      && h in s.rotations && h in s.births && s.births[h].family !in s.markers && s.now < s.births[h].expires
      && s.now <= s.rotations[h].rotatedAt + cfg.grace
    requires pc.CheckTime? || pc.CheckRevoked? ==> pc.seen.record.state.Rotated?
    ensures var h := pc.handle; var m := Turn(cfg, s, pc, ch);
      if pc.Load? then m.next.CheckTime? && m.next.handle == h && m.next.seen.record.state.Rotated?
      else if pc.CheckTime? then m.next == CheckRevoked(h, pc.seen, s.now)
      else if pc.CheckRevoked? then m.next == FetchReply(h, s.rotations[h].claim)
      else m.next == Done(Tokens(s.rotations[h].reply))
  {
    assert Turn(cfg, s, pc, ch) == RefreshTurn(cfg, s, pc, ch);
    assert RotationOk(s, pc.handle) && RecordOk(s, pc.handle) && KeptOk(cfg, s, pc.handle) && ReplyOk(s, pc.handle);
  }

  lemma OthersReplay(cfg: Config, s: State, ev: Event, c: CallerId, h: Handle, left: nat)
    requires Inv(cfg, s) && Replaying(s, c, h, left) && Allowed(cfg, s, ev) && Sound(c, ev)
    requires !IsStep(c, ev)
    ensures Replaying(Next(cfg, s, ev), c, h, left)
  {
    OthersWait(cfg, s, ev, c);
    NextGrows(cfg, s, ev, h);
  }

  /** The run stays within the grace period of `h`, and its family is neither revoked nor expires. */
  predicate InGrace(cfg: Config, s: State, end: State, h: Handle) {
    && h in s.rotations && h in s.births
    && s.births[h].family !in end.markers && end.now < s.births[h].expires
    && end.now <= s.rotations[h].rotatedAt + cfg.grace
  }

  lemma {:induction false} RunReplays(cfg: Config, s: State, run: seq<Event>, c: CallerId, h: Handle, left: nat)
    requires Inv(cfg, s) && Replaying(s, c, h, left) && Possible(cfg, s, run) && SoundRun(c, run)
    requires left <= Steps(c, run) && InGrace(cfg, s, After(cfg, s, run), h)
    ensures var end := After(cfg, s, run);
      c in end.callers && end.callers[c].pc == Done(Tokens(s.rotations[h].reply))
    decreases |run|
  {
    if run != [] {
      var s' := Next(cfg, s, run[0]);
      assert Sound(c, run[0]) && SoundRun(c, run[1..]);
      TimePasses(cfg, s, run);
      MarkersStay(cfg, s, run, h);
      if IsStep(c, run[0]) { OwnReplay(cfg, s, c, run[0].choice, h, left); }
      else { OthersReplay(cfg, s, run[0], c, h, left); }
      NextKeepsInv(cfg, s, run[0]);
      NextGrows(cfg, s, run[0], h);
      RunReplays(cfg, s', run[1..], c, h, Fewer(c, run[0], left));
    }
  }

  lemma {:induction false} MarkersStay(cfg: Config, s: State, run: seq<Event>, h: Handle)
    requires Inv(cfg, s) && Possible(cfg, s, run)
    ensures s.markers.Keys <= After(cfg, s, run).markers.Keys
    decreases |run|
  {
    if run != [] {
      NextGrows(cfg, s, run[0], h);
      NextKeepsInv(cfg, s, run[0]);
      MarkersStay(cfg, Next(cfg, s, run[0]), run[1..], h);
    }
  }

  /**
   In every run, whatever others do meanwhile: a call that presents a rotated handle, and ends within
   the grace period of an unrevoked, unexpired family, is told after four steps the very response
   that the rotation recorded, if no step of its own fails.
   */
  lemma ReplayedWithinGrace(cfg: Config, before: seq<Event>, c: CallerId, h: Handle, rest: seq<Event>)
    requires Possible(cfg, INITIAL, before)
    requires var s := After(cfg, INITIAL, before);
      && c in s.callers && s.callers[c].pc == Load(h) && h in s.rotations
      && Possible(cfg, s, rest) && Steps(c, rest) >= 4 && SoundRun(c, rest)
      && InGrace(cfg, s, After(cfg, s, rest), h)
    ensures var s := After(cfg, INITIAL, before); var end := After(cfg, s, rest);
      c in end.callers && end.callers[c].pc == Done(Tokens(s.rotations[h].reply))
  {
    ReachedInv(cfg, before);
    RunReplays(cfg, After(cfg, INITIAL, before), rest, c, h, 4);
  }
}
