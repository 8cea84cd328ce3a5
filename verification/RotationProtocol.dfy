/**
 The rotating refresh-token protocol as a step system.

 Every store call is one atomic step of one caller, and every clock reading, seal and upstream
 answer is a step of its own, so any number of callers interleave between any two of them.
 Sealing is ideal: a sealed value is its nonce together with the record it protects. Keys are
 ideal hashes, so the four key namespaces become four maps. Random handles, claim ids and family
 ids are names nobody has used or presented before.

 Fields from `births` on are history: no caller reads them.
 */
module RotationProtocol {
  import opened Wrappers

  type Name = nat
  type Handle = Name
  type Family = Name
  type ClaimId = Name
  type Token = nat
  type CallerId = nat

  /** In milliseconds; what a late replay of a recorded response is given beyond its grace. */
  const GRACE_RESPONSE_MARGIN: nat := 10_000
  /** After so many records the erase walk gives up. */
  const MAX_ERASE_HOPS: nat := 1_000

  /** Durations in milliseconds. */
  datatype Config = Config(grace: nat, maxLifetime: nat, lease: nat, upstreamTimeout: nat, sealerTimeout: nat)

  datatype RecordState =
    | Active(token: Token)
    | Claimed(token: Token, claim: ClaimId, claimedAt: nat)
    | Rotated(rotatedAt: nat, claim: ClaimId, successor: Handle)

  datatype Record = Record(family: Family, expires: nat, state: RecordState)

  /** The exact bytes of a stored record, which is what compare-and-swap compares. */
  datatype Bytes = Sealed(nonce: nat, record: Record)

  /** A 2xx token response: it names the successor handle; `content` is everything else. */
  datatype Reply = Reply(successor: Handle, content: nat)

  /** A stored value, visible while the clock is below `until`. */
  datatype Slot<T> = Slot(value: T, until: nat)

  datatype Answer =
    | Unreachable
    | InvalidGrant
    | OtherError
    | NotAnObject
    | Granted(content: nat, rotated: Option<Token>)

  datatype Outcome =
    | Issued(handle: Handle)
    | Tokens(reply: Reply)
    | Denied
    | Unavailable
    | UpstreamFailed
    | PassedOn
    | UpstreamUnusable
    | StoreFailed
    | SealerDown
    | Crashed

  datatype First = First(handle: Handle, family: Family, expires: nat, ttl: nat, token: Token)

  datatype Claim = Claim(handle: Handle, bytes: Bytes, id: ClaimId, token: Token, family: Family, expires: nat,
                         since: nat)

  datatype Offer = Offer(successor: Handle, token: Token, reply: Reply, rotated: Option<Token>)

  datatype Revoking = Revoking(family: Family, expires: nat, known: Handle, result: Outcome)

  /** Why a committing caller removes the response and the successor it wrote. */
  datatype Why = Withheld | LostSwap | Failed(fault: Outcome)

  /** What a caller does next. */
  datatype Pc =
    // create_family
    | Draft(tok: Token)
    | SealFirst(first: First)
    | PutFirst(first: First)
    | PutFirstHead(first: First)
    | HandOver(handle: Handle)
    // refresh_rotating
    | Load(handle: Handle)
    | CheckTime(handle: Handle, seen: Bytes)
    | CheckRevoked(handle: Handle, seen: Bytes, at: nat)
    | FetchReply(handle: Handle, id: ClaimId)
    | Pause(handle: Handle)
    // claim
    | ClaimClock(handle: Handle, seen: Bytes)
    | SealClaim(claim: Claim, seen: Bytes, ttl: nat)
    | SwapClaim(claim: Claim, seen: Bytes, ttl: nat)
    // perform
    | Ask(claim: Claim)
    | CommitClock(claim: Claim, offer: Offer)
    | SealReply(claim: Claim, offer: Offer, at: nat)
    | PutReply(claim: Claim, offer: Offer, at: nat)
    | SealSuccessor(claim: Claim, offer: Offer, at: nat)
    | PutSuccessor(claim: Claim, offer: Offer, at: nat)
    | SealTombstone(claim: Claim, offer: Offer, at: nat)
    | SwapTombstone(claim: Claim, offer: Offer, at: nat)
    | MoveHead(claim: Claim, offer: Offer, at: nat)
    | PostCheck(claim: Claim, offer: Offer)
    | DropReply(claim: Claim, offer: Offer, why: Why)
    | DropSuccessor(claim: Claim, offer: Offer, why: Why)
    | LostCheck(claim: Claim)
    // release
    | SealRelease(claim: Claim, result: Outcome)
    | ReleaseClock(claim: Claim, result: Outcome)
    | SwapRelease(claim: Claim, ttl: nat, result: Outcome)
    // revoke
    | RevokeClock(rev: Revoking)
    | PutMarker(rev: Revoking, ttl: nat)
    | ReadHead(rev: Revoking)
    | EraseLoad(rev: Revoking, key: Handle, hops: nat, more: bool)
    | EraseDelete(rev: Revoking, key: Handle, more: bool)
    | Done(outcome: Outcome)

  /** What the environment contributes to a step. A store error leaves open whether the call took effect. */
  datatype Luck = Fine | StoreError(applied: bool) | SealError(unavailable: bool)

  datatype Choice = Choice(luck: Luck, name: Name, family: Family, nonce: nat, slack: nat, answer: Answer, retry: bool)

  /** Time a caller has spent since it read the clock for its claim. */
  datatype Spent = Spent(sealing: nat, upstream: nat, store: nat)

  /** `knew` holds the families that were already marked revoked when the call began. */
  datatype Caller = Caller(pc: Pc, presented: Option<Handle>, knew: set<Family>, spent: Spent)

  datatype Birth = Birth(family: Family, expires: nat, token: Token, parent: Option<Handle>, index: nat)

  /** A committed rotation; `late` when the family was already marked revoked. */
  datatype Rotation = Rotation(claim: ClaimId, successor: Handle, reply: Reply, rotatedAt: nat,
                               rotated: Option<Token>, late: bool)

  datatype State = State(
    now: nat,
    records: map<Handle, Slot<Bytes>>,
    replies: map<(Handle, ClaimId), Slot<Reply>>,
    heads: map<Family, Slot<Handle>>,
    markers: map<Family, Slot<CallerId>>,
    callers: map<CallerId, Caller>,
    births: map<Handle, Birth>,
    rotations: map<Handle, Rotation>,
    tips: map<Family, Handle>,
    families: map<Family, nat>,
    names: map<Name, CallerId>,
    presentable: set<Handle>,
    returned: set<(Handle, Reply)>,
    faulty: bool,
    cuts: set<Family>
  )

  /** The one change a step makes to the store or to the history. */
  datatype Effect =
    | Nothing
    | Mint(names: set<Name>)
    | Create(handle: Handle, bytes: Bytes, until: nat, birth: Birth)
    | Overwrite(handle: Handle, bytes: Bytes, until: nat)
    | Rotate(handle: Handle, bytes: Bytes, until: nat, rotation: Rotation)
    | Remove(handle: Handle)
    | WriteReply(handle: Handle, id: ClaimId, reply: Reply, until: nat)
    | RemoveReply(handle: Handle, id: ClaimId)
    | WriteHead(family: Family, handle: Handle, until: nat)
    | Mark(family: Family, until: nat)
    | Disclose(handle: Handle)
    | Tell(handle: Handle, reply: Reply)

  datatype Move = Move(effect: Effect, next: Pc)

  predicate Live<K, T>(m: map<K, Slot<T>>, k: K, now: nat) {
    k in m && now < m[k].until
  }

  /** Whether a compare-and-swap of the record of `h` from `bytes` finds those bytes. */
  predicate Holds(s: State, h: Handle, bytes: Bytes) {
    Live(s.records, h, s.now) && s.records[h].value == bytes
  }

  predicate HoldsToken(b: Bytes) {
    !b.record.state.Rotated?
  }

  function Elapsed(now: nat, since: nat): nat {
    if now >= since then now - since else 0
  }

  function Min(a: nat, b: nat): nat {
    if a <= b then a else b
  }

  /** A call that fails takes effect or not; one that succeeds does. */
  predicate TakesEffect(luck: Luck) {
    luck.StoreError? ==> luck.applied
  }

  function SealFault(luck: Luck): Outcome
  {
    if luck.SealError? && luck.unavailable then SealerDown else Denied
  }

  function ClaimRecord(c: Claim): Record {
    Record(c.family, c.expires, Claimed(c.token, c.id, c.since))
  }

  function FirstBirth(f: First): Birth {
    Birth(f.family, f.expires, f.token, None, 0)
  }

  function AfterWalk(rev: Revoking, more: bool): Pc {
    if more then EraseLoad(rev, rev.known, 0, false) else Done(rev.result)
  }

  function AfterDrop(claim: Claim, why: Why): Pc {
    match why
    case Withheld => Done(Denied)
    case LostSwap => LostCheck(claim)
    case Failed(fault) => SealRelease(claim, fault)
  }

  predicate Issuing(pc: Pc) { pc.Draft? || pc.SealFirst? || pc.PutFirst? || pc.PutFirstHead? || pc.HandOver? }

  predicate Refreshing(pc: Pc) { pc.Load? || pc.CheckTime? || pc.CheckRevoked? || pc.FetchReply? || pc.Pause? }

  predicate Claiming(pc: Pc) { pc.ClaimClock? || pc.SealClaim? || pc.SwapClaim? }

  predicate Preparing(pc: Pc) {
    pc.CommitClock? || pc.SealReply? || pc.PutReply? || pc.SealSuccessor? || pc.PutSuccessor? || pc.SealTombstone?
  }

  predicate Dropping(pc: Pc) { pc.DropReply? || pc.DropSuccessor? }

  predicate Settling(pc: Pc) { pc.SwapTombstone? || pc.MoveHead? || pc.PostCheck? || Dropping(pc) || pc.LostCheck? }

  predicate Releasing(pc: Pc) { pc.SealRelease? || pc.ReleaseClock? || pc.SwapRelease? }

  predicate Erasing(pc: Pc) { pc.RevokeClock? || pc.PutMarker? || pc.ReadHead? || pc.EraseLoad? || pc.EraseDelete? }

  // ---- create_family ----

  function IssueTurn(cfg: Config, s: State, pc: Pc, ch: Choice): Move
    requires Issuing(pc)
  {
    match pc
    case Draft(tok) =>
      if cfg.maxLifetime > 0 then
        Move(Mint({ch.name, ch.family}),
             SealFirst(First(ch.name, ch.family, s.now + cfg.maxLifetime, cfg.maxLifetime, tok)))
      else Move(Nothing, Done(StoreFailed))
    case SealFirst(first) =>
      if ch.luck.SealError? then Move(Nothing, Done(SealFault(ch.luck))) else Move(Nothing, PutFirst(first))
    case PutFirst(first) =>
      var create := Create(first.handle, Sealed(ch.nonce, Record(first.family, first.expires, Active(first.token))),
                           s.now + first.ttl + ch.slack, FirstBirth(first));
      if Live(s.records, first.handle, s.now) then Move(Nothing, Done(StoreFailed))
      else Move(if TakesEffect(ch.luck) then create else Nothing,
                if ch.luck.StoreError? then Done(StoreFailed) else PutFirstHead(first))
    case PutFirstHead(first) =>
      if Live(s.heads, first.family, s.now) then Move(Nothing, Done(StoreFailed))
      else Move(if TakesEffect(ch.luck) then WriteHead(first.family, first.handle, s.now + first.ttl + ch.slack)
                else Nothing,
                if ch.luck.StoreError? then Done(StoreFailed) else HandOver(first.handle))
    case HandOver(h) => Move(Disclose(h), Done(Issued(h)))
  }

  // ---- refresh_rotating and claim ----

  /** The branch taken on a record that is unexpired, read at `at`, of a family not marked revoked. */
  function Dispatch(cfg: Config, h: Handle, seen: Bytes, at: nat): Pc {
    match seen.record.state
    case Active(_) => ClaimClock(h, seen)
    case Claimed(_, _, claimedAt) =>
      if Elapsed(at, claimedAt) > cfg.lease then ClaimClock(h, seen) else Pause(h)
    case Rotated(rotatedAt, id, _) =>
      if Elapsed(at, rotatedAt) <= cfg.grace then FetchReply(h, id)
      else RevokeClock(Revoking(seen.record.family, seen.record.expires, h, Denied))
  }

  function RefreshTurn(cfg: Config, s: State, pc: Pc, ch: Choice): Move
    requires Refreshing(pc)
  {
    match pc
    case Load(h) =>
      if ch.luck.StoreError? then Move(Nothing, Done(StoreFailed))
      else if !Live(s.records, h, s.now) then Move(Nothing, Done(Denied))
      else if ch.luck.SealError? then Move(Nothing, Done(SealFault(ch.luck)))
      else Move(Nothing, CheckTime(h, s.records[h].value))
    case CheckTime(h, seen) =>
      if s.now >= seen.record.expires then Move(Nothing, Done(Denied))
      else Move(Nothing, CheckRevoked(h, seen, s.now))
    case CheckRevoked(h, seen, at) =>
      if ch.luck.StoreError? then Move(Nothing, Done(StoreFailed))
      else if Live(s.markers, seen.record.family, s.now) then Move(Nothing, Done(Denied))
      else Move(Nothing, Dispatch(cfg, h, seen, at))
    case FetchReply(h, id) =>
      if ch.luck.StoreError? then Move(Nothing, Done(StoreFailed))
      else if !Live(s.replies, (h, id), s.now) then Move(Nothing, Pause(h))
      else if ch.luck.SealError? then Move(Nothing, Done(SealFault(ch.luck)))
      else Move(Tell(h, s.replies[(h, id)].value), Done(Tokens(s.replies[(h, id)].value)))
    case Pause(h) => Move(Nothing, if ch.retry then Load(h) else Done(Unavailable))
  }

  function NewClaim(s: State, h: Handle, seen: Record, ch: Choice): Claim
    requires !seen.state.Rotated?
  {
    var rec := Record(seen.family, seen.expires, Claimed(seen.state.token, ch.name, s.now));
    Claim(h, Sealed(ch.nonce, rec), ch.name, seen.state.token, seen.family, seen.expires, s.now)
  }

  function ClaimTurn(s: State, pc: Pc, ch: Choice): Move
    requires Claiming(pc)
  {
    match pc
    case ClaimClock(h, seen) =>
      if seen.record.expires > s.now && HoldsToken(seen) then
        Move(Mint({ch.name}), SealClaim(NewClaim(s, h, seen.record, ch), seen, seen.record.expires - s.now))
      else Move(Nothing, Pause(h))
    case SealClaim(claim, seen, ttl) =>
      if ch.luck.SealError? then Move(Nothing, Done(SealFault(ch.luck))) else Move(Nothing, SwapClaim(claim, seen, ttl))
    case SwapClaim(claim, seen, ttl) =>
      var won := Holds(s, claim.handle, seen);
      Move(if won && TakesEffect(ch.luck) then Overwrite(claim.handle, claim.bytes, s.now + ttl + ch.slack)
           else Nothing,
           if ch.luck.StoreError? then Done(StoreFailed) else if won then Ask(claim) else Pause(claim.handle))
  }

  // ---- perform and commit ----

  function AskTurn(claim: Claim, ch: Choice): Move {
    match ch.answer
    case Unreachable => Move(Nothing, SealRelease(claim, UpstreamFailed))
    case InvalidGrant => Move(Nothing, RevokeClock(Revoking(claim.family, claim.expires, claim.handle, PassedOn)))
    case OtherError => Move(Nothing, SealRelease(claim, PassedOn))
    case NotAnObject => Move(Nothing, SealRelease(claim, UpstreamUnusable))
    case Granted(content, rotated) =>
      Move(Mint({ch.name}),
           CommitClock(claim, Offer(ch.name, if rotated.Some? then rotated.value else claim.token,
                                    Reply(ch.name, content), rotated)))
  }

  function SuccessorBirth(s: State, claim: Claim, offer: Offer): Birth {
    Birth(claim.family, claim.expires, offer.token, Some(claim.handle),
          if claim.handle in s.births then s.births[claim.handle].index + 1 else 0)
  }

  /** Before the final swap every failure leads to the clean-up. */
  function PrepareTurn(cfg: Config, s: State, pc: Pc, ch: Choice): Move
    requires Preparing(pc)
  {
    match pc
    case CommitClock(claim, offer) =>
      Move(Nothing, if claim.expires > s.now then SealReply(claim, offer, s.now) else LostCheck(claim))
    case SealReply(claim, offer, at) =>
      Move(Nothing, if ch.luck.SealError? then DropReply(claim, offer, Failed(SealFault(ch.luck)))
                    else PutReply(claim, offer, at))
    case PutReply(claim, offer, at) =>
      var ttl := Min(cfg.grace + GRACE_RESPONSE_MARGIN, Elapsed(claim.expires, at));
      if Live(s.replies, (claim.handle, claim.id), s.now) then
        Move(Nothing, DropReply(claim, offer, Failed(StoreFailed)))
      else Move(if TakesEffect(ch.luck) then WriteReply(claim.handle, claim.id, offer.reply, s.now + ttl + ch.slack)
                else Nothing,
                if ch.luck.StoreError? then DropReply(claim, offer, Failed(StoreFailed))
                else SealSuccessor(claim, offer, at))
    case SealSuccessor(claim, offer, at) =>
      Move(Nothing, if ch.luck.SealError? then DropReply(claim, offer, Failed(SealFault(ch.luck)))
                    else PutSuccessor(claim, offer, at))
    case PutSuccessor(claim, offer, at) =>
      if Live(s.records, offer.successor, s.now) then
        Move(Nothing, DropReply(claim, offer, Failed(StoreFailed)))
      else Move(if TakesEffect(ch.luck)
                then Create(offer.successor, Sealed(ch.nonce, Record(claim.family, claim.expires, Active(offer.token))),
                            s.now + Elapsed(claim.expires, at) + ch.slack, SuccessorBirth(s, claim, offer))
                else Nothing,
                if ch.luck.StoreError? then DropReply(claim, offer, Failed(StoreFailed))
                else SealTombstone(claim, offer, at))
    case SealTombstone(claim, offer, at) =>
      Move(Nothing, if ch.luck.SealError? then DropReply(claim, offer, Failed(SealFault(ch.luck)))
                    else SwapTombstone(claim, offer, at))
  }

  function NewRotation(s: State, claim: Claim, offer: Offer, at: nat): Rotation {
    Rotation(claim.id, offer.successor, offer.reply, at, offer.rotated, claim.family in s.markers)
  }

  /** From the final swap on. */
  function SettleTurn(s: State, pc: Pc, ch: Choice): Move
    requires Settling(pc)
  {
    match pc
    case SwapTombstone(claim, offer, at) =>
      var won := Holds(s, claim.handle, claim.bytes);
      var tombstone := Record(claim.family, claim.expires, Rotated(at, claim.id, offer.successor));
      Move(if won && TakesEffect(ch.luck)
           then Rotate(claim.handle, Sealed(ch.nonce, tombstone), s.now + Elapsed(claim.expires, at) + ch.slack,
                       NewRotation(s, claim, offer, at))
           else Nothing,
           if ch.luck.StoreError? then Done(StoreFailed)
           else if won then MoveHead(claim, offer, at) else DropReply(claim, offer, LostSwap))
    case MoveHead(claim, offer, at) =>
      var moved := Live(s.heads, claim.family, s.now) && s.heads[claim.family].value == claim.handle;
      Move(if moved && TakesEffect(ch.luck)
           then WriteHead(claim.family, offer.successor, s.now + Elapsed(claim.expires, at) + ch.slack) else Nothing,
           PostCheck(claim, offer))
    case PostCheck(claim, offer) =>
      if ch.luck.StoreError? then Move(Nothing, Done(StoreFailed))
      else if Live(s.markers, claim.family, s.now) then Move(Nothing, DropReply(claim, offer, Withheld))
      else Move(Tell(claim.handle, offer.reply), Done(Tokens(offer.reply)))
    case DropReply(claim, offer, why) =>
      Move(if TakesEffect(ch.luck) then RemoveReply(claim.handle, claim.id) else Nothing,
           DropSuccessor(claim, offer, why))
    case DropSuccessor(claim, offer, why) =>
      Move(if TakesEffect(ch.luck) then Remove(offer.successor) else Nothing, AfterDrop(claim, why))
    case LostCheck(claim) =>
      Move(Nothing, Done(if ch.luck.StoreError? then StoreFailed
                         else if Live(s.markers, claim.family, s.now) then Denied else Unavailable))
  }

  // ---- release ----

  function ReleaseTurn(s: State, pc: Pc, ch: Choice): Move
    requires Releasing(pc)
  {
    match pc
    case SealRelease(claim, result) =>
      Move(Nothing, if ch.luck.SealError? then Done(result) else ReleaseClock(claim, result))
    case ReleaseClock(claim, result) =>
      Move(Nothing, if claim.expires > s.now then SwapRelease(claim, claim.expires - s.now, result) else Done(result))
    case SwapRelease(claim, ttl, result) =>
      var freed := Sealed(ch.nonce, Record(claim.family, claim.expires, Active(claim.token)));
      Move(if Holds(s, claim.handle, claim.bytes) && TakesEffect(ch.luck)
           then Overwrite(claim.handle, freed, s.now + ttl + ch.slack) else Nothing,
           Done(result))
  }

  // ---- revoke and erase_tokens ----

  function RevokeTurn(s: State, pc: Pc, ch: Choice): Move
    requires Erasing(pc)
  {
    match pc
    case RevokeClock(rev) =>
      Move(Nothing, if rev.expires > s.now then PutMarker(rev, rev.expires - s.now) else Done(rev.result))
    case PutMarker(rev, ttl) =>
      Move(if !Live(s.markers, rev.family, s.now) && TakesEffect(ch.luck)
           then Mark(rev.family, s.now + ttl + ch.slack) else Nothing,
           if ch.luck.StoreError? then Done(StoreFailed) else ReadHead(rev))
    case ReadHead(rev) =>
      if ch.luck.StoreError? then Move(Nothing, Done(StoreFailed))
      else if Live(s.heads, rev.family, s.now) then
        var head := s.heads[rev.family].value;
        Move(Nothing, EraseLoad(rev, head, 0, head != rev.known))
      else Move(Nothing, EraseLoad(rev, rev.known, 0, false))
    case EraseLoad(rev, key, hops, more) =>
      if hops >= MAX_ERASE_HOPS then Move(Nothing, AfterWalk(rev, more))
      else if ch.luck.StoreError? then Move(Nothing, Done(StoreFailed))
      else if !Live(s.records, key, s.now) then Move(Nothing, AfterWalk(rev, more))
      else if ch.luck.SealError? then
        Move(Nothing, if ch.luck.unavailable then AfterWalk(rev, more) else EraseDelete(rev, key, more))
      else if HoldsToken(s.records[key].value) then Move(Nothing, EraseDelete(rev, key, more))
      else Move(Nothing, EraseLoad(rev, s.records[key].value.record.state.successor, hops + 1, more))
    case EraseDelete(rev, key, more) =>
      Move(if TakesEffect(ch.luck) then Remove(key) else Nothing,
           if ch.luck.StoreError? then Done(StoreFailed) else AfterWalk(rev, more))
  }

  /** One step of a caller at `pc`. */
  function Turn(cfg: Config, s: State, pc: Pc, ch: Choice): Move {
    if Issuing(pc) then IssueTurn(cfg, s, pc, ch)
    else if Refreshing(pc) then RefreshTurn(cfg, s, pc, ch)
    else if Claiming(pc) then ClaimTurn(s, pc, ch)
    else if Preparing(pc) then PrepareTurn(cfg, s, pc, ch)
    else if Settling(pc) then SettleTurn(s, pc, ch)
    else if Releasing(pc) then ReleaseTurn(s, pc, ch)
    else if Erasing(pc) then RevokeTurn(s, pc, ch)
    else if pc.Ask? then AskTurn(pc.claim, ch)
    else Move(Nothing, pc)
  }

  /** The tip of `f` was committed after `f` had been marked revoked. */
  predicate LateTip(s: State, f: Family) {
    && f in s.tips && s.tips[f] in s.births && s.births[s.tips[f]].parent.Some?
    && var p := s.births[s.tips[f]].parent.value; p in s.rotations && s.rotations[p].late
  }

  /** Whether removing `h` cuts a chain: a tombstone from before the marker, with a token still beyond it. */
  predicate Cuts(s: State, h: Handle) {
    && h in s.records && h in s.births && h in s.rotations && !s.rotations[h].late
    && var f := s.births[h].family; f in s.tips && s.tips[f] in s.records && !LateTip(s, f)
  }

  function RecordsAfter(s: State, e: Effect): map<Handle, Slot<Bytes>> {
    if e.Create? || e.Overwrite? || e.Rotate? then s.records[e.handle := Slot(e.bytes, e.until)]
    else if e.Remove? then s.records - {e.handle}
    else s.records
  }

  function RepliesAfter(s: State, e: Effect): map<(Handle, ClaimId), Slot<Reply>> {
    if e.WriteReply? then s.replies[(e.handle, e.id) := Slot(e.reply, e.until)]
    else if e.RemoveReply? then s.replies - {(e.handle, e.id)}
    else s.replies
  }

  function TipsAfter(s: State, e: Effect): map<Family, Handle> {
    if e.Create? && e.birth.parent.None? then s.tips[e.birth.family := e.handle]
    else if e.Rotate? then s.tips[e.bytes.record.family := e.rotation.successor]
    else s.tips
  }

  function PresentableAfter(s: State, e: Effect): set<Handle> {
    if e.Disclose? then s.presentable + {e.handle}
    else if e.Tell? then s.presentable + {e.reply.successor}
    else s.presentable
  }

  function Apply(s: State, me: CallerId, e: Effect): State {
    State(
      s.now,
      RecordsAfter(s, e),
      RepliesAfter(s, e),
      if e.WriteHead? then s.heads[e.family := Slot(e.handle, e.until)] else s.heads,
      if e.Mark? then s.markers[e.family := Slot(me, e.until)] else s.markers,
      s.callers,
      if e.Create? then s.births[e.handle := e.birth] else s.births,
      if e.Rotate? then s.rotations[e.handle := e.rotation] else s.rotations,
      TipsAfter(s, e),
      if e.Create? && e.birth.parent.None? then s.families[e.birth.family := e.birth.expires] else s.families,
      if e.Mint? then s.names + (map n | n in e.names :: me) else s.names,
      PresentableAfter(s, e),
      if e.Tell? then s.returned + {(e.handle, e.reply)} else s.returned,
      s.faulty,
      if e.Remove? && Cuts(s, e.handle) then s.cuts + {s.births[e.handle].family} else s.cuts
    )
  }

  // ---- runs ----

  datatype Event =
    | Tick(elapsed: nat)
    | Present(caller: CallerId, handle: Handle)
    | IssueFor(caller: CallerId, token: Token)
    | Act(caller: CallerId, choice: Choice)
    | Crash(caller: CallerId)

  const NOTHING_SPENT := Spent(0, 0, 0)

  /** Where the time that passes while a caller is at `pc` goes. */
  function Charge(c: Caller, d: nat): Caller {
    var sp := c.spent;
    c.(spent :=
      if c.pc.SealClaim? || c.pc.SealReply? || c.pc.SealSuccessor? || c.pc.SealTombstone? then
        sp.(sealing := sp.sealing + d)
      else if c.pc.Ask? then sp.(upstream := sp.upstream + d)
      else sp.(store := sp.store + d))
  }

  /** A client can present a handle it was given, or a string that was never issued. */
  predicate Allowed(cfg: Config, s: State, ev: Event) {
    match ev
    case Tick(_) => true
    case Present(c, h) => c !in s.callers && (h in s.presentable || h !in s.names)
    case IssueFor(c, _) => c !in s.callers
    case Act(c, ch) =>
      && c in s.callers
      && (var e := Turn(cfg, s, s.callers[c].pc, ch).effect;
          e.Mint? ==> e.names !! s.names.Keys)
      && (s.callers[c].pc.Draft? ==> ch.name != ch.family)
    case Crash(c) => c in s.callers
  }

  function AfterAct(cfg: Config, s: State, c: CallerId, ch: Choice): State
    requires c in s.callers
  {
    var caller := s.callers[c];
    var move := Turn(cfg, s, caller.pc, ch);
    var spent := if caller.pc.ClaimClock? then NOTHING_SPENT else caller.spent;
    Apply(s, c, move.effect).(callers := s.callers[c := Caller(move.next, caller.presented, caller.knew, spent)],
                              faulty := s.faulty || !ch.luck.Fine?)
  }

  function Next(cfg: Config, s: State, ev: Event): State
    requires Allowed(cfg, s, ev)
  {
    match ev
    case Tick(d) => s.(now := s.now + d, callers := map c | c in s.callers :: Charge(s.callers[c], d))
    case Present(c, h) =>
      s.(callers := s.callers[c := Caller(Load(h), Some(h), s.markers.Keys, NOTHING_SPENT)],
         names := if h in s.names then s.names else s.names[h := c],
         presentable := s.presentable + {h})
    case IssueFor(c, token) => s.(callers := s.callers[c := Caller(Draft(token), None, s.markers.Keys, NOTHING_SPENT)])
    case Act(c, ch) => AfterAct(cfg, s, c, ch)
    case Crash(c) => s.(callers := s.callers[c := s.callers[c].(pc := Done(Crashed))], faulty := true)
  }

  const INITIAL := State(0, map[], map[], map[], map[], map[], map[], map[], map[], map[], map[], {}, {}, false, {})

  predicate Possible(cfg: Config, s: State, run: seq<Event>)
    decreases |run|
  {
    run == [] || (Allowed(cfg, s, run[0]) && Possible(cfg, Next(cfg, s, run[0]), run[1..]))
  }

  /** The state a run leads to. */
  function After(cfg: Config, s: State, run: seq<Event>): State
    requires Possible(cfg, s, run)
    decreases |run|
  {
    if run == [] then s else After(cfg, Next(cfg, s, run[0]), run[1..])
  }
}
