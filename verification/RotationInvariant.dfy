/**
 What every step of the rotation protocol keeps, in rely/guarantee form.

 `Legal` says what one caller's effect may do to the store and the history. Three facts together
 give the invariant of every run: a caller's effect is legal (`TurnIsLegal`), legal effects keep
 the global facts (`LegalKeepsGlobal`), and no caller's legal effect disturbs what another caller
 relies on (`LegalIsHarmless`).
 */
module RotationInvariant {
  import opened Wrappers
  import opened RotationProtocol

  /** On the chain of its family: the root, or the successor its parent was rotated to. */
  predicate Committed(s: State, h: Handle) {
    h in s.births
    && (s.births[h].parent.Some? ==>
          var p := s.births[h].parent.value;
          p in s.rotations && s.rotations[p].successor == h)
  }

  predicate Matches(s: State, h: Handle, r: Record) {
    && h in s.births && r.family == s.births[h].family && r.expires == s.births[h].expires
    && match r.state
       case Active(t) => t == s.births[h].token
       case Claimed(t, _, _) => t == s.births[h].token
       case Rotated(at, c, succ) =>
         && h in s.rotations && s.rotations[h].rotatedAt == at
         && s.rotations[h].claim == c && s.rotations[h].successor == succ
  }

  // ---- global facts ----

  predicate RecordOk(s: State, h: Handle) {
    h in s.records ==>
      var r := s.records[h].value.record;
      && Matches(s, h, r) && s.records[h].until >= r.expires
      && (!r.state.Rotated? ==> h !in s.rotations)
      && (r.state.Claimed? ==> Committed(s, h) && h in s.presentable)
  }

  ghost predicate RecordsOk(s: State) { forall h :: RecordOk(s, h) }

  predicate BirthOk(s: State, h: Handle) {
    h in s.births ==>
      var b := s.births[h];
      && h in s.names && b.family in s.families && s.families[b.family] == b.expires
      && match b.parent
         case None => b.index == 0
         case Some(p) =>
           && Committed(s, p) && s.births[p].family == b.family && s.births[p].expires == b.expires
           && b.index == s.births[p].index + 1
  }

  ghost predicate BirthsOk(s: State) { forall h :: BirthOk(s, h) }

  predicate RotationOk(s: State, h: Handle) {
    h in s.rotations ==>
      var r := s.rotations[h];
      && Committed(s, h) && r.successor in s.births && s.births[r.successor].parent == Some(h)
      && s.births[r.successor].token == (if r.rotated.Some? then r.rotated.value else s.births[h].token)
      && r.reply.successor == r.successor
      && (r.late ==> s.births[h].family in s.markers)
  }

  ghost predicate RotationsOk(s: State) { forall h :: RotationOk(s, h) }

  predicate TipOk(s: State, f: Family) {
    && (f in s.tips <==> f in s.families) && (f in s.families ==> f in s.names)
    && (f in s.tips ==> Committed(s, s.tips[f]) && s.births[s.tips[f]].family == f && s.tips[f] !in s.rotations)
  }

  ghost predicate TipsOk(s: State) { forall f :: TipOk(s, f) }

  /** A committed handle that has not been rotated is the tip; every other one is behind it. */
  predicate BehindTip(s: State, h: Handle) {
    Committed(s, h) ==>
      var f := s.births[h].family;
      && f in s.tips && s.tips[f] in s.births
      && (h == s.tips[f] || (h in s.rotations && s.births[h].index < s.births[s.tips[f]].index))
  }

  ghost predicate AllBehindTip(s: State) { forall h :: BehindTip(s, h) }

  predicate HeadOk(s: State, f: Family) {
    f in s.heads ==>
      var h := s.heads[f].value;
      Committed(s, h) && s.births[h].family == f && s.heads[f].until >= s.births[h].expires
  }

  ghost predicate HeadsOk(s: State) { forall f :: HeadOk(s, f) }

  predicate MarkerOk(s: State, f: Family) {
    f in s.markers ==> f in s.families && s.markers[f].until >= s.families[f]
  }

  ghost predicate MarkersOk(s: State) { forall f :: MarkerOk(s, f) }

  /** The recorded response of a committed rotation is the one its caller returns. */
  predicate ReplyOk(s: State, h: Handle) {
    h in s.rotations && (h, s.rotations[h].claim) in s.replies ==>
      s.replies[(h, s.rotations[h].claim)].value == s.rotations[h].reply
  }

  ghost predicate RepliesOk(s: State) { forall h :: ReplyOk(s, h) }

  predicate DisclosedOk(s: State, h: Handle) {
    h in s.presentable ==> h in s.names && (h in s.births ==> Committed(s, h))
  }

  ghost predicate AllDisclosedOk(s: State) { forall h :: DisclosedOk(s, h) }

  predicate ReturnOk(s: State, p: (Handle, Reply)) {
    p in s.returned ==> p.0 in s.rotations && s.rotations[p.0].reply == p.1
  }

  ghost predicate ReturnsOk(s: State) { forall p :: ReturnOk(s, p) }

  /** Nothing on the chain of a family that is not marked revoked has been removed. */
  predicate KeptOk(cfg: Config, s: State, h: Handle) {
    Committed(s, h) && s.births[h].family !in s.markers ==>
      && h in s.records
      && (h in s.rotations ==>
            var r := s.rotations[h];
            && (h, r.claim) in s.replies
            && s.replies[(h, r.claim)].until >=
                 Min(r.rotatedAt + cfg.grace + GRACE_RESPONSE_MARGIN, s.births[h].expires))
  }

  ghost predicate AllKept(cfg: Config, s: State) { forall h :: KeptOk(cfg, s, h) }

  ghost predicate Global(cfg: Config, s: State) {
    && RecordsOk(s) && BirthsOk(s) && RotationsOk(s) && TipsOk(s) && AllBehindTip(s) && HeadsOk(s)
    && MarkersOk(s) && RepliesOk(s) && AllDisclosedOk(s) && ReturnsOk(s) && AllKept(cfg, s)
  }

  // ---- what a caller relies on ----

  predicate Owns(s: State, me: CallerId, n: Name) {
    n in s.names && s.names[n] == me
  }

  predicate Seen(s: State, h: Handle, b: Bytes) {
    Committed(s, h) && Matches(s, h, b.record)
  }

  predicate ClaimMade(s: State, me: CallerId, c: Claim) {
    && Committed(s, c.handle) && Owns(s, me, c.id) && Matches(s, c.handle, ClaimRecord(c))
    && c.bytes.record == ClaimRecord(c) && c.since <= s.now
  }

  predicate HasClaim(b: Bytes, id: ClaimId) {
    b.record.state.Claimed? && b.record.state.claim == id
  }

  /** The claim was won and has not been turned into a rotation. */
  predicate ClaimFits(s: State, me: CallerId, c: Claim) {
    && ClaimMade(s, me, c)
    && (c.handle in s.rotations ==> s.rotations[c.handle].claim != c.id)
    && (c.handle in s.records && HasClaim(s.records[c.handle].value, c.id) ==> s.records[c.handle].value == c.bytes)
  }

  /** The successor is this caller's own and nobody has heard of it. */
  predicate OfferFits(s: State, me: CallerId, c: Claim, o: Offer) {
    && Owns(s, me, o.successor) && o.reply.successor == o.successor
    && o.token == (if o.rotated.Some? then o.rotated.value else c.token)
    && o.successor !in s.presentable && o.successor !in s.rotations
    && (c.handle in s.rotations ==> s.rotations[c.handle].successor != o.successor)
    && (o.successor in s.births ==> s.births[o.successor] == SuccessorBirth(s, c, o))
  }

  predicate ReplyWritten(cfg: Config, s: State, c: Claim, o: Offer, at: nat) {
    && (c.handle, c.id) in s.replies && s.replies[(c.handle, c.id)].value == o.reply
    && s.replies[(c.handle, c.id)].until >= Min(at + cfg.grace + GRACE_RESPONSE_MARGIN, c.expires)
  }

  predicate SuccessorWritten(s: State, o: Offer) {
    o.successor in s.births && o.successor in s.records
  }

  predicate Settled(s: State, me: CallerId, c: Claim, o: Offer) {
    && ClaimMade(s, me, c) && Owns(s, me, o.successor)
    && c.handle in s.rotations && s.rotations[c.handle].claim == c.id
    && s.rotations[c.handle].successor == o.successor && s.rotations[c.handle].reply == o.reply
  }

  predicate RevokingFits(s: State, r: Revoking) {
    Committed(s, r.known) && s.births[r.known].family == r.family && s.births[r.known].expires == r.expires
  }

  predicate OnChain(s: State, f: Family, h: Handle) {
    Committed(s, h) && s.births[h].family == f
  }

  predicate FirstFits(s: State, me: CallerId, f: First) {
    Owns(s, me, f.handle) && Owns(s, me, f.family) && f.handle != f.family && f.expires <= s.now + f.ttl
  }

  predicate FirstUnused(s: State, f: First) {
    && f.handle !in s.births && f.handle !in s.presentable && f.handle !in s.rotations
    && f.family !in s.families && f.family !in s.markers
  }

  predicate IssueRelies(s: State, me: CallerId, pc: Pc)
    requires Issuing(pc)
  {
    if pc.Draft? then true
    else if pc.HandOver? then Committed(s, pc.handle) && s.births[pc.handle].parent.None?
    else
      && FirstFits(s, me, pc.first)
      && (!pc.PutFirstHead? ==> FirstUnused(s, pc.first))
      && (pc.PutFirstHead? ==> Committed(s, pc.first.handle) && s.births[pc.first.handle] == FirstBirth(pc.first))
  }

  predicate RefreshRelies(s: State, pc: Pc)
    requires Refreshing(pc)
  {
    && pc.handle in s.presentable
    && (pc.CheckTime? || pc.CheckRevoked? ==> Seen(s, pc.handle, pc.seen))
    && (pc.CheckRevoked? ==> pc.at <= s.now && pc.at < pc.seen.record.expires)
    && (pc.FetchReply? ==> pc.handle in s.rotations && s.rotations[pc.handle].claim == pc.id)
  }

  predicate ClaimRelies(s: State, me: CallerId, pc: Pc)
    requires Claiming(pc)
  {
    && HoldsToken(pc.seen)
    && if pc.ClaimClock? then pc.handle in s.presentable && Seen(s, pc.handle, pc.seen)
       else && pc.claim.handle in s.presentable && Seen(s, pc.claim.handle, pc.seen)
            && ClaimMade(s, me, pc.claim) && pc.claim.expires <= s.now + pc.ttl
  }

  predicate PrepareRelies(cfg: Config, s: State, me: CallerId, pc: Pc)
    requires Preparing(pc) || pc.SwapTombstone?
  {
    && ClaimFits(s, me, pc.claim) && OfferFits(s, me, pc.claim, pc.offer)
    && (pc.CommitClock? || pc.SealReply? || pc.PutReply? || pc.SealSuccessor? || pc.PutSuccessor? ==>
          pc.offer.successor !in s.births)
    && (!pc.CommitClock? ==> pc.at <= s.now && pc.at < pc.claim.expires)
    && (pc.SealSuccessor? || pc.PutSuccessor? || pc.SealTombstone? || pc.SwapTombstone? ==>
          ReplyWritten(cfg, s, pc.claim, pc.offer, pc.at))
    && (pc.SealTombstone? || pc.SwapTombstone? ==> SuccessorWritten(s, pc.offer))
  }

  predicate DropRelies(s: State, me: CallerId, pc: Pc)
    requires Dropping(pc)
  {
    if pc.why.Withheld? then Settled(s, me, pc.claim, pc.offer) && pc.claim.family in s.markers
    else ClaimFits(s, me, pc.claim) && OfferFits(s, me, pc.claim, pc.offer)
  }

  predicate RevokeRelies(s: State, pc: Pc)
    requires Erasing(pc)
  {
    && RevokingFits(s, pc.rev)
    && (pc.PutMarker? ==> pc.rev.expires <= s.now + pc.ttl)
    && (pc.ReadHead? || pc.EraseLoad? || pc.EraseDelete? ==> pc.rev.family in s.markers)
    && (pc.EraseLoad? || pc.EraseDelete? ==> OnChain(s, pc.rev.family, pc.key))
  }

  predicate HoldRelies(s: State, me: CallerId, pc: Pc)
    requires pc.Ask? || Releasing(pc) || pc.MoveHead? || pc.PostCheck? || pc.LostCheck?
  {
    if pc.LostCheck? then ClaimMade(s, me, pc.claim)
    else if pc.MoveHead? then Settled(s, me, pc.claim, pc.offer) && pc.at < pc.claim.expires && pc.at <= s.now
    else if pc.PostCheck? then Settled(s, me, pc.claim, pc.offer)
    else ClaimFits(s, me, pc.claim) && (pc.SwapRelease? ==> pc.claim.expires <= s.now + pc.ttl)
  }

  /** What a caller at `pc` relies on. */
  predicate Relies(cfg: Config, s: State, me: CallerId, pc: Pc) {
    if Issuing(pc) then IssueRelies(s, me, pc)
    else if Refreshing(pc) then RefreshRelies(s, pc)
    else if Claiming(pc) then ClaimRelies(s, me, pc)
    else if Preparing(pc) || pc.SwapTombstone? then PrepareRelies(cfg, s, me, pc)
    else if Dropping(pc) then DropRelies(s, me, pc)
    else if Erasing(pc) then RevokeRelies(s, pc)
    else if pc.Done? then true
    else HoldRelies(s, me, pc)
  }

  ghost predicate Inv(cfg: Config, s: State) {
    && Global(cfg, s)
    && forall c :: c in s.callers ==> Relies(cfg, s, c, s.callers[c].pc)
  }

  // ---- legal effects ----

  predicate LegalCreate(s: State, me: CallerId, h: Handle, bytes: Bytes, until: nat, b: Birth) {
    && Owns(s, me, h) && h !in s.births && h !in s.presentable && h !in s.rotations
    && bytes.record == Record(b.family, b.expires, Active(b.token)) && until >= b.expires
    && match b.parent
       case None => b.index == 0 && Owns(s, me, b.family) && b.family !in s.families && b.family !in s.markers
       case Some(p) =>
         && Committed(s, p) && s.births[p].family == b.family && s.births[p].expires == b.expires
         && b.index == s.births[p].index + 1
         && !(p in s.rotations && s.rotations[p].successor == h)
  }

  predicate LegalOverwrite(s: State, me: CallerId, h: Handle, bytes: Bytes, until: nat) {
    && h in s.records && HoldsToken(s.records[h].value) && HoldsToken(bytes)
    && Committed(s, h) && Matches(s, h, bytes.record) && until >= bytes.record.expires
    && (bytes.record.state.Claimed? ==> Owns(s, me, bytes.record.state.claim) && h in s.presentable)
  }

  predicate LegalRotate(cfg: Config, s: State, me: CallerId, h: Handle, bytes: Bytes, until: nat, r: Rotation) {
    && h in s.records && s.records[h].value.record.state.Claimed?
    && s.records[h].value.record.state.claim == r.claim && Owns(s, me, r.claim)
    && h in s.births && until >= s.births[h].expires
    && bytes.record == Record(s.births[h].family, s.births[h].expires, Rotated(r.rotatedAt, r.claim, r.successor))
    && r.successor in s.births && s.births[r.successor].parent == Some(h) && Owns(s, me, r.successor)
    && r.successor !in s.rotations && r.successor !in s.presentable && r.successor in s.records
    && s.births[r.successor].token == (if r.rotated.Some? then r.rotated.value else s.births[h].token)
    && r.reply.successor == r.successor
    && r.late == (s.births[h].family in s.markers)
    && (h, r.claim) in s.replies && s.replies[(h, r.claim)].value == r.reply
    && s.replies[(h, r.claim)].until >= Min(r.rotatedAt + cfg.grace + GRACE_RESPONSE_MARGIN, s.births[h].expires)
  }

  /** A caller removes its own uncommitted successor, or a chain member of a revoked family. */
  predicate LegalRemove(s: State, me: CallerId, h: Handle) {
    if Committed(s, h) then s.births[h].family in s.markers
    else Owns(s, me, h)
  }

  predicate Legal(cfg: Config, s: State, me: CallerId, e: Effect) {
    match e
    case Nothing => true
    case Mint(ns) => ns !! s.names.Keys
    case Create(h, bytes, until, b) => LegalCreate(s, me, h, bytes, until, b)
    case Overwrite(h, bytes, until) => LegalOverwrite(s, me, h, bytes, until)
    case Rotate(h, bytes, until, r) => LegalRotate(cfg, s, me, h, bytes, until, r)
    case Remove(h) => LegalRemove(s, me, h)
    case WriteReply(h, id, _, _) =>
      Owns(s, me, id) && (h in s.rotations ==> s.rotations[h].claim != id)
    case RemoveReply(h, id) =>
      && Owns(s, me, id)
      && (h in s.rotations && s.rotations[h].claim == id ==> h in s.births && s.births[h].family in s.markers)
    case WriteHead(f, h, until) => OnChain(s, f, h) && until >= s.births[h].expires
    case Mark(f, until) => f in s.families && until >= s.families[f]
    case Disclose(h) => Committed(s, h)
    case Tell(h, reply) => h in s.rotations && s.rotations[h].reply == reply
  }

  // ---- legal effects keep the global facts ----

  lemma RotateFacts(cfg: Config, s: State, me: CallerId, e: Effect)
    requires Global(cfg, s) && e.Rotate? && Legal(cfg, s, me, e)
    ensures e.handle !in s.rotations && Committed(s, e.handle)
    ensures s.births[e.handle].family in s.tips && e.handle == s.tips[s.births[e.handle].family]
    ensures s.births[e.rotation.successor].family == s.births[e.handle].family
    ensures s.births[e.rotation.successor].index == s.births[e.handle].index + 1
  {
    assert RecordOk(s, e.handle) && BehindTip(s, e.handle) && BirthOk(s, e.rotation.successor);
  }

  /** A legal effect commits at most one more handle and never takes one back. */
  lemma ChainGrows(cfg: Config, s: State, me: CallerId, e: Effect, h: Handle)
    requires Global(cfg, s) && Legal(cfg, s, me, e)
    ensures var s' := Apply(s, me, e);
      && (Committed(s, h) ==> Committed(s', h) && s'.births[h] == s.births[h])
      && (Committed(s', h) && !Committed(s, h) ==>
            (e.Rotate? && h == e.rotation.successor) || (e.Create? && h == e.handle && e.birth.parent.None?))
      && (h in s.births ==> h in s'.births && s'.births[h] == s.births[h])
      && (h in s.rotations ==> h in s'.rotations && s'.rotations[h] == s.rotations[h])
      && (h in s'.rotations && h !in s.rotations ==> e.Rotate? && h == e.handle)
  {
    assert BirthOk(s, h);
    if e.Rotate? { RotateFacts(cfg, s, me, e); }
  }

  lemma RecordStays(cfg: Config, s: State, me: CallerId, e: Effect, h: Handle)
    requires Global(cfg, s) && Legal(cfg, s, me, e)
    ensures RecordOk(Apply(s, me, e), h)
  {
    ChainGrows(cfg, s, me, e, h);
    assert RecordOk(s, h);
    if e.Rotate? { RotateFacts(cfg, s, me, e); }
  }

  lemma BirthStays(cfg: Config, s: State, me: CallerId, e: Effect, h: Handle)
    requires Global(cfg, s) && Legal(cfg, s, me, e)
    ensures BirthOk(Apply(s, me, e), h)
  {
    ChainGrows(cfg, s, me, e, h);
    assert BirthOk(s, h);
    if e.Create? && e.birth.parent.Some? {
      ChainGrows(cfg, s, me, e, e.birth.parent.value);
      assert BirthOk(s, e.birth.parent.value);
    }
    if h in s.births && s.births[h].parent.Some? { ChainGrows(cfg, s, me, e, s.births[h].parent.value); }
  }

  lemma RotationStays(cfg: Config, s: State, me: CallerId, e: Effect, h: Handle)
    requires Global(cfg, s) && Legal(cfg, s, me, e)
    ensures RotationOk(Apply(s, me, e), h)
  {
    ChainGrows(cfg, s, me, e, h);
    assert RotationOk(s, h);
    if h in s.rotations { ChainGrows(cfg, s, me, e, s.rotations[h].successor); }
    if e.Rotate? { RotateFacts(cfg, s, me, e); }
  }

  lemma TipStays(cfg: Config, s: State, me: CallerId, e: Effect, f: Family)
    requires Global(cfg, s) && Legal(cfg, s, me, e)
    ensures TipOk(Apply(s, me, e), f)
  {
    if e.Rotate? {
      TipMoves(cfg, s, me, e, f);
    } else if e.Create? {
      TipIsBorn(cfg, s, me, e, f);
    } else {
      assert TipOk(s, f);
      var s' := Apply(s, me, e);
      assert s'.tips == s.tips && s'.families == s.families && s'.rotations == s.rotations && s'.births == s.births;
    }
  }

  lemma TipMoves(cfg: Config, s: State, me: CallerId, e: Effect, f: Family)
    requires Global(cfg, s) && LegalRotates(cfg, s, me, e)
    ensures TipOk(Apply(s, me, e), f)
  {
    assert TipOk(s, f);
    RotateFacts(cfg, s, me, e);
    var s' := Apply(s, me, e);
    if f in s'.tips { ChainGrows(cfg, s, me, e, s'.tips[f]); }
  }

  predicate LegalRotates(cfg: Config, s: State, me: CallerId, e: Effect) { e.Rotate? && Legal(cfg, s, me, e) }

  lemma TipIsBorn(cfg: Config, s: State, me: CallerId, e: Effect, f: Family)
    requires Global(cfg, s) && e.Create? && LegalCreate(s, me, e.handle, e.bytes, e.until, e.birth)
    ensures TipOk(Apply(s, me, e), f)
  {
    assert TipOk(s, f);
    var s' := Apply(s, me, e);
    assert s'.rotations == s.rotations && s'.births == s.births[e.handle := e.birth];
    if f in s.tips { assert BirthOk(s, s.tips[f]); }
  }

  lemma StaysBehindTip(cfg: Config, s: State, me: CallerId, e: Effect, h: Handle)
    requires Global(cfg, s) && Legal(cfg, s, me, e)
    ensures BehindTip(Apply(s, me, e), h)
  {
    ChainGrows(cfg, s, me, e, h);
    assert BehindTip(s, h) && BirthOk(s, h);
    if e.Rotate? { RotateFacts(cfg, s, me, e); }
    if Committed(s, h) { assert TipOk(s, s.births[h].family); }
  }

  lemma HeadStays(cfg: Config, s: State, me: CallerId, e: Effect, f: Family)
    requires Global(cfg, s) && Legal(cfg, s, me, e)
    ensures HeadOk(Apply(s, me, e), f)
  {
    assert HeadOk(s, f);
    var s' := Apply(s, me, e);
    if f in s'.heads {
      ChainGrows(cfg, s, me, e, s'.heads[f].value);
      if e.WriteHead? { assert OnChain(s, e.family, e.handle); }
    }
  }

  lemma MarkerStays(cfg: Config, s: State, me: CallerId, e: Effect, f: Family)
    requires Global(cfg, s) && Legal(cfg, s, me, e)
    ensures MarkerOk(Apply(s, me, e), f)
  {
    assert MarkerOk(s, f);
  }

  lemma ReplyStays(cfg: Config, s: State, me: CallerId, e: Effect, h: Handle)
    requires Global(cfg, s) && Legal(cfg, s, me, e)
    ensures ReplyOk(Apply(s, me, e), h)
  {
    ChainGrows(cfg, s, me, e, h);
    assert ReplyOk(s, h);
  }

  lemma DisclosureStays(cfg: Config, s: State, me: CallerId, e: Effect, h: Handle)
    requires Global(cfg, s) && Legal(cfg, s, me, e)
    ensures DisclosedOk(Apply(s, me, e), h)
  {
    ChainGrows(cfg, s, me, e, h);
    assert DisclosedOk(s, h) && BirthOk(s, h);
    if e.Tell? { assert RotationOk(s, e.handle); }
  }

  lemma ReturnStays(cfg: Config, s: State, me: CallerId, e: Effect, p: (Handle, Reply))
    requires Global(cfg, s) && Legal(cfg, s, me, e)
    ensures ReturnOk(Apply(s, me, e), p)
  {
    assert ReturnOk(s, p);
    ChainGrows(cfg, s, me, e, p.0);
  }

  lemma KeptStays(cfg: Config, s: State, me: CallerId, e: Effect, h: Handle)
    requires Global(cfg, s) && Legal(cfg, s, me, e)
    ensures KeptOk(cfg, Apply(s, me, e), h)
  {
    ChainGrows(cfg, s, me, e, h);
    assert KeptOk(cfg, s, h);
    if e.Rotate? { RotateFacts(cfg, s, me, e); }
  }

  lemma LegalKeepsGlobal(cfg: Config, s: State, me: CallerId, e: Effect)
    requires Global(cfg, s) && Legal(cfg, s, me, e)
    ensures Global(cfg, Apply(s, me, e))
  {
    var s' := Apply(s, me, e);
    forall h ensures RecordOk(s', h) { RecordStays(cfg, s, me, e, h); }
    forall h ensures BirthOk(s', h) { BirthStays(cfg, s, me, e, h); }
    forall h ensures RotationOk(s', h) { RotationStays(cfg, s, me, e, h); }
    forall f ensures TipOk(s', f) { TipStays(cfg, s, me, e, f); }
    forall h ensures BehindTip(s', h) { StaysBehindTip(cfg, s, me, e, h); }
    forall f ensures HeadOk(s', f) { HeadStays(cfg, s, me, e, f); }
    forall f ensures MarkerOk(s', f) { MarkerStays(cfg, s, me, e, f); }
    forall h ensures ReplyOk(s', h) { ReplyStays(cfg, s, me, e, h); }
    forall h ensures DisclosedOk(s', h) { DisclosureStays(cfg, s, me, e, h); }
    forall p ensures ReturnOk(s', p) { ReturnStays(cfg, s, me, e, p); }
    forall h ensures KeptOk(cfg, s', h) { KeptStays(cfg, s, me, e, h); }
  }

  // ---- no legal effect disturbs what another caller relies on ----

  lemma SeenStays(cfg: Config, s: State, me: CallerId, e: Effect, h: Handle, r: Record)
    requires Global(cfg, s) && Legal(cfg, s, me, e) && Committed(s, h) && Matches(s, h, r)
    ensures Committed(Apply(s, me, e), h) && Matches(Apply(s, me, e), h, r)
  {
    ChainGrows(cfg, s, me, e, h);
  }

  lemma OwnershipStays(cfg: Config, s: State, me: CallerId, e: Effect, you: CallerId, n: Name)
    requires Legal(cfg, s, me, e) && Owns(s, you, n)
    ensures Owns(Apply(s, me, e), you, n)
  {
  }

  /** Claims with equal bytes are of one caller: a swap from a claim of its own matches nobody else's. */
  lemma ClaimBytesAreOwn(s: State, a: CallerId, b: CallerId, c: Claim, d: Claim)
    requires ClaimMade(s, a, c) && ClaimMade(s, b, d) && c.bytes == d.bytes
    ensures a == b
  {
    assert ClaimRecord(c) == ClaimRecord(d);
  }

  lemma ClaimMadeStays(cfg: Config, s: State, me: CallerId, e: Effect, you: CallerId, c: Claim)
    requires Global(cfg, s) && Legal(cfg, s, me, e) && ClaimMade(s, you, c)
    ensures ClaimMade(Apply(s, me, e), you, c)
  {
    SeenStays(cfg, s, me, e, c.handle, ClaimRecord(c));
    OwnershipStays(cfg, s, me, e, you, c.id);
  }

  lemma ClaimFitsStays(cfg: Config, s: State, me: CallerId, e: Effect, you: CallerId, c: Claim)
    requires Global(cfg, s) && Legal(cfg, s, me, e) && me != you && ClaimFits(s, you, c)
    ensures ClaimFits(Apply(s, me, e), you, c)
  {
    ClaimMadeStays(cfg, s, me, e, you, c);
    if e.Rotate? { RotateFacts(cfg, s, me, e); }
  }

  lemma OfferIsUncommitted(s: State, you: CallerId, c: Claim, o: Offer)
    requires RotationsOk(s) && OfferFits(s, you, c, o)
    ensures !Committed(s, o.successor)
    ensures forall h :: h in s.rotations ==> s.rotations[h].successor != o.successor
  {
    forall h | h in s.rotations ensures s.rotations[h].successor != o.successor { assert RotationOk(s, h); }
  }

  lemma OfferFitsStays(cfg: Config, s: State, me: CallerId, e: Effect, you: CallerId, c: Claim, o: Offer)
    requires Global(cfg, s) && Legal(cfg, s, me, e) && me != you && ClaimMade(s, you, c) && OfferFits(s, you, c, o)
    ensures OfferFits(Apply(s, me, e), you, c, o)
    ensures SuccessorWritten(s, o) ==> SuccessorWritten(Apply(s, me, e), o)
    ensures o.successor !in s.births ==> o.successor !in Apply(s, me, e).births
  {
    OfferIsUncommitted(s, you, c, o);
    OwnershipStays(cfg, s, me, e, you, o.successor);
    ChainGrows(cfg, s, me, e, c.handle);
    if e.Rotate? { RotateFacts(cfg, s, me, e); }
    assert e.Tell? ==> RotationOk(s, e.handle);
  }

  lemma ReplyWrittenStays(cfg: Config, s: State, me: CallerId, e: Effect, you: CallerId, c: Claim, o: Offer, at: nat)
    requires Legal(cfg, s, me, e) && me != you && Owns(s, you, c.id) && ReplyWritten(cfg, s, c, o, at)
    ensures ReplyWritten(cfg, Apply(s, me, e), c, o, at)
  {
  }

  lemma SettledStays(cfg: Config, s: State, me: CallerId, e: Effect, you: CallerId, c: Claim, o: Offer)
    requires Global(cfg, s) && Legal(cfg, s, me, e) && Settled(s, you, c, o)
    ensures Settled(Apply(s, me, e), you, c, o)
  {
    ClaimMadeStays(cfg, s, me, e, you, c);
    OwnershipStays(cfg, s, me, e, you, o.successor);
    ChainGrows(cfg, s, me, e, c.handle);
  }

  lemma OnChainStays(cfg: Config, s: State, me: CallerId, e: Effect, f: Family, h: Handle)
    requires Global(cfg, s) && Legal(cfg, s, me, e) && OnChain(s, f, h)
    ensures OnChain(Apply(s, me, e), f, h) && Apply(s, me, e).births[h] == s.births[h]
  {
    ChainGrows(cfg, s, me, e, h);
  }

  lemma FirstStays(cfg: Config, s: State, me: CallerId, e: Effect, you: CallerId, f: First)
    requires Global(cfg, s) && Legal(cfg, s, me, e) && me != you && FirstFits(s, you, f)
    ensures FirstFits(Apply(s, me, e), you, f)
    ensures FirstUnused(s, f) ==> FirstUnused(Apply(s, me, e), f)
  {
    OwnershipStays(cfg, s, me, e, you, f.handle);
    OwnershipStays(cfg, s, me, e, you, f.family);
    assert e.Rotate? ==> RecordOk(s, e.handle);
    assert e.Tell? ==> RotationOk(s, e.handle);
  }

  lemma IssueRelianceStays(cfg: Config, s: State, me: CallerId, e: Effect, you: CallerId, pc: Pc)
    requires Global(cfg, s) && Legal(cfg, s, me, e) && me != you && Issuing(pc) && IssueRelies(s, you, pc)
    ensures IssueRelies(Apply(s, me, e), you, pc)
  {
    if pc.HandOver? {
      ChainGrows(cfg, s, me, e, pc.handle);
    } else if !pc.Draft? {
      FirstStays(cfg, s, me, e, you, pc.first);
      ChainGrows(cfg, s, me, e, pc.first.handle);
    }
  }

  lemma RefreshRelianceStays(cfg: Config, s: State, me: CallerId, e: Effect, pc: Pc)
    requires Global(cfg, s) && Legal(cfg, s, me, e) && Refreshing(pc) && RefreshRelies(s, pc)
    ensures RefreshRelies(Apply(s, me, e), pc)
  {
    if pc.CheckTime? || pc.CheckRevoked? {
      SeenStays(cfg, s, me, e, pc.handle, pc.seen.record);
    } else if pc.FetchReply? {
      ChainGrows(cfg, s, me, e, pc.handle);
    }
  }

  lemma ClaimRelianceStays(cfg: Config, s: State, me: CallerId, e: Effect, you: CallerId, pc: Pc)
    requires Global(cfg, s) && Legal(cfg, s, me, e) && me != you && Claiming(pc) && ClaimRelies(s, you, pc)
    ensures ClaimRelies(Apply(s, me, e), you, pc)
  {
    if pc.ClaimClock? {
      SeenStays(cfg, s, me, e, pc.handle, pc.seen.record);
    } else {
      SeenStays(cfg, s, me, e, pc.claim.handle, pc.seen.record);
      ClaimMadeStays(cfg, s, me, e, you, pc.claim);
    }
  }

  lemma CommitRelianceStays(cfg: Config, s: State, me: CallerId, e: Effect, you: CallerId, pc: Pc)
    requires Global(cfg, s) && Legal(cfg, s, me, e) && me != you
    requires (Preparing(pc) || pc.SwapTombstone?) && PrepareRelies(cfg, s, you, pc)
    ensures PrepareRelies(cfg, Apply(s, me, e), you, pc)
  {
    ClaimFitsStays(cfg, s, me, e, you, pc.claim);
    OfferFitsStays(cfg, s, me, e, you, pc.claim, pc.offer);
    if !pc.CommitClock? && ReplyWritten(cfg, s, pc.claim, pc.offer, pc.at) {
      ReplyWrittenStays(cfg, s, me, e, you, pc.claim, pc.offer, pc.at);
    }
  }

  lemma DropRelianceStays(cfg: Config, s: State, me: CallerId, e: Effect, you: CallerId, pc: Pc)
    requires Global(cfg, s) && Legal(cfg, s, me, e) && me != you && Dropping(pc) && DropRelies(s, you, pc)
    ensures DropRelies(Apply(s, me, e), you, pc)
  {
    if pc.why.Withheld? {
      SettledStays(cfg, s, me, e, you, pc.claim, pc.offer);
    } else {
      ClaimFitsStays(cfg, s, me, e, you, pc.claim);
      OfferFitsStays(cfg, s, me, e, you, pc.claim, pc.offer);
    }
  }

  lemma RevokeRelianceStays(cfg: Config, s: State, me: CallerId, e: Effect, pc: Pc)
    requires Global(cfg, s) && Legal(cfg, s, me, e) && Erasing(pc) && RevokeRelies(s, pc)
    ensures RevokeRelies(Apply(s, me, e), pc)
  {
    OnChainStays(cfg, s, me, e, pc.rev.family, pc.rev.known);
    if pc.EraseLoad? || pc.EraseDelete? { OnChainStays(cfg, s, me, e, pc.rev.family, pc.key); }
  }

  lemma HoldRelianceStays(cfg: Config, s: State, me: CallerId, e: Effect, you: CallerId, pc: Pc)
    requires Global(cfg, s) && Legal(cfg, s, me, e) && me != you
    requires (pc.Ask? || Releasing(pc) || pc.MoveHead? || pc.PostCheck? || pc.LostCheck?) && HoldRelies(s, you, pc)
    ensures HoldRelies(Apply(s, me, e), you, pc)
  {
    if pc.LostCheck? {
      ClaimMadeStays(cfg, s, me, e, you, pc.claim);
    } else if pc.MoveHead? || pc.PostCheck? {
      SettledStays(cfg, s, me, e, you, pc.claim, pc.offer);
    } else {
      ClaimFitsStays(cfg, s, me, e, you, pc.claim);
    }
  }

  /** Whatever one caller legally does, the others can go on relying on what they relied on. */
  lemma LegalIsHarmless(cfg: Config, s: State, me: CallerId, e: Effect, you: CallerId, pc: Pc)
    requires Global(cfg, s) && Legal(cfg, s, me, e) && me != you && Relies(cfg, s, you, pc)
    ensures Relies(cfg, Apply(s, me, e), you, pc)
  {
    if Issuing(pc) { IssueRelianceStays(cfg, s, me, e, you, pc); }
    else if Refreshing(pc) { RefreshRelianceStays(cfg, s, me, e, pc); }
    else if Claiming(pc) { ClaimRelianceStays(cfg, s, me, e, you, pc); }
    else if Preparing(pc) || pc.SwapTombstone? { CommitRelianceStays(cfg, s, me, e, you, pc); }
    else if Dropping(pc) { DropRelianceStays(cfg, s, me, e, you, pc); }
    else if Erasing(pc) { RevokeRelianceStays(cfg, s, me, e, pc); }
    else if !pc.Done? { HoldRelianceStays(cfg, s, me, e, you, pc); }
  }

  // ---- a caller's own step is legal and leaves it with what it relies on next ----

  ghost predicate TurnOk(cfg: Config, s: State, me: CallerId, m: Move) {
    Legal(cfg, s, me, m.effect) && Relies(cfg, Apply(s, me, m.effect), me, m.next)
  }

  lemma NothingChanges(s: State, me: CallerId)
    ensures Apply(s, me, Nothing) == s
  {
  }

  predicate MintsFresh(s: State, e: Effect) {
    e.Mint? ==> e.names !! s.names.Keys
  }

  lemma PutFirstOk(cfg: Config, s: State, me: CallerId, pc: Pc, ch: Choice)
    requires RecordsOk(s) && pc.PutFirst? && IssueRelies(s, me, pc)
    ensures TurnOk(cfg, s, me, IssueTurn(cfg, s, pc, ch))
  {
    NothingChanges(s, me);
    assert RecordOk(s, pc.first.handle);
    var m := IssueTurn(cfg, s, pc, ch);
    if m.next.PutFirstHead? {
      assert FirstFits(Apply(s, me, m.effect), me, pc.first);
    } else {
      assert m.next.Done?;
    }
  }

  lemma DraftOk(cfg: Config, s: State, me: CallerId, pc: Pc, ch: Choice)
    requires Global(cfg, s) && pc.Draft? && ch.name != ch.family && MintsFresh(s, IssueTurn(cfg, s, pc, ch).effect)
    ensures TurnOk(cfg, s, me, IssueTurn(cfg, s, pc, ch))
  {
    NothingChanges(s, me);
    assert BirthOk(s, ch.name) && DisclosedOk(s, ch.name) && RotationOk(s, ch.name);
    assert TipOk(s, ch.family) && MarkerOk(s, ch.family);
  }

  lemma PutFirstHeadOk(cfg: Config, s: State, me: CallerId, pc: Pc, ch: Choice)
    requires pc.PutFirstHead? && IssueRelies(s, me, pc)
    ensures TurnOk(cfg, s, me, IssueTurn(cfg, s, pc, ch))
  {
    NothingChanges(s, me);
    var m := IssueTurn(cfg, s, pc, ch);
    assert m.next.Done? || m.next == HandOver(pc.first.handle);
  }

  lemma IssueTurnOk(cfg: Config, s: State, me: CallerId, pc: Pc, ch: Choice)
    requires Global(cfg, s) && Issuing(pc) && IssueRelies(s, me, pc)
    requires MintsFresh(s, IssueTurn(cfg, s, pc, ch).effect) && (pc.Draft? ==> ch.name != ch.family)
    ensures TurnOk(cfg, s, me, IssueTurn(cfg, s, pc, ch))
  {
    NothingChanges(s, me);
    if pc.Draft? {
      DraftOk(cfg, s, me, pc, ch);
    } else if pc.PutFirst? {
      PutFirstOk(cfg, s, me, pc, ch);
    } else if pc.PutFirstHead? {
      PutFirstHeadOk(cfg, s, me, pc, ch);
    } else {
    }
  }

  lemma RefreshTurnOk(cfg: Config, s: State, me: CallerId, pc: Pc, ch: Choice)
    requires RecordsOk(s) && AllDisclosedOk(s) && RepliesOk(s) && Refreshing(pc) && RefreshRelies(s, pc)
    ensures TurnOk(cfg, s, me, RefreshTurn(cfg, s, pc, ch))
  {
    NothingChanges(s, me);
    var m := RefreshTurn(cfg, s, pc, ch);
    if m.next.Done? {
      if pc.FetchReply? { assert ReplyOk(s, pc.handle); }
    } else if pc.Load? {
      assert DisclosedOk(s, pc.handle) && RecordOk(s, pc.handle);
    } else if pc.CheckRevoked? {
      DispatchOk(cfg, s, me, pc.handle, pc.seen, pc.at);
    } else {
    }
  }

  lemma DispatchOk(cfg: Config, s: State, me: CallerId, h: Handle, seen: Bytes, at: nat)
    requires Seen(s, h, seen) && h in s.presentable
    ensures Relies(cfg, s, me, Dispatch(cfg, h, seen, at))
  {
    match seen.record.state {
      case Active(_) =>
      case Claimed(_, _, _) =>
      case Rotated(_, _, _) =>
    }
  }

  lemma ClaimClockOk(cfg: Config, s: State, me: CallerId, pc: Pc, ch: Choice)
    requires pc.ClaimClock? && ClaimRelies(s, me, pc) && MintsFresh(s, ClaimTurn(s, pc, ch).effect)
    ensures TurnOk(cfg, s, me, ClaimTurn(s, pc, ch))
  {
    NothingChanges(s, me);
    var m := ClaimTurn(s, pc, ch);
    if m.next.SealClaim? {
      assert ClaimMade(Apply(s, me, m.effect), me, m.next.claim);
    } else {
      assert m.next == Pause(pc.handle);
    }
  }

  lemma ClaimTurnOk(cfg: Config, s: State, me: CallerId, pc: Pc, ch: Choice)
    requires RecordsOk(s) && AllDisclosedOk(s) && Claiming(pc) && ClaimRelies(s, me, pc)
    requires MintsFresh(s, ClaimTurn(s, pc, ch).effect)
    ensures TurnOk(cfg, s, me, ClaimTurn(s, pc, ch))
  {
    NothingChanges(s, me);
    if pc.ClaimClock? {
      ClaimClockOk(cfg, s, me, pc, ch);
    } else if pc.SealClaim? {
    } else {
      SwapClaimOk(cfg, s, me, pc, ch);
    }
  }

  lemma SwapClaimOk(cfg: Config, s: State, me: CallerId, pc: Pc, ch: Choice)
    requires RecordsOk(s) && AllDisclosedOk(s) && pc.SwapClaim? && ClaimRelies(s, me, pc)
    ensures TurnOk(cfg, s, me, ClaimTurn(s, pc, ch))
  {
    NothingChanges(s, me);
    assert RecordOk(s, pc.claim.handle) && DisclosedOk(s, pc.claim.handle);
    var m := ClaimTurn(s, pc, ch);
    if m.effect.Nothing? {
      assert !m.next.Ask?;
    } else {
      assert LegalOverwrite(s, me, m.effect.handle, m.effect.bytes, m.effect.until);
      if !ch.luck.StoreError? {
        assert m.next == Ask(pc.claim);
        assert ClaimFits(Apply(s, me, m.effect), me, pc.claim);
      }
    }
  }

  lemma GrantedOk(cfg: Config, s: State, me: CallerId, claim: Claim, ch: Choice)
    requires BirthsOk(s) && RotationsOk(s) && AllDisclosedOk(s) && ClaimFits(s, me, claim)
    requires ch.answer.Granted? && MintsFresh(s, AskTurn(claim, ch).effect)
    ensures TurnOk(cfg, s, me, AskTurn(claim, ch))
  {
    assert BirthOk(s, ch.name) && DisclosedOk(s, ch.name) && RotationOk(s, ch.name);
    if claim.handle in s.rotations {
      assert RotationOk(s, claim.handle) && BirthOk(s, s.rotations[claim.handle].successor);
    }
    var m := AskTurn(claim, ch);
    var s' := Apply(s, me, m.effect);
    assert ClaimFits(s', me, claim) && OfferFits(s', me, claim, m.next.offer);
  }

  lemma AskTurnOk(cfg: Config, s: State, me: CallerId, claim: Claim, ch: Choice)
    requires BirthsOk(s) && RotationsOk(s) && AllDisclosedOk(s) && ClaimFits(s, me, claim)
    requires MintsFresh(s, AskTurn(claim, ch).effect)
    ensures TurnOk(cfg, s, me, AskTurn(claim, ch))
  {
    NothingChanges(s, me);
    if ch.answer.Granted? {
      GrantedOk(cfg, s, me, claim, ch);
    } else if ch.answer.InvalidGrant? {
    } else {
    }
  }

  lemma PutReplyOk(cfg: Config, s: State, me: CallerId, pc: Pc, ch: Choice)
    requires pc.PutReply? && PrepareRelies(cfg, s, me, pc)
    ensures TurnOk(cfg, s, me, PrepareTurn(cfg, s, pc, ch))
  {
    NothingChanges(s, me);
    var m := PrepareTurn(cfg, s, pc, ch);
    if m.effect.Nothing? {
      assert m.next == DropReply(pc.claim, pc.offer, Failed(StoreFailed));
    } else {
      var s' := Apply(s, me, m.effect);
      assert ClaimFits(s', me, pc.claim) && OfferFits(s', me, pc.claim, pc.offer);
      if ch.luck.StoreError? {
      } else {
        assert m.next == SealSuccessor(pc.claim, pc.offer, pc.at);
      }
    }
  }

  lemma SuccessorPutOk(cfg: Config, s: State, me: CallerId, pc: Pc, e: Effect)
    requires RotationsOk(s) && pc.PutSuccessor? && PrepareRelies(cfg, s, me, pc) && e.Create?
    requires e.handle == pc.offer.successor && e.birth == SuccessorBirth(s, pc.claim, pc.offer) &&
      e.until >= pc.claim.expires
    requires e.bytes.record == Record(pc.claim.family, pc.claim.expires, Active(pc.offer.token))
    ensures Legal(cfg, s, me, e)
    ensures var s' := Apply(s, me, e);
      && ClaimFits(s', me, pc.claim) && OfferFits(s', me, pc.claim, pc.offer) && SuccessorWritten(s', pc.offer)
      && ReplyWritten(cfg, s', pc.claim, pc.offer, pc.at)
  {
    OfferIsUncommitted(s, me, pc.claim, pc.offer);
  }

  lemma PutSuccessorOk(cfg: Config, s: State, me: CallerId, pc: Pc, ch: Choice)
    requires RecordsOk(s) && RotationsOk(s) && pc.PutSuccessor? && PrepareRelies(cfg, s, me, pc)
    ensures TurnOk(cfg, s, me, PrepareTurn(cfg, s, pc, ch))
  {
    NothingChanges(s, me);
    assert RecordOk(s, pc.offer.successor);
    var m := PrepareTurn(cfg, s, pc, ch);
    if m.effect.Nothing? {
      assert m.next == DropReply(pc.claim, pc.offer, Failed(StoreFailed));
    } else {
      SuccessorPutOk(cfg, s, me, pc, m.effect);
      assert m.next == DropReply(pc.claim, pc.offer, Failed(StoreFailed)) ||
        m.next == SealTombstone(pc.claim, pc.offer, pc.at);
    }
  }

  lemma PrepareTurnOk(cfg: Config, s: State, me: CallerId, pc: Pc, ch: Choice)
    requires Global(cfg, s) && Preparing(pc) && PrepareRelies(cfg, s, me, pc)
    ensures TurnOk(cfg, s, me, PrepareTurn(cfg, s, pc, ch))
  {
    NothingChanges(s, me);
    if pc.PutReply? {
      PutReplyOk(cfg, s, me, pc, ch);
    } else if pc.PutSuccessor? {
      PutSuccessorOk(cfg, s, me, pc, ch);
    } else if pc.CommitClock? {
      CommitClockOk(cfg, s, me, pc, ch);
    } else {
      PrepareIdlyOk(cfg, s, me, pc, ch);
    }
  }

  lemma CommitClockOk(cfg: Config, s: State, me: CallerId, pc: Pc, ch: Choice)
    requires pc.CommitClock? && PrepareRelies(cfg, s, me, pc)
    ensures TurnOk(cfg, s, me, PrepareTurn(cfg, s, pc, ch))
  {
    NothingChanges(s, me);
  }

  /** A step that only seals goes on, or to the clean-up. */
  lemma PrepareIdlyOk(cfg: Config, s: State, me: CallerId, pc: Pc, ch: Choice)
    requires (pc.SealReply? || pc.SealSuccessor? || pc.SealTombstone?) && PrepareRelies(cfg, s, me, pc)
    ensures TurnOk(cfg, s, me, PrepareTurn(cfg, s, pc, ch))
  {
    NothingChanges(s, me);
    var m := PrepareTurn(cfg, s, pc, ch);
    if m.next.DropReply? {
      assert DropRelies(s, me, m.next);
    } else {
      assert PrepareRelies(cfg, s, me, m.next);
    }
  }

  lemma SwapTombstoneOk(cfg: Config, s: State, me: CallerId, pc: Pc, ch: Choice)
    requires RecordsOk(s) && pc.SwapTombstone? && PrepareRelies(cfg, s, me, pc)
    ensures TurnOk(cfg, s, me, SettleTurn(s, pc, ch))
  {
    NothingChanges(s, me);
    assert RecordOk(s, pc.claim.handle);
    var m := SettleTurn(s, pc, ch);
    if m.effect.Nothing? {
      assert !m.next.MoveHead?;
    } else {
      var e := m.effect;
      assert LegalRotate(cfg, s, me, e.handle, e.bytes, e.until, e.rotation);
      if !ch.luck.StoreError? {
        assert m.next == MoveHead(pc.claim, pc.offer, pc.at);
        assert Settled(Apply(s, me, e), me, pc.claim, pc.offer);
      }
    }
  }

  lemma WithheldTurnOk(cfg: Config, s: State, me: CallerId, pc: Pc, ch: Choice)
    requires RotationsOk(s) && BirthsOk(s) && Dropping(pc) && pc.why.Withheld? && DropRelies(s, me, pc)
    ensures TurnOk(cfg, s, me, SettleTurn(s, pc, ch))
  {
    var m := SettleTurn(s, pc, ch);
    SettledIsCommitted(s, me, pc.claim, pc.offer);
    assert Settled(Apply(s, me, m.effect), me, pc.claim, pc.offer);
    if pc.DropReply? {
      assert m.next == DropSuccessor(pc.claim, pc.offer, pc.why);
    } else {
      assert m.next == Done(Denied);
    }
  }

  lemma DropTurnOk(cfg: Config, s: State, me: CallerId, pc: Pc, ch: Choice)
    requires RotationsOk(s) && BirthsOk(s) && Dropping(pc) && DropRelies(s, me, pc)
    ensures TurnOk(cfg, s, me, SettleTurn(s, pc, ch))
  {
    if pc.why.Withheld? {
      WithheldTurnOk(cfg, s, me, pc, ch);
    } else {
      CleanUpTurnOk(cfg, s, me, pc, ch);
    }
  }

  lemma CleanUpTurnOk(cfg: Config, s: State, me: CallerId, pc: Pc, ch: Choice)
    requires RotationsOk(s) && BirthsOk(s) && Dropping(pc) && DropRelies(s, me, pc) && !pc.why.Withheld?
    ensures TurnOk(cfg, s, me, SettleTurn(s, pc, ch))
  {
    var m := SettleTurn(s, pc, ch);
    var s' := Apply(s, me, m.effect);
    OfferIsUncommitted(s, me, pc.claim, pc.offer);
    assert ClaimFits(s', me, pc.claim) && OfferFits(s', me, pc.claim, pc.offer);
    if pc.DropReply? {
      assert m.next == DropSuccessor(pc.claim, pc.offer, pc.why);
    } else {
      assert m.next == AfterDrop(pc.claim, pc.why);
    }
  }

  lemma SettledIsCommitted(s: State, me: CallerId, c: Claim, o: Offer)
    requires RotationsOk(s) && BirthsOk(s) && Settled(s, me, c, o)
    ensures OnChain(s, c.family, o.successor) && s.births[o.successor].expires == c.expires
    ensures s.births[o.successor].index == s.births[c.handle].index + 1
    ensures o.reply.successor == o.successor
  {
    assert RotationOk(s, c.handle) && BirthOk(s, o.successor);
  }

  lemma MoveHeadOk(cfg: Config, s: State, me: CallerId, pc: Pc, ch: Choice)
    requires RotationsOk(s) && BirthsOk(s) && pc.MoveHead? && HoldRelies(s, me, pc)
    ensures TurnOk(cfg, s, me, SettleTurn(s, pc, ch))
  {
    SettledIsCommitted(s, me, pc.claim, pc.offer);
    var m := SettleTurn(s, pc, ch);
    assert m.next == PostCheck(pc.claim, pc.offer);
    assert Settled(Apply(s, me, m.effect), me, pc.claim, pc.offer);
  }

  lemma PostCheckOk(cfg: Config, s: State, me: CallerId, pc: Pc, ch: Choice)
    requires RotationsOk(s) && BirthsOk(s) && pc.PostCheck? && HoldRelies(s, me, pc)
    ensures TurnOk(cfg, s, me, SettleTurn(s, pc, ch))
  {
    NothingChanges(s, me);
    var m := SettleTurn(s, pc, ch);
    if !m.next.Done? { assert m == Move(Nothing, DropReply(pc.claim, pc.offer, Withheld)); }
  }

  lemma SettleTurnOk(cfg: Config, s: State, me: CallerId, pc: Pc, ch: Choice)
    requires Global(cfg, s) && (pc.MoveHead? || pc.PostCheck? || pc.LostCheck?) && HoldRelies(s, me, pc)
    ensures TurnOk(cfg, s, me, SettleTurn(s, pc, ch))
  {
    if pc.MoveHead? { MoveHeadOk(cfg, s, me, pc, ch); }
    else if pc.PostCheck? { PostCheckOk(cfg, s, me, pc, ch); }
    else { NothingChanges(s, me); }
  }

  lemma ReleaseTurnOk(cfg: Config, s: State, me: CallerId, pc: Pc, ch: Choice)
    requires Releasing(pc) && HoldRelies(s, me, pc)
    ensures TurnOk(cfg, s, me, ReleaseTurn(s, pc, ch))
  {
    NothingChanges(s, me);
    var m := ReleaseTurn(s, pc, ch);
    if pc.SwapRelease? {
      assert m.next.Done?;
    } else if m.next.Done? {
    } else {
    }
  }

  lemma AfterWalkOk(cfg: Config, s: State, me: CallerId, rev: Revoking, more: bool)
    requires RevokingFits(s, rev) && rev.family in s.markers
    ensures Relies(cfg, s, me, AfterWalk(rev, more))
  {
  }

  lemma EraseLoadOk(cfg: Config, s: State, me: CallerId, pc: Pc, ch: Choice)
    requires RecordsOk(s) && RotationsOk(s) && BirthsOk(s) && pc.EraseLoad? && RevokeRelies(s, pc)
    ensures TurnOk(cfg, s, me, RevokeTurn(s, pc, ch))
  {
    NothingChanges(s, me);
    var next := RevokeTurn(s, pc, ch).next;
    if next == AfterWalk(pc.rev, pc.more) {
      AfterWalkOk(cfg, s, me, pc.rev, pc.more);
    } else if next.EraseLoad? {
      WalkOnOk(s, pc);
      assert OnChain(s, pc.rev.family, next.key);
    } else {
      assert next.Done? || next == EraseDelete(pc.rev, pc.key, pc.more);
    }
  }

  /** The walk stays on the chain. */
  lemma WalkOnOk(s: State, pc: Pc)
    requires RecordsOk(s) && RotationsOk(s) && BirthsOk(s) && pc.EraseLoad? && RevokeRelies(s, pc)
    requires pc.key in s.records && !HoldsToken(s.records[pc.key].value)
    ensures OnChain(s, pc.rev.family, s.records[pc.key].value.record.state.successor)
  {
    assert RecordOk(s, pc.key) && RotationOk(s, pc.key);
    assert BirthOk(s, s.rotations[pc.key].successor);
  }

  lemma EraseDeleteOk(cfg: Config, s: State, me: CallerId, pc: Pc, ch: Choice)
    requires pc.EraseDelete? && RevokeRelies(s, pc)
    ensures TurnOk(cfg, s, me, RevokeTurn(s, pc, ch))
  {
    var m := RevokeTurn(s, pc, ch);
    var s' := Apply(s, me, m.effect);
    assert RevokingFits(s', pc.rev) && pc.rev.family in s'.markers;
    AfterWalkOk(cfg, s', me, pc.rev, pc.more);
    if ch.luck.StoreError? {
    } else {
      assert m.next == AfterWalk(pc.rev, pc.more);
    }
  }

  lemma PutMarkerOk(cfg: Config, s: State, me: CallerId, pc: Pc, ch: Choice)
    requires BirthsOk(s) && pc.PutMarker? && RevokeRelies(s, pc)
    ensures TurnOk(cfg, s, me, RevokeTurn(s, pc, ch))
  {
    NothingChanges(s, me);
    assert BirthOk(s, pc.rev.known);
    var m := RevokeTurn(s, pc, ch);
    if m.next.ReadHead? {
      assert RevokingFits(Apply(s, me, m.effect), pc.rev);
    } else {
      assert m.next.Done?;
    }
  }

  lemma ReadHeadOk(cfg: Config, s: State, me: CallerId, pc: Pc, ch: Choice)
    requires HeadsOk(s) && pc.ReadHead? && RevokeRelies(s, pc)
    ensures TurnOk(cfg, s, me, RevokeTurn(s, pc, ch))
  {
    NothingChanges(s, me);
    assert HeadOk(s, pc.rev.family);
    var m := RevokeTurn(s, pc, ch);
    assert m.effect.Nothing? && (m.next.Done? || m.next.EraseLoad?);
  }

  lemma RevokeTurnOk(cfg: Config, s: State, me: CallerId, pc: Pc, ch: Choice)
    requires Global(cfg, s) && Erasing(pc) && RevokeRelies(s, pc)
    ensures TurnOk(cfg, s, me, RevokeTurn(s, pc, ch))
  {
    if pc.EraseLoad? {
      EraseLoadOk(cfg, s, me, pc, ch);
    } else if pc.EraseDelete? {
      EraseDeleteOk(cfg, s, me, pc, ch);
    } else if pc.PutMarker? {
      PutMarkerOk(cfg, s, me, pc, ch);
    } else if pc.ReadHead? {
      ReadHeadOk(cfg, s, me, pc, ch);
    } else {
      NothingChanges(s, me);
    }
  }

  lemma TurnIsLegal(cfg: Config, s: State, me: CallerId, pc: Pc, ch: Choice)
    requires Global(cfg, s) && Relies(cfg, s, me, pc)
    requires MintsFresh(s, Turn(cfg, s, pc, ch).effect) && (pc.Draft? ==> ch.name != ch.family)
    ensures TurnOk(cfg, s, me, Turn(cfg, s, pc, ch))
  {
    if Issuing(pc) { IssueTurnOk(cfg, s, me, pc, ch); }
    else if Refreshing(pc) { RefreshTurnOk(cfg, s, me, pc, ch); }
    else if Claiming(pc) { ClaimTurnOk(cfg, s, me, pc, ch); }
    else if Preparing(pc) { PrepareTurnOk(cfg, s, me, pc, ch); }
    else if pc.SwapTombstone? { SwapTombstoneOk(cfg, s, me, pc, ch); }
    else if Dropping(pc) { DropTurnOk(cfg, s, me, pc, ch); }
    else if Settling(pc) {
      assert pc.MoveHead? || pc.PostCheck? || pc.LostCheck?;
      SettleTurnOk(cfg, s, me, pc, ch);
    }
    else if Releasing(pc) { ReleaseTurnOk(cfg, s, me, pc, ch); }
    else if Erasing(pc) { RevokeTurnOk(cfg, s, me, pc, ch); }
    else if pc.Ask? { AskTurnOk(cfg, s, me, pc.claim, ch); }
  }

  // ---- every step, and so every run, keeps the invariant ----

  /** Only time passes, callers come and go, and strings never issued are presented. */
  predicate Onward(s: State, s': State) {
    && s'.now >= s.now && s'.records == s.records && s'.replies == s.replies && s'.heads == s.heads
    && s'.markers == s.markers && s'.births == s.births && s'.rotations == s.rotations && s'.tips == s.tips
    && s'.families == s.families && s'.returned == s.returned
    && (forall n :: n in s.names ==> n in s'.names && s'.names[n] == s.names[n])
    && s.presentable <= s'.presentable
    && (forall h :: h in s'.presentable && h !in s.presentable ==> h !in s.names && h in s'.names)
  }

  lemma OnwardKeepsGlobal(cfg: Config, s: State, s': State)
    requires Global(cfg, s) && Onward(s, s')
    ensures Global(cfg, s')
  {
    forall h ensures Committed(s', h) <==> Committed(s, h) {}
    forall h ensures RecordOk(s', h) { assert RecordOk(s, h); }
    forall h ensures BirthOk(s', h) { assert BirthOk(s, h); }
    forall h ensures RotationOk(s', h) { assert RotationOk(s, h); }
    forall f ensures TipOk(s', f) { assert TipOk(s, f); }
    forall h ensures BehindTip(s', h) { assert BehindTip(s, h); }
    forall f ensures HeadOk(s', f) { assert HeadOk(s, f); }
    forall f ensures MarkerOk(s', f) { assert MarkerOk(s, f); }
    forall h ensures ReplyOk(s', h) { assert ReplyOk(s, h); }
    forall h ensures DisclosedOk(s', h) { assert DisclosedOk(s, h) && BirthOk(s, h); }
    forall p ensures ReturnOk(s', p) { assert ReturnOk(s, p); }
    forall h ensures KeptOk(cfg, s', h) { assert KeptOk(cfg, s, h); }
  }

  lemma OnwardKeepsHolding(cfg: Config, s: State, s': State, c: CallerId, pc: Pc)
    requires Onward(s, s') && (Preparing(pc) || pc.SwapTombstone?) && PrepareRelies(cfg, s, c, pc)
    ensures PrepareRelies(cfg, s', c, pc)
  {
    assert ClaimFits(s', c, pc.claim) && OfferFits(s', c, pc.claim, pc.offer);
  }

  lemma OnwardKeepsIssuing(s: State, s': State, c: CallerId, pc: Pc)
    requires Onward(s, s') && Issuing(pc) && IssueRelies(s, c, pc)
    ensures IssueRelies(s', c, pc)
  {
  }

  lemma OnwardKeepsSeeing(s: State, s': State, pc: Pc)
    requires Onward(s, s') && Refreshing(pc) && RefreshRelies(s, pc)
    ensures RefreshRelies(s', pc)
  {
  }

  lemma OnwardKeepsClaiming(s: State, s': State, c: CallerId, pc: Pc)
    requires Onward(s, s') && Claiming(pc) && ClaimRelies(s, c, pc)
    ensures ClaimRelies(s', c, pc)
  {
  }

  lemma OnwardKeepsDropping(s: State, s': State, c: CallerId, pc: Pc)
    requires Onward(s, s') && Dropping(pc) && DropRelies(s, c, pc)
    ensures DropRelies(s', c, pc)
  {
  }

  lemma OnwardKeepsErasing(s: State, s': State, pc: Pc)
    requires Onward(s, s') && Erasing(pc) && RevokeRelies(s, pc)
    ensures RevokeRelies(s', pc)
  {
  }

  lemma OnwardKeepsReliance(cfg: Config, s: State, s': State, c: CallerId, pc: Pc)
    requires Onward(s, s') && Relies(cfg, s, c, pc)
    ensures Relies(cfg, s', c, pc)
  {
    if Issuing(pc) {
      OnwardKeepsIssuing(s, s', c, pc);
    } else if Refreshing(pc) {
      OnwardKeepsSeeing(s, s', pc);
    } else if Claiming(pc) {
      OnwardKeepsClaiming(s, s', c, pc);
    } else if Preparing(pc) || pc.SwapTombstone? {
      OnwardKeepsHolding(cfg, s, s', c, pc);
    } else if Dropping(pc) {
      OnwardKeepsDropping(s, s', c, pc);
    } else if Erasing(pc) {
      OnwardKeepsErasing(s, s', pc);
    } else if !pc.Done? {
      assert HoldRelies(s', c, pc);
    }
  }

  lemma ActKeepsInv(cfg: Config, s: State, me: CallerId, ch: Choice)
    requires Inv(cfg, s) && Allowed(cfg, s, Act(me, ch))
    ensures Inv(cfg, Next(cfg, s, Act(me, ch)))
  {
    var m := Turn(cfg, s, s.callers[me].pc, ch);
    TurnIsLegal(cfg, s, me, s.callers[me].pc, ch);
    var mid := Apply(s, me, m.effect);
    LegalKeepsGlobal(cfg, s, me, m.effect);
    var s' := Next(cfg, s, Act(me, ch));
    OnwardKeepsGlobal(cfg, mid, s');
    forall c | c in s'.callers ensures Relies(cfg, s', c, s'.callers[c].pc) {
      if c != me { LegalIsHarmless(cfg, s, me, m.effect, c, s.callers[c].pc); }
      OnwardKeepsReliance(cfg, mid, s', c, s'.callers[c].pc);
    }
  }

  /** Callers that stay where they are, have ended, or have just come. */
  predicate Calmly(s: State, s': State, c: CallerId)
    requires c in s'.callers
  {
    var pc := s'.callers[c].pc;
    (c in s.callers && pc == s.callers[c].pc) || pc.Done? || pc.Draft? || (pc.Load? && pc.handle in s'.presentable)
  }

  lemma OtherEventIsOnward(cfg: Config, s: State, ev: Event)
    requires Allowed(cfg, s, ev) && !ev.Act?
    ensures var s' := Next(cfg, s, ev); Onward(s, s') && forall c :: c in s'.callers ==> Calmly(s, s', c)
  {
  }

  lemma OnwardKeepsInv(cfg: Config, s: State, s': State)
    requires Inv(cfg, s) && Onward(s, s') && forall c :: c in s'.callers ==> Calmly(s, s', c)
    ensures Inv(cfg, s')
  {
    OnwardKeepsGlobal(cfg, s, s');
    forall c | c in s'.callers ensures Relies(cfg, s', c, s'.callers[c].pc) {
      assert Calmly(s, s', c);
      if c in s.callers && s'.callers[c].pc == s.callers[c].pc { OnwardKeepsReliance(cfg, s, s', c, s.callers[c].pc); }
    }
  }

  lemma NextKeepsInv(cfg: Config, s: State, ev: Event)
    requires Inv(cfg, s) && Allowed(cfg, s, ev)
    ensures Inv(cfg, Next(cfg, s, ev))
  {
    if ev.Act? {
      ActKeepsInv(cfg, s, ev.caller, ev.choice);
    } else {
      OtherEventIsOnward(cfg, s, ev);
      OnwardKeepsInv(cfg, s, Next(cfg, s, ev));
    }
  }

  /** Time, markers, births, rotations and commitments only ever grow. */
  predicate Grows(s: State, s': State, h: Handle) {
    && s.now <= s'.now && s.markers.Keys <= s'.markers.Keys
    && (h in s.births ==> h in s'.births && s'.births[h] == s.births[h])
    && (h in s.rotations ==> h in s'.rotations && s'.rotations[h] == s.rotations[h])
    && (Committed(s, h) ==> Committed(s', h))
  }

  lemma NextGrows(cfg: Config, s: State, ev: Event, h: Handle)
    requires Inv(cfg, s) && Allowed(cfg, s, ev)
    ensures Grows(s, Next(cfg, s, ev), h)
  {
    if ev.Act? {
      TurnIsLegal(cfg, s, ev.caller, s.callers[ev.caller].pc, ev.choice);
      ChainGrows(cfg, s, ev.caller, Turn(cfg, s, s.callers[ev.caller].pc, ev.choice).effect, h);
    }
  }

  lemma {:induction false} RunKeepsInv(cfg: Config, s: State, run: seq<Event>)
    requires Inv(cfg, s) && Possible(cfg, s, run)
    ensures Inv(cfg, After(cfg, s, run))
    decreases |run|
  {
    if run != [] {
      NextKeepsInv(cfg, s, run[0]);
      RunKeepsInv(cfg, Next(cfg, s, run[0]), run[1..]);
    }
  }

  lemma InitialInv(cfg: Config)
    ensures Inv(cfg, INITIAL)
  {
  }
}
