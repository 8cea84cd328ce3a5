/**
 Single use of authorization codes and of client assertions: the first presentation leaves a marker
 in the store, and a presentation that finds the marker is refused. Instants are nanoseconds since
 the epoch; the relay reads them in whole seconds. How long a marker lasts depends on the store.
 */
module ReplayMarkers {
  import opened Wrappers
  import opened Clocks
  import opened IdealStore
  import DynamoDbStore

  const CODE_TTL: nat := 300
  const CODE_SKEW: nat := 30
  const ASSERTION_MAX_AGE: nat := 300
  const LEEWAY: nat := 60

  /** A code is accepted until `CODE_TTL` after it was issued, by clocks up to half a minute apart. */
  predicate CodeFresh(issuedAt: nat, now: nat) {
    issuedAt <= SaturatingAdd(now, CODE_SKEW) && SaturatingSub(now, issuedAt) <= CODE_TTL
  }

  datatype Code = Code(issuedAt: nat, marker: Key)

  datatype Assertion = Assertion(issuedAt: Option<nat>, expiresAt: Option<nat>, jti: Option<string>, marker: Key)

  /** An assertion is within its lifetime, extended by the leeway on both sides. */
  predicate InLifetime(a: Assertion, now: nat) {
    a.expiresAt.Some? && now <= a.expiresAt.value + LEEWAY
    && (a.issuedAt.Some? ==> a.issuedAt.value <= SaturatingAdd(now, LEEWAY))
  }

  /** What single use demands of the claims. */
  predicate SingleUsable(a: Assertion) {
    && a.issuedAt.Some? && a.expiresAt.Some? && a.jti.Some? && a.jti.value != ""
    && a.issuedAt.value < a.expiresAt.value <= a.issuedAt.value + ASSERTION_MAX_AGE
  }

  function AssertionTtl(expiresAt: nat, now: nat): nat {
    SaturatingAdd(SaturatingSub(SaturatingAdd(expiresAt, LEEWAY), now), 1)
  }

  // ---- how long a marker lasts ----

  datatype Backend = InMemory | DynamoDb

  /** The store's own reading of an instant: exact, or in whole seconds. */
  function Reading(b: Backend, instant: nat): nat { if b.InMemory? then instant else Seconds(instant) }

  /** The store call that leaves a marker for `ttl` seconds, in the store's own units. */
  function PutMarker(b: Backend, marker: Key, value: Value, served: nat, ttl: nat): Op {
    var lifetime := ttl * SECOND;
    Op.PutIfAbsent(marker, value,
      if b.InMemory? then lifetime
      else SaturatingSub(DynamoDbStore.Expiry(Seconds(served), lifetime), Seconds(served)))
  }

  /** The instant at which a marker left at `served` is gone. */
  function GoneAt(b: Backend, served: nat, ttl: nat): nat {
    if b.InMemory? then served + ttl * SECOND else (Seconds(served) + ttl + 1) * SECOND
  }

  /** Far enough from the end of the clock for DynamoDB's expiry not to saturate. */
  predicate InRange(b: Backend, served: nat, ttl: nat) {
    b.DynamoDb? ==> Seconds(served) + ttl + 1 < MAX_SECONDS
  }

  lemma MarkerTtl(b: Backend, marker: Key, value: Value, served: nat, ttl: nat, t: nat)
    requires 0 < ttl && InRange(b, served, ttl)
    ensures PutMarker(b, marker, value, served, ttl).ttl == if b.InMemory? then ttl * SECOND else ttl + 1
    ensures var ends := Reading(b, served) + PutMarker(b, marker, value, served, ttl).ttl;
      Reading(b, t) >= ends <==> t >= GoneAt(b, served, ttl)
  {
    assert ttl * SECOND / SECOND == ttl && ttl * SECOND % SECOND == 0;
  }

  /** Whatever other requests do in the meantime: markers are only ever created and read. */
  ghost predicate Meanwhile(ops: seq<(nat, Op)>, marker: Key, from: nat, until: nat) {
    forall i :: 0 <= i < |ops| ==>
      from <= ops[i].0 <= until && (ops[i].1.key != marker || ops[i].1.Get? || ops[i].1.PutIfAbsent?)
  }

  /** What other requests do between two presentations, as far as it comes before the marker is gone. */
  ghost predicate Between(b: Backend, ops: seq<(nat, Op)>, op: Op, first: nat, second: nat)
    requires op.PutIfAbsent? && op.ttl > 0
  {
    && Meanwhile(ops, op.key, Reading(b, first), Reading(b, second))
    && Meanwhile(ops, op.key, Reading(b, first), Reading(b, first) + op.ttl - 1)
  }

  /** The marker `again`, put at `second`, is accepted although `op` was put at `first`. */
  predicate Again(b: Backend, log: seq<Write>, first: nat, op: Op, ops: seq<(nat, Op)>, second: nat, again: Op) {
    Answer(AfterAll(After(log, Reading(b, first), op), ops), Reading(b, second), again) == Written(true)
  }

  /** Once a marker was written, the next one is accepted exactly from when it is gone. */
  lemma MarkerLasts(b: Backend, log: seq<Write>, marker: Key, v1: Value, first: nat, ttl: nat, ops: seq<(nat, Op)>,
                    second: nat, again: Op)
    requires 0 < ttl && InRange(b, first, ttl) && first <= second
    requires again.PutIfAbsent? && again.key == marker && again.ttl > 0
    requires var op := PutMarker(b, marker, v1, first, ttl);
      && op.ttl > 0 && Between(b, ops, op, first, second)
      && Answer(log, Reading(b, first), op) == Written(true)
    ensures Again(b, log, first, PutMarker(b, marker, v1, first, ttl), ops, second, again) <==>
      second >= GoneAt(b, first, ttl)
  {
    var op := PutMarker(b, marker, v1, first, ttl);
    MarkerTtl(b, marker, v1, first, ttl, second);
    VisibleExactlyUntilExpiry(log, Reading(b, first), op, ops, Reading(b, second));
    assert again == PutIfAbsent(op.key, again.value, again.ttl);
  }

  // ---- codes ----

  function CodeMarker(b: Backend, code: Code, value: Value, served: nat): Op {
    PutMarker(b, code.marker, value, served, CODE_TTL)
  }

  lemma CodeMarkerTtl(b: Backend, code: Code, value: Value, served: nat)
    requires Seconds(served) + CODE_TTL + 1 < MAX_SECONDS
    ensures CodeMarker(b, code, value, served).ttl > 0
  {
    MarkerTtl(b, code.marker, value, served, CODE_TTL, served);
  }

  /**
   Of two redemptions of one code, whatever else happens in between, the second gets past the
   marker exactly if the first one's is gone.
   */
  lemma SecondRedemption(b: Backend, log: seq<Write>, code: Code, v1: Value, first: nat, ops: seq<(nat, Op)>, v2: Value,
                         second: nat)
    requires Seconds(second) + CODE_TTL + 1 < MAX_SECONDS && first <= second
    requires var op := CodeMarker(b, code, v1, first);
      op.ttl > 0 && Between(b, ops, op, first, second) && Answer(log, Reading(b, first), op) == Written(true)
    ensures Again(b, log, first, CodeMarker(b, code, v1, first), ops, second, CodeMarker(b, code, v2, second)) <==>
      second >= GoneAt(b, first, CODE_TTL)
  {
    CodeMarkerTtl(b, code, v2, second);
    MarkerLasts(b, log, code.marker, v1, first, CODE_TTL, ops, second, CodeMarker(b, code, v2, second));
  }

  /** A later redemption judged fresh at `judged` and asking the store at `second`, at most `delay` later. */
  predicate Late(code: Code, first: nat, judged: nat, second: nat, delay: nat) {
    && judged <= second <= judged + delay && first <= second && CodeFresh(code.issuedAt, Seconds(judged))
    && Seconds(second) + CODE_TTL + 1 < MAX_SECONDS
  }

  /** Some later redemption finds the code fresh and gets past the marker. */
  ghost predicate RedeemableAgain(b: Backend, log: seq<Write>, code: Code, v1: Value, first: nat, delay: nat)
    requires CodeMarker(b, code, v1, first).ttl > 0
  {
    exists ops, v2, judged: nat, second: nat ::
      && Late(code, first, judged, second, delay) && Between(b, ops, CodeMarker(b, code, v1, first), first, second)
      && Again(b, log, first, CodeMarker(b, code, v1, first), ops, second, CodeMarker(b, code, v2, second))
  }

  /** Until when a first redemption leaves room for a second,
    if the store is asked up to `delay` after the judgement. */
  predicate TooEarly(b: Backend, code: Code, first: nat, delay: nat) {
    if b.InMemory? then first < (code.issuedAt + 1) * SECOND + delay
    else Seconds(first) * SECOND < code.issuedAt * SECOND + delay
  }

  lemma GoneWhileFresh(b: Backend, code: Code, first: nat, delay: nat)
    ensures TooEarly(b, code, first, delay) <==>
      GoneAt(b, first, CODE_TTL) < (code.issuedAt + CODE_TTL + 1) * SECOND + delay
  {
  }

  /** A moment of judgement and one of service that leave the marker behind. */
  lemma LateRedemption(b: Backend, code: Code, judged1: nat, first: nat, delay: nat) returns (judged: nat, second: nat)
    requires judged1 <= first && CodeFresh(code.issuedAt, Seconds(judged1)) && TooEarly(b, code, first, delay)
    requires Seconds(first) + 2 * CODE_TTL + 2 < MAX_SECONDS
    ensures Late(code, first, judged, second, delay) && second >= GoneAt(b, first, CODE_TTL)
  {
    GoneWhileFresh(b, code, first, delay);
    second := GoneAt(b, first, CODE_TTL);
    var last := (code.issuedAt + CODE_TTL + 1) * SECOND - 1;
    judged := if second <= last then second else last;
    assert Seconds(last) == code.issuedAt + CODE_TTL;
    assert Seconds(judged1) <= Seconds(first) <= Seconds(second) <= Seconds(first) + CODE_TTL + 1;
  }

  /**
   Which codes are single-use, over either store: a code whose redemption was accepted can be
   redeemed again exactly if that redemption came too early, by a margin that grows with the time
   the relay takes from judging a code's age to asking the store.
   */
  lemma RedeemableAgainExactlyWhen(b: Backend, log: seq<Write>, code: Code, v1: Value, judged1: nat, first: nat,
                                   delay: nat)
    requires judged1 <= first && CodeFresh(code.issuedAt, Seconds(judged1))
    requires Seconds(first) + 2 * CODE_TTL + 2 < MAX_SECONDS
    requires Answer(log, Reading(b, first), CodeMarker(b, code, v1, first)) == Written(true)
    requires CodeMarker(b, code, v1, first).ttl > 0
    ensures RedeemableAgain(b, log, code, v1, first, delay) <==> TooEarly(b, code, first, delay)
  {
    var op := CodeMarker(b, code, v1, first);
    if TooEarly(b, code, first, delay) {
      var judged, second := LateRedemption(b, code, judged1, first, delay);
      SecondRedemption(b, log, code, v1, first, [], v1, second);
      assert Between(b, [], op, first, second);
    } else {
      GoneWhileFresh(b, code, first, delay);
      forall ops, v2, judged: nat, second: nat |
        Late(code, first, judged, second, delay) && Between(b, ops, op, first, second)
        ensures !Again(b, log, first, op, ops, second, CodeMarker(b, code, v2, second))
      {
        assert judged < (code.issuedAt + CODE_TTL + 1) * SECOND;
        SecondRedemption(b, log, code, v1, first, ops, v2, second);
      }
    }
  }

  /** In memory, without any delay or clock skew: a code redeemed in the second of its issue is redeemed again. */
  lemma PromptCodeIsRedeemedTwice(marker: Key, v: Value)
    requires ValidKey(marker)
    ensures RedeemableAgain(InMemory, [], Code(1000, marker), v, 1000 * SECOND, 0)
  {
    RedeemableAgainExactlyWhen(InMemory, [], Code(1000, marker), v, 1000 * SECOND, 1000 * SECOND, 0);
  }

  /** Over either store: a code issued by a clock half a minute ahead outlives its marker. */
  lemma EarlyCodeIsRedeemedTwice(b: Backend, marker: Key, v: Value)
    requires ValidKey(marker)
    ensures CodeMarker(b, Code(1030, marker), v, 1000 * SECOND).ttl > 0
    ensures RedeemableAgain(b, [], Code(1030, marker), v, 1000 * SECOND, 0)
  {
    CodeMarkerTtl(b, Code(1030, marker), v, 1000 * SECOND);
    RedeemableAgainExactlyWhen(b, [], Code(1030, marker), v, 1000 * SECOND, 1000 * SECOND, 0);
  }

  /** Over either store: issued at 1000 s, redeemed at 1010 s, then judged at 1300 s and served at 1311 s. */
  lemma DelayedCodeIsRedeemedTwice(b: Backend, marker: Key, v1: Value, v2: Value)
    requires ValidKey(marker)
    ensures var code := Code(1000, marker); var first, second := 1010 * SECOND, 1311 * SECOND;
      && CodeFresh(code.issuedAt, 1010) && CodeFresh(code.issuedAt, 1300)
      && Answer([], Reading(b, first), CodeMarker(b, code, v1, first)) == Written(true)
      && Again(b, [], first, CodeMarker(b, code, v1, first), [], second, CodeMarker(b, code, v2, second))
  {
    var code := Code(1000, marker);
    CodeMarkerTtl(b, code, v1, 1010 * SECOND);
    assert Between(b, [], CodeMarker(b, code, v1, 1010 * SECOND), 1010 * SECOND, 1311 * SECOND);
    SecondRedemption(b, [], code, v1, 1010 * SECOND, [], v2, 1311 * SECOND);
  }

  // ---- assertions ----

  /** The marker of an assertion, its lifetime computed at `read`, a moment before the store is asked. */
  function AssertionMarker(b: Backend, a: Assertion, value: Value, read: nat, served: nat): Op
    requires a.expiresAt.Some?
  {
    PutMarker(b, a.marker, value, served, AssertionTtl(a.expiresAt.value, Seconds(read)))
  }

  /** The marker of an assertion outlasts every second in which the assertion is still accepted. */
  lemma MarkerOutlastsAssertion(b: Backend, a: Assertion, read: nat, first: nat, second: nat)
    requires a.expiresAt.Some? && read <= first <= second
    requires Seconds(second) < MAX_SECONDS && Seconds(second) <= a.expiresAt.value + LEEWAY
    ensures second < GoneAt(b, first, AssertionTtl(a.expiresAt.value, Seconds(read)))
  {
    var s := Seconds(read);
    assert s <= Seconds(first) <= Seconds(second);
    var ttl := AssertionTtl(a.expiresAt.value, s);
    assert ttl >= Seconds(second) - s + 1;
  }

  /** A use of `a` that left its marker at `first`, with a lifetime computed at `read`. */
  predicate Used(b: Backend, log: seq<Write>, a: Assertion, v: Value, read: nat, first: nat) {
    && a.expiresAt.Some? && read <= first
    && InRange(b, first, AssertionTtl(a.expiresAt.value, Seconds(read)))
    && AssertionMarker(b, a, v, read, first).ttl > 0
    && Answer(log, Reading(b, first), AssertionMarker(b, a, v, read, first)) == Written(true)
  }

  /**
   Of two uses of one assertion, whatever else happens in between, the second gets past the marker
   exactly if that is gone, so only if its store call was delayed past the second its lifetime was
   judged in.
   */
  lemma SecondUse(b: Backend, log: seq<Write>, a: Assertion, v1: Value, read1: nat, first: nat, ops: seq<(nat, Op)>,
                  v2: Value, judged: nat, read2: nat, second: nat)
    requires Used(b, log, a, v1, read1, first) &&
      Between(b, ops, AssertionMarker(b, a, v1, read1, first), first, second)
    requires first <= second && judged <= read2 <= second && InLifetime(a, Seconds(judged))
    requires Seconds(second) < MAX_SECONDS && InRange(b, second, AssertionTtl(a.expiresAt.value, Seconds(read2)))
    ensures var again := AssertionMarker(b, a, v2, read2, second);
      && (Again(b, log, first, AssertionMarker(b, a, v1, read1, first), ops, second, again) <==>
           second >= GoneAt(b, first, AssertionTtl(a.expiresAt.value, Seconds(read1))))
      && (Again(b, log, first, AssertionMarker(b, a, v1, read1, first), ops, second, again) ==>
           Seconds(judged) < Seconds(second))
  {
    var ttl2 := AssertionTtl(a.expiresAt.value, Seconds(read2));
    MarkerTtl(b, a.marker, v2, second, ttl2, second);
    var again := AssertionMarker(b, a, v2, read2, second);
    MarkerLasts(b, log, a.marker, v1, first, AssertionTtl(a.expiresAt.value, Seconds(read1)), ops, second, again);
    if Seconds(second) <= Seconds(judged) { MarkerOutlastsAssertion(b, a, read1, first, second); }
  }

  /**
   An assertion whose use was accepted is not accepted again, whatever happens in between, by any
   presentation whose store call still falls into the assertion's lifetime.
   */
  lemma AssertionUsedOnce(b: Backend, log: seq<Write>, a: Assertion, v1: Value, read1: nat, first: nat,
                          ops: seq<(nat, Op)>, v2: Value, read2: nat, second: nat)
    requires Used(b, log, a, v1, read1, first) &&
      Between(b, ops, AssertionMarker(b, a, v1, read1, first), first, second)
    requires first <= second && read2 <= second && Seconds(second) <= a.expiresAt.value + LEEWAY
    requires Seconds(second) < MAX_SECONDS && InRange(b, second, AssertionTtl(a.expiresAt.value, Seconds(read2)))
    ensures !Again(b, log, first, AssertionMarker(b, a, v1, read1, first), ops, second,
                   AssertionMarker(b, a, v2, read2, second))
  {
    var again := AssertionMarker(b, a, v2, read2, second);
    MarkerTtl(b, a.marker, v2, second, AssertionTtl(a.expiresAt.value, Seconds(read2)), second);
    MarkerLasts(b, log, a.marker, v1, first, AssertionTtl(a.expiresAt.value, Seconds(read1)), ops, second, again);
    MarkerOutlastsAssertion(b, a, read1, first, second);
  }

  /** Over either store: a use judged in the assertion's last second that reaches the store two seconds later. */
  lemma DelayedUseIsAcceptedTwice(b: Backend, marker: Key, v1: Value, v2: Value)
    requires ValidKey(marker)
    ensures var a := Assertion(Some(900), Some(1000), Some("jti"), marker);
      var first, second := 950 * SECOND, 1062 * SECOND;
      && SingleUsable(a) && InLifetime(a, 950) && InLifetime(a, 1060)
      && Used(b, [], a, v1, first, first)
      && Again(b, [], first, AssertionMarker(b, a, v1, first, first), [], second,
               AssertionMarker(b, a, v2, second, second))
  {
    var a := Assertion(Some(900), Some(1000), Some("jti"), marker);
    var first, second := 950 * SECOND, 1062 * SECOND;
    assert AssertionTtl(1000, Seconds(first)) == 111;
    MarkerTtl(b, marker, v1, first, 111, first);
    assert Between(b, [], AssertionMarker(b, a, v1, first, first), first, second);
    SecondUse(b, [], a, v1, first, first, [], v2, 1060 * SECOND, second, second);
  }
}
