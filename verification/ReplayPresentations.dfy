/**
 Presentations of codes and assertions over the two stores, with the marker's store call answered or
 failing.
 */
module ReplayPresentations {
  import opened Clocks
  import opened IdealStore
  import opened ReplayMarkers
  import Memory = MemoryStore
  import Table = DynamoDbStore

  /** How the store call of a presentation goes: it is answered, or fails with or without effect. */
  datatype StoreCall = Answered | Failed(applied: bool)

  /**
   What a presentation whose marker is put as `op` does to the store's log: an error refuses it,
   whether or not the marker was written.
   */
  predicate Presented(log: seq<Write>, now: nat, op: Op, call: StoreCall, accepted: bool, log': seq<Write>) {
    && (accepted ==> call.Answered?)
    && (call.Answered? ==> accepted == (Answer(log, now, op) == Written(true)))
    && log' == if call == Failed(false) then log else After(log, now, op)
  }

  /** The codes accepted at a time, in seconds: issued within five minutes, by a clock half a minute ahead at most. */
  predicate Redeemable(code: Code, now: nat) { now <= code.issuedAt + 300 && code.issuedAt <= now + 30 }

  /**
   Redeeming a code: its age is judged at `judged`, and the store is asked at `served`, which may
   be later because the ID token is checked and the response sealed in between.
   */
  method RedeemCode(store: Memory.MemoryStore, code: Code, value: Value, judged: nat, served: nat, call: StoreCall)
    returns (accepted: bool)
    requires store.Valid() && judged <= served
    modifies store
    ensures store.Valid() && (store.swept == old(store.swept) || store.swept == served)
    ensures accepted ==> call.Answered? && CodeFresh(code.issuedAt, Seconds(judged))
    ensures accepted ==> Redeemable(code, Seconds(judged))
    ensures !CodeFresh(code.issuedAt, Seconds(judged)) ==> store.log == old(store.log)
    ensures CodeFresh(code.issuedAt, Seconds(judged)) && store.swept <= served ==>
      Presented(old(store.log), served, CodeMarker(InMemory, code, value, served), call, accepted, store.log)
    ensures Redeemable(code, Seconds(judged)) && Seconds(judged) + 30 <= MAX_SECONDS && store.swept <= served ==>
      Presented(old(store.log), served, CodeMarker(InMemory, code, value, served), call, accepted, store.log)
  {
    if !CodeFresh(code.issuedAt, Seconds(judged)) || call == Failed(false) {
      return false;
    }
    var reply := store.PutIfAbsent(served, code.marker, value, CODE_TTL * SECOND);
    return call.Answered? && reply == Written(true);
  }

  /** The same over the table; its value is one that no earlier marker of the code carries. */
  method RedeemCodeAtTable(store: Table.DynamoDbStore, code: Code, value: Value, judged: nat, served: nat,
                           call: StoreCall,
                           lost: nat)
    returns (accepted: bool)
    requires store.Valid() && judged <= served && Seconds(served) + CODE_TTL + 1 < MAX_SECONDS
    modifies store
    ensures store.Valid() && store.reclaimed == old(store.reclaimed)
    ensures accepted ==> call.Answered? && CodeFresh(code.issuedAt, Seconds(judged))
    ensures accepted ==> Redeemable(code, Seconds(judged))
    ensures !CodeFresh(code.issuedAt, Seconds(judged)) ==> store.log == old(store.log)
    ensures var held := Holds(old(store.log), code.marker, Seconds(served));
      Redeemable(code, Seconds(judged)) && store.reclaimed <= Seconds(served)
      && (held.Some? ==> held.value.value != value) ==>
        Presented(old(store.log), Seconds(served), CodeMarker(DynamoDb, code, value, served), call, accepted, store.log)
  {
    if !CodeFresh(code.issuedAt, Seconds(judged)) || call == Failed(false) {
      return false;
    }
    CodeMarkerTtl(DynamoDb, code, value, served);
    var reply := store.PutIfAbsent(Seconds(served), code.marker, value, CODE_TTL * SECOND, lost);
    return call.Answered? && reply == Written(true);
  }

  /**
   The assertions accepted at a time, in seconds: issued and not yet expired, give or take a minute,
   with an id, and with a lifetime of at most five minutes.
   */
  predicate Acceptable(a: Assertion, now: nat) {
    && a.issuedAt.Some? && a.expiresAt.Some? && a.jti.Some? && a.jti.value != ""
    && a.issuedAt.value <= now + 60 && now <= a.expiresAt.value + 60
    && a.issuedAt.value < a.expiresAt.value <= a.issuedAt.value + 300
  }

  /**
   Using an assertion: its lifetime is judged at `judged`, the marker's is computed at `read`, and
   the store is asked at `served`.
   */
  method UseAssertion(store: Memory.MemoryStore, a: Assertion, value: Value, judged: nat, read: nat, served: nat,
                      call: StoreCall)
    returns (accepted: bool)
    requires store.Valid() && judged <= read <= served
    modifies store
    ensures store.Valid() && (store.swept == old(store.swept) || store.swept == served)
    ensures accepted ==> call.Answered? && InLifetime(a, Seconds(judged)) && SingleUsable(a)
    ensures accepted ==> Acceptable(a, Seconds(judged))
    ensures !(InLifetime(a, Seconds(judged)) && SingleUsable(a)) ==> store.log == old(store.log)
    ensures InLifetime(a, Seconds(judged)) && SingleUsable(a) && store.swept <= served ==>
      Presented(old(store.log), served, AssertionMarker(InMemory, a, value, read, served), call, accepted, store.log)
    ensures Acceptable(a, Seconds(judged)) && Seconds(judged) + 60 <= MAX_SECONDS && store.swept <= served ==>
      Presented(old(store.log), served, AssertionMarker(InMemory, a, value, read, served), call, accepted, store.log)
  {
    if !InLifetime(a, Seconds(judged)) || !SingleUsable(a) || call == Failed(false) {
      return false;
    }
    var ttl := AssertionTtl(a.expiresAt.value, Seconds(read));
    var reply := store.PutIfAbsent(served, a.marker, value, ttl * SECOND);
    return call.Answered? && reply == Written(true);
  }

  /**
   Two redemptions of one code over one store, with freshness judged at both: after an accepted
   one, the next is accepted exactly if it is fresh, the store answers, and the marker is gone.
   */
  method RedeemTwice(store: Memory.MemoryStore, code: Code, v1: Value, judged1: nat, served1: nat, v2: Value,
                     judged2: nat, served2: nat, call: StoreCall)
    returns (accepted1: bool, accepted2: bool)
    requires store.Valid() && store.swept <= served1 <= served2 && judged1 <= served1 && judged2 <= served2
    requires Seconds(served2) + CODE_TTL + 1 < MAX_SECONDS
    modifies store
    ensures store.Valid()
    ensures accepted1 ==>
      (accepted2 <==>
        call.Answered? && CodeFresh(code.issuedAt, Seconds(judged2)) && served2 >= GoneAt(InMemory, served1, CODE_TTL))
  {
    ghost var log := store.log;
    accepted1 := RedeemCode(store, code, v1, judged1, served1, Answered);
    accepted2 := RedeemCode(store, code, v2, judged2, served2, call);
    if accepted1 {
      CodeMarkerTtl(InMemory, code, v1, served1);
      SecondRedemption(InMemory, log, code, v1, served1, [], v2, served2);
    }
  }

  /** The same over the table, for two redemptions whose markers carry different values. */
  method RedeemTwiceAtTable(store: Table.DynamoDbStore, code: Code, v1: Value, judged1: nat, served1: nat, v2: Value,
                            judged2: nat, served2: nat, call: StoreCall, lost: nat)
    returns (accepted1: bool, accepted2: bool)
    requires store.Valid() && store.reclaimed <= Seconds(served1) && served1 <= served2
    requires judged1 <= served1 && judged2 <= served2 && Seconds(served2) + CODE_TTL + 1 < MAX_SECONDS && v1 != v2
    requires var held := Holds(store.log, code.marker, Seconds(served1)); held.Some? ==> held.value.value != v1
    modifies store
    ensures store.Valid()
    ensures accepted1 ==>
      (accepted2 <==>
        call.Answered? && CodeFresh(code.issuedAt, Seconds(judged2)) && served2 >= GoneAt(DynamoDb, served1, CODE_TTL))
  {
    ghost var log := store.log;
    accepted1 := RedeemCodeAtTable(store, code, v1, judged1, served1, Answered, lost);
    if accepted1 {
      CodeMarkerTtl(DynamoDb, code, v1, served1);
      var w := Stored(code.marker, v1, Seconds(served1) + CodeMarker(DynamoDb, code, v1, served1).ttl);
      HoldsLast(log, w, code.marker, Seconds(served2));
      SecondRedemption(DynamoDb, log, code, v1, served1, [], v2, served2);
    }
    accepted2 := RedeemCodeAtTable(store, code, v2, judged2, served2, call, lost);
  }

  /**
   Two uses of one assertion over one store: after an accepted one, the next is accepted only if its
   store call came in a later second than the one its lifetime was judged in.
   */
  method UseTwice(store: Memory.MemoryStore, a: Assertion, v1: Value, judged1: nat, read1: nat, served1: nat, v2: Value,
                  judged2: nat, read2: nat, served2: nat, call: StoreCall)
    returns (accepted1: bool, accepted2: bool)
    requires store.Valid() && store.swept <= served1 <= served2
    requires judged1 <= read1 <= served1 && judged2 <= read2 <= served2 && Seconds(served2) < MAX_SECONDS
    modifies store
    ensures store.Valid()
    ensures accepted1 ==> a.expiresAt.Some?
    ensures accepted1 && call.Answered? && InLifetime(a, Seconds(judged2)) ==>
      (accepted2 <==> served2 >= GoneAt(InMemory, served1, AssertionTtl(a.expiresAt.value, Seconds(read1))))
    ensures accepted2 ==> call.Answered? && InLifetime(a, Seconds(judged2))
    ensures accepted1 && accepted2 ==> Seconds(judged2) < Seconds(served2)
  {
    ghost var log := store.log;
    accepted1 := UseAssertion(store, a, v1, judged1, read1, served1, Answered);
    accepted2 := UseAssertion(store, a, v2, judged2, read2, served2, call);
    if accepted1 && InLifetime(a, Seconds(judged2)) {
      var ttl1 := AssertionTtl(a.expiresAt.value, Seconds(read1));
      MarkerTtl(InMemory, a.marker, v1, served1, ttl1, served1);
      SecondUse(InMemory, log, a, v1, read1, served1, [], v2, judged2, read2, served2);
    }
  }
}
