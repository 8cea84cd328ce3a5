/**
 The DynamoDB store: whole-second expiry, and conditional writes whose outcome is ambiguous because
 a request may be sent again after its response was lost.
 */
module DynamoDbStore {
  import opened Wrappers
  import opened IdealStore
  import opened Clocks

  /** Expiry in seconds since the epoch. */
  datatype Item = Item(value: Value, expiresAt: nat)

  datatype PutCondition =
    | AbsentOrExpired(now: nat)
    | LiveWithValue(now: nat, expected: Value)

  datatype PutOutcome = Put | ConditionFailed(existing: Option<Item>)

  /** How the service judges a condition against the item in the table. */
  predicate Met(condition: PutCondition, existing: Option<Item>) {
    match condition
    case AbsentOrExpired(now) => existing.None? || existing.value.expiresAt <= now
    case LiveWithValue(now, expected) =>
      existing.Some? && existing.value.expiresAt > now && existing.value.value == expected
  }

  /** Whether `existing` is a live item holding exactly `written`. */
  predicate LiveCopy(existing: Option<Item>, written: Value, now: nat) {
    existing.Some? && existing.value.value == written && existing.value.expiresAt > now
  }

  /** What a caller is told of its conditional write. */
  predicate Applied(outcome: PutOutcome, written: Value, now: nat) {
    match outcome
    case Put => true
    case ConditionFailed(existing) => LiveCopy(existing, written, now)
  }

  /** A lifetime in nanoseconds, as the second the record expires at. */
  function Expiry(now: nat, ttl: nat): nat {
    SaturatingAdd(SaturatingAdd(now, ttl / SECOND + if ttl % SECOND > 0 then 1 else 0), 1)
  }

  predicate Visible(item: Item, instant: nat) { item.expiresAt > Seconds(instant) }

  /**
   A record is visible throughout its lifetime in real time, and no longer than two seconds beyond
   it, although both the writing and the reading instant are truncated to seconds.
   */
  lemma ExpiryRounding(value: Value, written: nat, ttl: nat, read: nat)
    requires ttl > 0 && Expiry(Seconds(written), ttl) < MAX_SECONDS
    ensures var item := Item(value, Expiry(Seconds(written), ttl));
      && (read < written + ttl ==> Visible(item, read))
      && (read >= written + ttl + 2 * SECOND ==> !Visible(item, read))
  {
    var whole := ttl / SECOND + if ttl % SECOND > 0 then 1 else 0;
    assert Expiry(Seconds(written), ttl) == Seconds(written) + whole + 1;
    assert ttl <= whole * SECOND < ttl + SECOND;
  }

  function Live(items: map<Key, Item>, key: Key, now: nat): Option<Entry> {
    if key in items && items[key].expiresAt > now then
      Some(Entry(items[key].value, items[key].expiresAt - now))
    else None
  }

  function Lookup(items: map<Key, Item>, key: Key): Option<Item> {
    if key in items then Some(items[key]) else None
  }

  /** The table shows what the ideal store holds, up to what the service reclaimed by `reclaimed`. */
  ghost predicate Agrees(items: map<Key, Item>, log: seq<Write>, reclaimed: nat) {
    forall k, t {:trigger Live(items, k, t)} {:trigger Holds(log, k, t)} ::
      Shows(Live(items, k, t), log, k, t, reclaimed)
  }

  lemma WriteKeepsAgreement(items: map<Key, Item>, log: seq<Write>, reclaimed: nat, key: Key, item: Item)
    requires Agrees(items, log, reclaimed)
    ensures Agrees(items[key := item], log + [Stored(key, item.value, item.expiresAt)], reclaimed)
  {
    var w := Stored(key, item.value, item.expiresAt);
    var items' := items[key := item];
    forall k, t ensures Shows(Live(items', k, t), log + [w], k, t, reclaimed) {
      HoldsLast(log, w, k, t);
      assert Shows(Live(items, k, t), log, k, t, reclaimed);
    }
  }

  lemma DeletionKeepsAgreement(items: map<Key, Item>, log: seq<Write>, reclaimed: nat, key: Key)
    requires Agrees(items, log, reclaimed)
    ensures Agrees(items - {key}, log + [Deleted(key)], reclaimed)
  {
    forall k, t ensures Shows(Live(items - {key}, k, t), log + [Deleted(key)], k, t, reclaimed) {
      HoldsLast(log, Deleted(key), k, t);
      assert Shows(Live(items, k, t), log, k, t, reclaimed);
    }
  }

  /** The answer, except that a refused write counts as done if a live record holds the very bytes. */
  function Resolved(held: Option<Entry>, op: Op): Reply {
    var ideal := Respond(held, op);
    if ideal == Written(false) && held.Some? && held.value.value == op.value then Written(true) else ideal
  }

  /**
   What a replica may do with a write: give the resolved answer for what the ideal store holds and
   write as that does; or the same for an absent record, if the service reclaimed the record by a
   clock ahead of the replica's.
   */
  predicate Serves(log: seq<Write>, now: nat, op: Op, reply: Reply, log': seq<Write>, reclaimed: nat) {
    || (reply == Resolved(Holds(log, op.key, now), op) && log' == After(log, now, op))
    || (&& ThrownAway(log, op.key, now, reclaimed)
        && reply == Resolved(None, op) && log' == Grown(log, now, op, Respond(None, op)))
  }

  /**
   A replica whose clock is not behind the service's is answered as by the ideal store, exactly
   unless a refused write finds its own bytes in the live record.
   */
  lemma CurrentReplicaDiffersExactlyWhen(log: seq<Write>, now: nat, op: Op, reply: Reply, log': seq<Write>,
                                         reclaimed: nat)
    requires Serves(log, now, op, reply, log', reclaimed) && reclaimed <= now
    ensures log' == After(log, now, op)
    ensures reply == Answer(log, now, op) <==>
      !(Answer(log, now, op) == Written(false) && Holds(log, op.key, now).Some?
        && Holds(log, op.key, now).value.value == op.value)
  {
  }

  /**
   The store over its table, used by any number of replicas. Each operation carries the clock
   reading of its replica, in seconds; readings may come in any order.
   */
  class DynamoDbStore {
    var items: map<Key, Item>
    /** The ideal store this one stands for, in seconds, and the service's clock when it last reclaimed items. */
    ghost var log: seq<Write>
    ghost var reclaimed: nat

    ghost predicate Valid()
      reads this
    {
      Agrees(items, log, reclaimed)
    }

    constructor ()
      ensures Valid() && log == [] && reclaimed == 0
    {
      items := map[];
      log := [];
      reclaimed := 0;
    }

    /** The service reclaims some expired items, at any time. */
    method Reclaim(now: nat, keys: set<Key>)
      requires Valid() && reclaimed <= now
      requires forall k :: k in keys && k in items ==> items[k].expiresAt <= now
      modifies this
      ensures Valid() && reclaimed == now && log == old(log)
    {
      forall k, t ensures Shows(Live(items - keys, k, t), log, k, t, now) {
        assert Shows(Live(items, k, t), log, k, t, reclaimed);
      }
      items := items - keys;
      reclaimed := now;
    }

    /**
     A conditional write that is sent again `lost` times because its responses were lost; only the
     last response arrives. With a condition read at the same moment and an item that is live
     then, the item is written exactly if the condition held at first, and the response is either
     that it was written or the item itself.
     */
    method PutItem(key: Key, item: Item, condition: PutCondition, lost: nat) returns (outcome: PutOutcome)
      requires item.expiresAt > condition.now
      modifies this`items
      ensures items == if Met(condition, Lookup(old(items), key)) then old(items)[key := item] else old(items)
      ensures Applied(outcome, item.value, condition.now) <==>
        || Met(condition, Lookup(old(items), key))
        || LiveCopy(Lookup(old(items), key), item.value, condition.now)
    {
      ghost var met := Met(condition, Lookup(items, key));
      var attempt := 0;
      outcome := Put;
      while attempt <= lost
        invariant attempt <= lost + 1
        invariant items == if met && attempt > 0 then old(items)[key := item] else old(items)
        invariant attempt > 0 ==>
          (Applied(outcome, item.value, condition.now) <==>
            met || LiveCopy(Lookup(old(items), key), item.value, condition.now))
      {
        var existing := Lookup(items, key);
        if Met(condition, existing) {
          items := items[key := item];
          outcome := Put;
        } else {
          outcome := ConditionFailed(existing);
        }
        attempt := attempt + 1;
      }
    }

    /** Creates the record with a lifetime in whole seconds. */
    method PutIfAbsent(now: nat, key: Key, value: Value, ttl: nat, lost: nat) returns (reply: Reply)
      requires Valid() && now < MAX_SECONDS
      modifies this
      ensures Valid() && reclaimed == old(reclaimed)
      ensures var op := Op.PutIfAbsent(key, value, if ttl == 0 then 0 else Expiry(now, ttl) - now);
        Serves(old(log), now, op, reply, log, reclaimed)
    {
      if !ValidKey(key) || ttl == 0 {
        return Invalid;
      }
      var item := Item(value, Expiry(now, ttl));
      assert Shows(Live(items, key, now), log, key, now, reclaimed);
      var outcome := PutItem(key, item, AbsentOrExpired(now), lost);
      if Live(old(items), key, now).None? {
        WriteKeepsAgreement(old(items), log, reclaimed, key, item);
        log := log + [Stored(key, value, item.expiresAt)];
      }
      return Written(Applied(outcome, value, now));
    }

    method Get(now: nat, key: Key) returns (reply: Reply)
      requires Valid()
      ensures Refines(log, now, Op.Get(key), reply, reclaimed)
    {
      if !ValidKey(key) {
        return Invalid;
      }
      assert Shows(Live(items, key, now), log, key, now, reclaimed);
      if key in items && items[key].expiresAt > now {
        return Found(Some(Entry(items[key].value, items[key].expiresAt - now)));
      }
      return Found(None);
    }

    /** Swaps the record's bytes and restarts its lifetime, in whole seconds. */
    method CompareAndSwap(now: nat, key: Key, expected: Value, value: Value, ttl: nat, lost: nat) returns (reply: Reply)
      requires Valid() && now < MAX_SECONDS
      modifies this
      ensures Valid() && reclaimed == old(reclaimed)
      ensures var op := Op.CompareAndSwap(key, expected, value, if ttl == 0 then 0 else Expiry(now, ttl) - now);
        Serves(old(log), now, op, reply, log, reclaimed)
    {
      if !ValidKey(key) || ttl == 0 {
        return Invalid;
      }
      var item := Item(value, Expiry(now, ttl));
      assert Shows(Live(items, key, now), log, key, now, reclaimed);
      var outcome := PutItem(key, item, LiveWithValue(now, expected), lost);
      if Live(old(items), key, now).Some? && Live(old(items), key, now).value.value == expected {
        WriteKeepsAgreement(old(items), log, reclaimed, key, item);
        log := log + [Stored(key, value, item.expiresAt)];
      }
      return Written(Applied(outcome, value, now));
    }

    method Delete(key: Key) returns (reply: Reply)
      requires Valid()
      modifies this
      ensures Valid() && reclaimed == old(reclaimed)
      ensures reply == Answer(old(log), 0, Op.Delete(key)) && log == After(old(log), 0, Op.Delete(key))
    {
      if !ValidKey(key) {
        return Invalid;
      }
      DeletionKeepsAgreement(items, log, reclaimed, key);
      items := items - {key};
      log := log + [Deleted(key)];
      return Removed;
    }
  }
}
