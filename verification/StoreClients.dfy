/**
 Sequences of calls to the two stores, and what the last of them is answered. Clock readings may come
 in any order.
 */
module StoreClients {
  import opened Wrappers
  import opened Clocks
  import opened IdealStore
  import Memory = MemoryStore
  import Table = DynamoDbStore

  // ---- the in-process store ----

  /** A request to the in-process store. */
  method Ask(store: Memory.MemoryStore, now: nat, op: Op) returns (reply: Reply)
    requires store.Valid()
    modifies store
    ensures store.Valid() && (store.swept == old(store.swept) || store.swept == now)
    ensures Refines(old(store.log), now, op, reply, store.swept) && store.log == Grown(old(store.log), now, op, reply)
  {
    match op
    case PutIfAbsent(key, value, ttl) => reply := store.PutIfAbsent(now, key, value, ttl);
    case Get(key) => reply := store.Get(now, key);
    case CompareAndSwap(key, expected, value, ttl) => reply := store.CompareAndSwap(now, key, expected, value, ttl);
    case Delete(key) => reply := store.Delete(now, key);
  }

  /** Requests of others that leave a record alone. */
  method AskAll(store: Memory.MemoryStore, ops: seq<(nat, Op)>, ghost w: Write)
    requires store.Valid() && w.Stored? && store.swept < w.expires
    requires Holds(store.log, w.key, 0) == Some(Entry(w.value, w.expires))
    requires Bystanders(ops, w.key, w.value, w.expires)
    modifies store
    ensures store.Valid() && store.swept < w.expires
    ensures Holds(store.log, w.key, 0) == Some(Entry(w.value, w.expires))
  {
    for i := 0 to |ops|
      invariant store.Valid() && store.swept < w.expires
      invariant Holds(store.log, w.key, 0) == Some(Entry(w.value, w.expires))
    {
      var (now, op) := ops[i];
      ghost var log := store.log;
      HoldsAtAnyTime(log, w, now);
      var reply := Ask(store, now, op);
      SparedByOne(log, now, op, reply, w);
    }
  }

  /**
   A record written at `written`, requests of others that leave it alone, and a last one for the same
   key at `now`: it is answered from the record until that expires, and as for no record from then on.
   */
  method WriteThen(store: Memory.MemoryStore, written: nat, op: Op, ops: seq<(nat, Op)>, now: nat, last: Op)
    returns (wrote: Reply, reply: Reply)
    requires store.Valid() && (op.PutIfAbsent? || op.CompareAndSwap?) && store.swept < written + op.ttl
    requires Bystanders(ops, op.key, op.value, written + op.ttl) && last.key == op.key
    modifies store
    ensures store.Valid()
    ensures wrote == Written(true) && last.Get? ==>
      reply == Found(if now < written + op.ttl then Some(Entry(op.value, written + op.ttl - now)) else None)
    ensures wrote == Written(true) && last.PutIfAbsent? && last.ttl > 0 ==> reply == Written(now >= written + op.ttl)
    ensures wrote == Written(true) && last.CompareAndSwap? && last.ttl > 0 ==>
      reply == Written(now < written + op.ttl && last.expected == op.value)
  {
    ghost var before := store.log;
    wrote := Ask(store, written, op);
    if wrote != Written(true) {
      return wrote, Invalid;
    }
    ghost var w := Stored(op.key, op.value, written + op.ttl);
    HoldsLast(before, w, op.key, 0);
    AskAll(store, ops, w);
    HoldsAtAnyTime(store.log, w, now);
    reply := Ask(store, now, last);
  }

  /** A deleted record, requests of others that do not create it, and a last one for the same key. */
  method DeleteThen(store: Memory.MemoryStore, deleted: nat, key: Key, ops: seq<(nat, Op)>, now: nat, last: Op)
    returns (removed: Reply, reply: Reply)
    requires store.Valid() && (forall i :: 0 <= i < |ops| ==> Shuns(ops[i].1, key)) && last.key == key
    modifies store
    ensures store.Valid()
    ensures removed == Removed && last.Get? ==> reply == Found(None)
    ensures removed == Removed && last.PutIfAbsent? && last.ttl > 0 ==> reply == Written(true)
    ensures removed == Removed && last.CompareAndSwap? && last.ttl > 0 ==> reply == Written(false)
  {
    ghost var before := store.log;
    removed := Ask(store, deleted, Op.Delete(key));
    if removed != Removed {
      return removed, Invalid;
    }
    VacantOnceDeleted(before, key);
    for i := 0 to |ops|
      invariant store.Valid() && Vacant(store.log, key)
    {
      ghost var log := store.log;
      assert Holds(log, key, ops[i].0) == None;
      var answer := Ask(store, ops[i].0, ops[i].1);
      StaysVacant(log, ops[i].0, ops[i].1, answer, key);
    }
    assert Holds(store.log, key, now) == None;
    reply := Ask(store, now, last);
  }

  lemma VacantOnceDeleted(log: seq<Write>, key: Key)
    ensures Vacant(log + [Deleted(key)], key)
  {
    forall t ensures Holds(log + [Deleted(key)], key, t) == None { HoldsLast(log, Deleted(key), key, t); }
  }

  // ---- the DynamoDB store ----

  /** The lifetime of a write in whole seconds, as the table counts it. */
  function InSeconds(now: nat, op: Op): Op {
    if (op.PutIfAbsent? || op.CompareAndSwap?) && op.ttl > 0 then
      op.(ttl := SaturatingSub(Table.Expiry(now, op.ttl), now))
    else op
  }

  /** A request to the table, with its conditional writes sent again `lost` times. */
  method AskTable(store: Table.DynamoDbStore, now: nat, op: Op, lost: nat) returns (reply: Reply)
    requires store.Valid() && now < MAX_SECONDS
    modifies store
    ensures store.Valid() && store.reclaimed == old(store.reclaimed)
    ensures op.Get? ==> Refines(store.log, now, op, reply, store.reclaimed) && store.log == old(store.log)
    ensures op.Delete? ==> reply == Answer(old(store.log), now, op) && store.log == After(old(store.log), now, op)
    ensures op.PutIfAbsent? || op.CompareAndSwap? ==>
      Table.Serves(old(store.log), now, InSeconds(now, op), reply, store.log, store.reclaimed)
  {
    match op
    case PutIfAbsent(key, value, ttl) => reply := store.PutIfAbsent(now, key, value, ttl, lost);
    case Get(key) => reply := store.Get(now, key);
    case CompareAndSwap(key, expected, value, ttl) =>
      reply := store.CompareAndSwap(now, key, expected, value, ttl, lost);
    case Delete(key) => reply := store.Delete(key);
  }

  /** What the table's log comes to, whichever of the possible answers a write got. */
  lemma ServedLog(log: seq<Write>, now: nat, op: Op, reply: Reply, log': seq<Write>, reclaimed: nat) returns (r: Reply)
    requires Table.Serves(log, now, op, reply, log', reclaimed)
    ensures log' == Grown(log, now, op, r)
    ensures r == Answer(log, now, op) || (ThrownAway(log, op.key, now, reclaimed) && r == Respond(None, op))
  {
    if reply == Table.Resolved(Holds(log, op.key, now), op) && log' == After(log, now, op) {
      r := Answer(log, now, op);
    } else {
      r := Respond(None, op);
    }
  }

  /** One request of another to the table that leaves a record alone. */
  method AskTableBeside(store: Table.DynamoDbStore, now: nat, op: Op, lost: nat, ghost w: Write)
    requires store.Valid() && now < MAX_SECONDS && w.Stored? && store.reclaimed < w.expires
    requires Holds(store.log, w.key, 0) == Some(Entry(w.value, w.expires))
    requires now < w.expires && Spares(op, w.key, w.value)
    modifies store
    ensures store.Valid() && store.reclaimed == old(store.reclaimed)
    ensures Holds(store.log, w.key, 0) == Some(Entry(w.value, w.expires))
  {
    ghost var log := store.log;
    HoldsAtAnyTime(log, w, now);
    var reply := AskTable(store, now, op, lost);
    if op.PutIfAbsent? || op.CompareAndSwap? {
      ghost var r := ServedLog(log, now, InSeconds(now, op), reply, store.log, store.reclaimed);
      SparedByOne(log, now, InSeconds(now, op), r, w);
    } else {
      SparedByOne(log, now, op, Answer(log, now, op), w);
    }
  }

  /**
   The same over the table, in seconds, for writes whose values are not there already, which the
   store contract asks for: the record lasts until `Expiry`, which is its lifetime rounded up and a
   second more.
   */
  method WriteToTableThen(store: Table.DynamoDbStore, written: nat, op: Op, ops: seq<(nat, Op)>, now: nat, last: Op,
                          lost: nat)
    returns (wrote: Reply, reply: Reply)
    requires store.Valid() && (op.PutIfAbsent? || op.CompareAndSwap?) && last.key == op.key
    requires written < MAX_SECONDS && now < MAX_SECONDS && forall i :: 0 <= i < |ops| ==> ops[i].0 < MAX_SECONDS
    requires store.reclaimed < Table.Expiry(written, op.ttl)
    requires Bystanders(ops, op.key, op.value, Table.Expiry(written, op.ttl))
    requires var held := Holds(store.log, op.key, written); held.Some? ==> held.value.value != op.value
    modifies store
    ensures store.Valid()
    ensures var expires := Table.Expiry(written, op.ttl);
      wrote == Written(true) ==>
        && (last.Get? ==> reply == Found(if now < expires then Some(Entry(op.value, expires - now)) else None))
        && (last.PutIfAbsent? && last.ttl > 0 && last.value != op.value ==> reply == Written(now >= expires))
        && (last.CompareAndSwap? && last.ttl > 0 && last.value != op.value ==>
             reply == Written(now < expires && last.expected == op.value))
  {
    ghost var before := store.log;
    ghost var expires := Table.Expiry(written, op.ttl);
    wrote := AskTable(store, written, op, lost);
    if wrote != Written(true) {
      return wrote, Invalid;
    }
    ghost var w := Stored(op.key, op.value, expires);
    assert store.log == before + [w];
    HoldsLast(before, w, op.key, 0);
    for i := 0 to |ops|
      invariant store.Valid() && store.reclaimed < expires
      invariant Holds(store.log, w.key, 0) == Some(Entry(w.value, w.expires))
    {
      AskTableBeside(store, ops[i].0, ops[i].1, lost, w);
    }
    reply := AskTableFor(store, now, last, lost, w);
  }

  /** A request to the table for the key of a record it holds or held. */
  method AskTableFor(store: Table.DynamoDbStore, now: nat, op: Op, lost: nat, ghost w: Write) returns (reply: Reply)
    requires store.Valid() && now < MAX_SECONDS && w.Stored? && store.reclaimed < w.expires && op.key == w.key
    requires Holds(store.log, w.key, 0) == Some(Entry(w.value, w.expires)) && ValidKey(op.key)
    modifies store
    ensures store.Valid()
    ensures op.Get? ==> reply == Found(if now < w.expires then Some(Entry(w.value, w.expires - now)) else None)
    ensures op.PutIfAbsent? && op.ttl > 0 && op.value != w.value ==> reply == Written(now >= w.expires)
    ensures op.CompareAndSwap? && op.ttl > 0 && op.value != w.value ==>
      reply == Written(now < w.expires && op.expected == w.value)
  {
    HoldsAtAnyTime(store.log, w, now);
    reply := AskTable(store, now, op, lost);
  }

  /** And after a deletion. */
  method DeleteFromTableThen(store: Table.DynamoDbStore, deleted: nat, key: Key, ops: seq<(nat, Op)>, now: nat,
                             last: Op, lost: nat)
    returns (removed: Reply, reply: Reply)
    requires store.Valid() && (forall i :: 0 <= i < |ops| ==> Shuns(ops[i].1, key)) && last.key == key
    requires deleted < MAX_SECONDS && now < MAX_SECONDS && forall i :: 0 <= i < |ops| ==> ops[i].0 < MAX_SECONDS
    modifies store
    ensures store.Valid()
    ensures removed == Removed && last.Get? ==> reply == Found(None)
    ensures removed == Removed && last.PutIfAbsent? && last.ttl > 0 ==> reply == Written(true)
    ensures removed == Removed && last.CompareAndSwap? && last.ttl > 0 ==> reply == Written(false)
  {
    ghost var before := store.log;
    removed := AskTable(store, deleted, Op.Delete(key), lost);
    if removed != Removed {
      return removed, Invalid;
    }
    VacantOnceDeleted(before, key);
    for i := 0 to |ops|
      invariant store.Valid() && Vacant(store.log, key)
    {
      AskVacantTable(store, ops[i].0, ops[i].1, lost, key);
    }
    assert Holds(store.log, key, now) == None;
    reply := AskTable(store, now, last, lost);
  }

  /** One request to the table that does not create `key`. */
  method AskVacantTable(store: Table.DynamoDbStore, now: nat, op: Op, lost: nat, ghost key: Key)
    requires store.Valid() && now < MAX_SECONDS && Vacant(store.log, key) && Shuns(op, key)
    modifies store
    ensures store.Valid() && Vacant(store.log, key)
  {
    ghost var log := store.log;
    assert Holds(log, key, now) == None;
    var reply := AskTable(store, now, op, lost);
    if op.PutIfAbsent? || op.CompareAndSwap? {
      ghost var r := ServedLog(log, now, InSeconds(now, op), reply, store.log, store.reclaimed);
      StaysVacant(log, now, InSeconds(now, op), r, key);
    } else {
      StaysVacant(log, now, op, Answer(log, now, op), key);
    }
  }
}
