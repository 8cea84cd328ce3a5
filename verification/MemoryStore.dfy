/**
 The in-process store: expired records are kept until a periodic sweep removes them. It refines the
 ideal store: neither the records kept too long nor the sweep can be observed, except by a caller
 whose clock reading, taken before it got the lock, is older than that of a sweep.
 */
module MemoryStore {
  import opened Wrappers
  import opened IdealStore

  /** Thirty seconds, in nanoseconds. */
  const MEMORY_SWEEP_INTERVAL: nat := 30_000_000_000

  datatype MemoryRecord = MemoryRecord(value: Value, expires: nat)

  function Kept(records: map<Key, MemoryRecord>, now: nat): map<Key, MemoryRecord> {
    map k | k in records && records[k].expires > now :: records[k]
  }

  function Seen(records: map<Key, MemoryRecord>, key: Key, now: nat): Option<Entry> {
    if key in records && records[key].expires > now then
      Some(Entry(records[key].value, records[key].expires - now))
    else None
  }

  /** The records show what the ideal store holds, up to what sweeps that read no later than `swept` removed. */
  ghost predicate Agrees(records: map<Key, MemoryRecord>, log: seq<Write>, swept: nat) {
    forall k, t {:trigger Seen(records, k, t)} {:trigger Holds(log, k, t)} ::
      Shows(Seen(records, k, t), log, k, t, swept)
  }

  /** A sweep removes only what no reading from then on would be shown. */
  lemma SweepIsUnobservable(records: map<Key, MemoryRecord>, log: seq<Write>, swept: nat, now: nat)
    requires Agrees(records, log, swept) && swept <= now
    ensures Agrees(Kept(records, now), log, now)
    ensures forall k, t :: now <= t ==> Seen(Kept(records, now), k, t) == Holds(log, k, t)
  {
    forall k, t ensures Shows(Seen(Kept(records, now), k, t), log, k, t, now) {
      assert Shows(Seen(records, k, t), log, k, t, swept);
    }
    forall k, t | now <= t ensures Seen(Kept(records, now), k, t) == Holds(log, k, t) {
      assert Shows(Seen(records, k, t), log, k, t, swept);
    }
  }

  lemma StoreKeepsAgreement(records: map<Key, MemoryRecord>, log: seq<Write>, swept: nat, key: Key, value: Value,
                            expires: nat)
    requires Agrees(records, log, swept)
    ensures Agrees(records[key := MemoryRecord(value, expires)], log + [Stored(key, value, expires)], swept)
  {
    var w := Stored(key, value, expires);
    var records' := records[key := MemoryRecord(value, expires)];
    forall k, t ensures Shows(Seen(records', k, t), log + [w], k, t, swept) {
      HoldsLast(log, w, k, t);
      assert Shows(Seen(records, k, t), log, k, t, swept);
    }
  }

  lemma RemoveKeepsAgreement(records: map<Key, MemoryRecord>, log: seq<Write>, swept: nat, key: Key)
    requires Agrees(records, log, swept)
    ensures Agrees(records - {key}, log + [Deleted(key)], swept)
  {
    forall k, t ensures Shows(Seen(records - {key}, k, t), log + [Deleted(key)], k, t, swept) {
      HoldsLast(log, Deleted(key), k, t);
      assert Shows(Seen(records, k, t), log, k, t, swept);
    }
  }

  /**
   Each operation is given the clock reading it took before it got the lock; readings may come in
   any order.
   */
  class MemoryStore {
    var records: map<Key, MemoryRecord>
    var nextSweep: nat
    /** The ideal store this one stands for, and the reading of the latest sweep. */
    ghost var log: seq<Write>
    ghost var swept: nat

    ghost predicate Valid()
      reads this
    {
      Agrees(records, log, swept) && swept <= nextSweep
    }

    constructor (now: nat)
      ensures Valid() && log == [] && swept == 0
    {
      records := map[];
      nextSweep := now + MEMORY_SWEEP_INTERVAL;
      log := [];
      swept := 0;
    }

    /** Clears out what has expired if it is time to. */
    method Lock(now: nat)
      requires Valid()
      modifies this
      ensures Valid() && log == old(log) && swept == (if now >= old(nextSweep) then now else old(swept))
      ensures nextSweep > now
    {
      if now >= nextSweep {
        SweepIsUnobservable(records, log, swept, now);
        records := Kept(records, now);
        nextSweep := now + MEMORY_SWEEP_INTERVAL;
        swept := now;
      }
    }

    method PutIfAbsent(now: nat, key: Key, value: Value, ttl: nat) returns (reply: Reply)
      requires Valid()
      modifies this
      ensures Valid() && (swept == old(swept) || swept == now)
      ensures var op := Op.PutIfAbsent(key, value, ttl);
        Refines(old(log), now, op, reply, swept) && log == Grown(old(log), now, op, reply)
    {
      if !ValidKey(key) || ttl == 0 {
        return Invalid;
      }
      Lock(now);
      assert Shows(Seen(records, key, now), log, key, now, swept);
      if key in records && records[key].expires > now {
        return Written(false);
      }
      StoreKeepsAgreement(records, log, swept, key, value, now + ttl);
      records := records[key := MemoryRecord(value, now + ttl)];
      log := log + [Stored(key, value, now + ttl)];
      return Written(true);
    }

    method Get(now: nat, key: Key) returns (reply: Reply)
      requires Valid()
      modifies this
      ensures Valid() && (swept == old(swept) || swept == now)
      ensures Refines(old(log), now, Op.Get(key), reply, swept) && log == old(log)
    {
      if !ValidKey(key) {
        return Invalid;
      }
      Lock(now);
      assert Shows(Seen(records, key, now), log, key, now, swept);
      if key in records && records[key].expires > now {
        return Found(Some(Entry(records[key].value, records[key].expires - now)));
      }
      return Found(None);
    }

    method CompareAndSwap(now: nat, key: Key, expected: Value, value: Value, ttl: nat) returns (reply: Reply)
      requires Valid()
      modifies this
      ensures Valid() && (swept == old(swept) || swept == now)
      ensures var op := Op.CompareAndSwap(key, expected, value, ttl);
        Refines(old(log), now, op, reply, swept) && log == Grown(old(log), now, op, reply)
    {
      if !ValidKey(key) || ttl == 0 {
        return Invalid;
      }
      Lock(now);
      assert Shows(Seen(records, key, now), log, key, now, swept);
      if key in records && records[key].expires > now && records[key].value == expected {
        StoreKeepsAgreement(records, log, swept, key, value, now + ttl);
        records := records[key := MemoryRecord(value, now + ttl)];
        log := log + [Stored(key, value, now + ttl)];
        return Written(true);
      }
      return Written(false);
    }

    method Delete(now: nat, key: Key) returns (reply: Reply)
      requires Valid()
      modifies this
      ensures Valid() && (swept == old(swept) || swept == now)
      ensures reply == Answer(old(log), now, Op.Delete(key)) && log == After(old(log), now, Op.Delete(key))
    {
      if !ValidKey(key) {
        return Invalid;
      }
      Lock(now);
      RemoveKeepsAgreement(records, log, swept, key);
      records := records - {key};
      log := log + [Deleted(key)];
      return Removed;
    }
  }
}
