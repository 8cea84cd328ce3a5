/**
 The contract of a transient store, as one ideal expiring store. Its state is only the list of
 writes that took effect; what a key holds at a moment is read off that list, so nothing is ever
 removed and no clean-up exists that could be observed.
 */
module IdealStore {
  import opened Wrappers
  import opened Bytes

  type Key = seq<byte>
  type Value = seq<byte>

  /** Longest accepted key. */
  const MAX_KEY_BYTES: nat := 1024

  datatype Write = Stored(key: Key, value: Value, expires: nat) | Deleted(key: Key)

  datatype Entry = Entry(value: Value, expiresIn: nat)

  datatype Op =
    | PutIfAbsent(key: Key, value: Value, ttl: nat)
    | Get(key: Key)
    | CompareAndSwap(key: Key, expected: Value, value: Value, ttl: nat)
    | Delete(key: Key)

  datatype Reply = Invalid | Written(ok: bool) | Found(entry: Option<Entry>) | Removed

  /** What `key` holds at `now`: the last write to it, unless that has expired or was a deletion. */
  function Holds(log: seq<Write>, key: Key, now: nat): (held: Option<Entry>)
    ensures held.Some? ==> held.value.expiresIn > 0
  {
    if log == [] then None
    else
      var last := log[|log| - 1];
      if last.key != key then Holds(log[..|log| - 1], key, now)
      else if last.Stored? && last.expires > now then Some(Entry(last.value, last.expires - now))
      else None
  }

  predicate ValidKey(key: Key) { 0 < |key| <= MAX_KEY_BYTES }

  predicate ValidOp(op: Op) {
    ValidKey(op.key) && (op.PutIfAbsent? || op.CompareAndSwap? ==> op.ttl > 0)
  }

  /** The answer to `op` if its key holds `held`. */
  function Respond(held: Option<Entry>, op: Op): Reply {
    if !ValidOp(op) then Invalid
    else
      match op
      case PutIfAbsent(_, _, _) => Written(held.None?)
      case Get(_) => Found(held)
      case CompareAndSwap(_, expected, _, _) => Written(held.Some? && held.value.value == expected)
      case Delete(_) => Removed
  }

  /** The writes after `op` at time `now` was answered with `reply`. */
  function Grown(log: seq<Write>, now: nat, op: Op, reply: Reply): seq<Write> {
    match op
    case Get(_) => log
    case Delete(key) => if reply.Removed? then log + [Deleted(key)] else log
    case _ => if reply == Written(true) then log + [Stored(op.key, op.value, now + op.ttl)] else log
  }

  /** The answer to `op` at time `now`. */
  function Answer(log: seq<Write>, now: nat, op: Op): Reply { Respond(Holds(log, op.key, now), op) }

  /** The writes after `op` at time `now`. */
  function After(log: seq<Write>, now: nat, op: Op): seq<Write> { Grown(log, now, op, Answer(log, now, op)) }

  /** Operations with the times at which they are served. */
  function AfterAll(log: seq<Write>, ops: seq<(nat, Op)>): seq<Write>
    decreases |ops|
  {
    if ops == [] then log else AfterAll(After(log, ops[0].0, ops[0].1), ops[1..])
  }

  lemma HoldsLast(log: seq<Write>, w: Write, key: Key, now: nat)
    ensures Holds(log + [w], key, now) ==
      if w.key != key then Holds(log, key, now)
      else if w.Stored? && w.expires > now then Some(Entry(w.value, w.expires - now)) else None
  {
    assert (log + [w])[..|log|] == log;
  }

  // ---- what is answered after a write, a swap and a deletion ----

  /** An operation that does not replace a live record of `key` that holds `value`. */
  predicate Spares(op: Op, key: Key, value: Value) {
    op.key != key || op.Get? || op.PutIfAbsent? || (op.CompareAndSwap? && op.expected != value)
  }

  /** Operations served before `expires` which leave that record alone. */
  predicate Bystanders(ops: seq<(nat, Op)>, key: Key, value: Value, expires: nat) {
    forall i :: 0 <= i < |ops| ==> ops[i].0 < expires && Spares(ops[i].1, key, value)
  }

  /** Whatever is answered to such an operation, what the key holds is the same at any time. */
  lemma SparedByOne(log: seq<Write>, now: nat, op: Op, reply: Reply, w: Write)
    requires w.Stored? && Holds(log, w.key, 0) == Some(Entry(w.value, w.expires))
    requires now < w.expires && Spares(op, w.key, w.value) && (op.key == w.key ==> reply == Answer(log, now, op))
    ensures Holds(Grown(log, now, op, reply), w.key, 0) == Some(Entry(w.value, w.expires))
  {
    HoldsAtAnyTime(log, w, now);
    var next := Grown(log, now, op, reply);
    if next != log { HoldsLast(log, next[|log|], w.key, 0); }
  }

  lemma {:induction false} SparedByAll(log: seq<Write>, w: Write, ops: seq<(nat, Op)>)
    requires w.Stored? && Holds(log, w.key, 0) == Some(Entry(w.value, w.expires))
    requires Bystanders(ops, w.key, w.value, w.expires)
    ensures Holds(AfterAll(log, ops), w.key, 0) == Some(Entry(w.value, w.expires))
    decreases |ops|
  {
    if ops != [] {
      var (t, op) := ops[0];
      SparedByOne(log, t, op, Answer(log, t, op), w);
      SparedByAll(After(log, t, op), w, ops[1..]);
    }
  }

  /**
   A write that succeeded, be it a creation or a swap, and operations since then that leave the
   record alone: at exactly the times before its expiry it is read with its value and the time it
   has left, every attempt to create the key is refused, and a swap is done if it expects that value;
   from then on nothing is read, the key can be created, and no swap is done.
   */
  lemma {:induction false} VisibleExactlyUntilExpiry(log: seq<Write>, written: nat, op: Op, ops: seq<(nat, Op)>,
                                                     now: nat)
    requires (op.PutIfAbsent? || op.CompareAndSwap?) && Answer(log, written, op) == Written(true)
    requires Bystanders(ops, op.key, op.value, written + op.ttl)
    ensures var end := AfterAll(After(log, written, op), ops); var expires := written + op.ttl;
      && Answer(end, now, Get(op.key)) ==
           Found(if now < expires then Some(Entry(op.value, expires - now)) else None)
      && (forall v, ttl :: ttl > 0 ==> Answer(end, now, PutIfAbsent(op.key, v, ttl)) == Written(now >= expires))
      && (forall expected, v, ttl :: ttl > 0 ==>
           Answer(end, now, CompareAndSwap(op.key, expected, v, ttl)) ==
             Written(now < expires && expected == op.value))
  {
    var w := Stored(op.key, op.value, written + op.ttl);
    HoldsLast(log, w, op.key, 0);
    SparedByAll(log + [w], w, ops);
    HoldsAtAnyTime(AfterAll(log + [w], ops), w, now);
  }

  /** An operation that does not write to `key`. */
  predicate Shuns(op: Op, key: Key) { op.key != key || op.Get? || op.CompareAndSwap? || op.Delete? }

  /** `key` holds nothing, at whatever time. */
  ghost predicate Vacant(log: seq<Write>, key: Key) { forall now :: Holds(log, key, now) == None }

  lemma StaysVacant(log: seq<Write>, now: nat, op: Op, reply: Reply, key: Key)
    requires Vacant(log, key) && Shuns(op, key) && (op.key == key ==> reply == Answer(log, now, op))
    ensures Vacant(Grown(log, now, op, reply), key)
  {
    var next := Grown(log, now, op, reply);
    assert Holds(log, key, now) == None;
    forall t ensures Holds(next, key, t) == None {
      if next != log { HoldsLast(log, next[|log|], key, t); }
      assert Holds(log, key, t) == None;
    }
  }

  lemma {:induction false} AllStayVacant(log: seq<Write>, key: Key, ops: seq<(nat, Op)>)
    requires Vacant(log, key) && forall i :: 0 <= i < |ops| ==> Shuns(ops[i].1, key)
    ensures Vacant(AfterAll(log, ops), key)
    decreases |ops|
  {
    if ops != [] {
      var (t, op) := ops[0];
      StaysVacant(log, t, op, Answer(log, t, op), key);
      AllStayVacant(After(log, t, op), key, ops[1..]);
    }
  }

  /**
   After a deletion, as in a store never written to, and until the key is created again: nothing is
   read, no swap is done, and the key can be created.
   */
  lemma {:induction false} NothingAfterDeletion(log: seq<Write>, deleted: nat, key: Key, ops: seq<(nat, Op)>, now: nat)
    requires log == [] || Answer(log, deleted, Delete(key)) == Removed
    requires 0 < |key| <= 1024 && forall i :: 0 <= i < |ops| ==> Shuns(ops[i].1, key)
    ensures var end := AfterAll(if log == [] then [] else After(log, deleted, Delete(key)), ops);
      && Answer(end, now, Get(key)) == Found(None)
      && (forall v, ttl :: ttl > 0 ==> Answer(end, now, PutIfAbsent(key, v, ttl)) == Written(true))
      && (forall expected, v, ttl :: ttl > 0 ==>
           Answer(end, now, CompareAndSwap(key, expected, v, ttl)) == Written(false))
  {
    var start := if log == [] then [] else After(log, deleted, Delete(key));
    forall t ensures Holds(start, key, t) == None {
      if log != [] { HoldsLast(log, Deleted(key), key, t); }
    }
    AllStayVacant(start, key, ops);
    assert Holds(AfterAll(start, ops), key, now) == None;
  }

  /** Keys that are empty or longer than 1024 bytes, and lifetimes of nothing, are refused as such. */
  lemma InvalidExactlyWhen(log: seq<Write>, now: nat, op: Op)
    ensures Answer(log, now, op) == Invalid <==>
      |op.key| == 0 || |op.key| > 1024 || ((op.PutIfAbsent? || op.CompareAndSwap?) && op.ttl == 0)
  {
  }

  lemma {:induction false} HoldsAtAnyTime(log: seq<Write>, w: Write, now: nat)
    requires w.Stored? && Holds(log, w.key, 0) == Some(Entry(w.value, w.expires))
    ensures Holds(log, w.key, now) == if now < w.expires then Some(Entry(w.value, w.expires - now)) else None
    decreases |log|
  {
    if log[|log| - 1].key != w.key { HoldsAtAnyTime(log[..|log| - 1], w, now); }
  }

  // ---- backends that throw expired records away ----

  /**
   The record of `key` was thrown away by a clean-up whose clock read `cleaned`, and a reader whose
   clock is behind that, at `now`, would still have been shown it.
   */
  predicate ThrownAway(log: seq<Write>, key: Key, now: nat, cleaned: nat) {
    var held := Holds(log, key, now);
    held.Some? && now + held.value.expiresIn <= cleaned
  }

  /** What a backend shows of `key` at `now`: what the ideal store holds, or nothing if it was thrown away. */
  predicate Shows(seen: Option<Entry>, log: seq<Write>, key: Key, now: nat, cleaned: nat) {
    seen == Holds(log, key, now) || (seen.None? && ThrownAway(log, key, now, cleaned))
  }

  /** What a backend may answer. Once its clean-ups read no later than `now`, that is what the ideal store answers. */
  predicate Refines(log: seq<Write>, now: nat, op: Op, reply: Reply, cleaned: nat) {
    reply == Answer(log, now, op) || (ThrownAway(log, op.key, now, cleaned) && reply == Respond(None, op))
  }

  /** A caller whose clock is not behind any clean-up is answered as by the ideal store. */
  lemma CurrentCallerSeesNoCleanUp(log: seq<Write>, now: nat, op: Op, reply: Reply, cleaned: nat)
    requires Refines(log, now, op, reply, cleaned) && cleaned <= now
    ensures reply == Answer(log, now, op) && Grown(log, now, op, reply) == After(log, now, op)
  {
  }
}
