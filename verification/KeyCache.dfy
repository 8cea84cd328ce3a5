/** The cached keys of one client-assertion key-set URL, and how often they are fetched. */
module KeyCache {
  import opened Wrappers

  /** Ten minutes and thirty seconds, in nanoseconds. */
  const JWKS_TTL: nat := 600_000_000_000
  const JWKS_REFRESH_COOLDOWN: nat := 30_000_000_000

  /** A fetched key set: its content, and the key ids it can be searched for. */
  datatype KeySet = KeySet(content: seq<int>, kids: set<string>)

  datatype Fetch = Fetch(at: nat, keys: KeySet)

  /**
   What becomes of a fetch: the request is never sent (it cannot be built, or its caller gives up),
   the outbound policy denies it, it is sent and fails (or its caller gives up), or it is sent and
   yields a key set.
   */
  datatype Outcome = NotBuilt | Denied | Failed | Fetched(keys: KeySet)

  predicate Sent(outcome: Outcome) { outcome.Failed? || outcome.Fetched? }

  predicate Fresh(current: Option<Fetch>, now: nat) { current.Some? && now < current.value.at + JWKS_TTL }

  predicate Knows(keys: KeySet, kid: Option<string>) { kid.Some? ==> kid.value in keys.kids }

  /** Fetch `i`, the one after it, and the one after that; `begun` and `sent` are when each began and was sent. */
  predicate Apart(begun: seq<nat>, sent: seq<nat>, i: nat)
    requires |sent| == |begun|
  {
    && (i < |begun| ==> begun[i] <= sent[i])
    && (i + 1 < |begun| ==> sent[i] <= begun[i + 1])
    && (i + 2 < |begun| ==> begun[i] + JWKS_REFRESH_COOLDOWN <= begun[i + 2])
  }

  /** Of any three successive fetches the first and the third begin at least the cooldown apart. */
  ghost predicate Spaced(begun: seq<nat>, sent: seq<nat>) {
    |sent| == |begun| && forall i: nat :: Apart(begun, sent, i)
  }

  /** What the cache entry says about the fetches that were sent, up to `clock`. */
  ghost predicate Paced(begun: seq<nat>, sent: seq<nat>, current: Option<Fetch>, retryAfter: Option<nat>, clock: nat) {
    && Spaced(begun, sent)
    && (current.Some? ==> current.value.at <= clock)
    && (|begun| > 0 ==>
          var n := |begun| - 1;
          && sent[n] <= clock
          && if retryAfter.Some? then begun[n] + JWKS_REFRESH_COOLDOWN <= retryAfter.value
             else current.Some? && begun[n] <= current.value.at
                  && (n > 0 ==> begun[n - 1] + JWKS_REFRESH_COOLDOWN <= begun[n]))
  }

  /** No more than two fetches begin per cooldown, over any stretch of the run. */
  lemma {:induction false} FetchRate(begun: seq<nat>, sent: seq<nat>, i: nat, periods: nat)
    requires Spaced(begun, sent) && i + 2 * periods < |begun|
    ensures begun[i] + periods * JWKS_REFRESH_COOLDOWN <= begun[i + 2 * periods]
    decreases periods
  {
    if periods > 0 {
      assert Apart(begun, sent, i);
      FetchRate(begun, sent, i + 2, periods - 1);
      assert (periods - 1) * JWKS_REFRESH_COOLDOWN + JWKS_REFRESH_COOLDOWN == periods * JWKS_REFRESH_COOLDOWN;
    }
  }

  /** What is left of the cooldown between requests when the outbound policy took `delay` to allow the first. */
  function Remaining(delay: nat): nat { if delay < JWKS_REFRESH_COOLDOWN then JWKS_REFRESH_COOLDOWN - delay else 0 }

  /**
   Of three successive requests the first and the third are sent at least the cooldown apart, less
   what the outbound policy took to allow the first.
   */
  lemma SentPace(begun: seq<nat>, sent: seq<nat>, i: nat)
    requires Spaced(begun, sent) && i + 2 < |sent|
    ensures begun[i] <= sent[i] && sent[i] + Remaining(sent[i] - begun[i]) <= sent[i + 2]
  {
    assert Apart(begun, sent, i) && Apart(begun, sent, i + 1) && Apart(begun, sent, i + 2);
  }

  predicate Throttled(retryAfter: Option<nat>, now: nat) { retryAfter.Some? && retryAfter.value > now }

  /**
   A fetch keeps the pace: the next one waits for the cooldown, unless this one filled a cache that
   was empty or stale, which took long enough.
   */
  lemma FetchKeepsPace(begun: seq<nat>, sent: seq<nat>, current: Option<Fetch>, retryAfter: Option<nat>, clock: nat,
                       checked: nat, begins: nat, sends: nat, done: nat, outcome: Outcome)
    requires Paced(begun, sent, current, retryAfter, clock) && clock <= checked <= begins <= sends <= done
    requires !Throttled(retryAfter, begins) && Sent(outcome)
    ensures Paced(begun + [begins], sent + [sends],
                  if outcome.Fetched? then Some(Fetch(done, outcome.keys)) else current,
                  if outcome.Fetched? && !Fresh(current, checked) then None else Some(begins + JWKS_REFRESH_COOLDOWN),
                  done)
  {
    var n := |begun|;
    var next := begun + [begins];
    if n > 0 {
      assert next[n - 1] == begun[n - 1] && Apart(begun, sent, n - 1);
      if n > 1 { assert Apart(begun, sent, n - 2); }
    }
    forall i: nat ensures Apart(next, sent + [sends], i) { assert Apart(begun, sent, i); }
  }

  class KeyCache {
    var current: Option<Fetch>
    var retryAfter: Option<nat>
    /** When each fetch that was sent began and was sent, every key set received, and the latest time of use. */
    ghost var begun: seq<nat>
    ghost var sent: seq<nat>
    ghost var received: set<Fetch>
    ghost var clock: nat

    ghost predicate Valid()
      reads this
    {
      Paced(begun, sent, current, retryAfter, clock) && (current.Some? ==> current.value in received)
    }

    constructor ()
      ensures Valid() && begun == [] && sent == [] && received == {} && clock == 0
      ensures current == None && retryAfter == None
    {
      current, retryAfter, begun, sent, received, clock := None, None, [], [], {}, 0;
    }

    /**
     One call, which holds the entry's lock throughout. The clock is read when the cached set is
     judged, when the throttle is judged, when a fetch begins and the cooldown is set, when the
     outbound policy has allowed the request and it is sent, and when it is done.
     */
    method Keys(missingKid: Option<string>, checked: nat, judged: nat, begins: nat, sends: nat, done: nat,
                outcome: Outcome)
      returns (reply: Option<KeySet>)
      requires Valid() && clock <= checked <= judged <= begins <= sends <= done
      modifies this
      ensures Valid() && clock == done
      ensures reply.Some? ==> exists f :: f in received && f.keys == reply.value && checked < f.at + JWKS_TTL
      ensures var live := old(current).Some? && checked < old(current).value.at + JWKS_TTL;
        if live && (missingKid.None? || missingKid.value in old(current).value.keys.kids) then
          reply == Some(old(current).value.keys) && unchanged(`current, `retryAfter, `begun, `sent, `received)
        else if old(retryAfter).Some? && judged < old(retryAfter).value then
          reply == (if live then Some(old(current).value.keys) else None)
          && unchanged(`current, `retryAfter, `begun, `sent, `received)
        else
          && reply == (if outcome.Fetched? then Some(outcome.keys) else None)
          && begun == old(begun) + (if outcome.Failed? || outcome.Fetched? then [begins] else [])
          && sent == old(sent) + (if outcome.Failed? || outcome.Fetched? then [sends] else [])
          && received == old(received) + (if outcome.Fetched? then {Fetch(done, outcome.keys)} else {})
          && current == (if outcome.Fetched? then Some(Fetch(done, outcome.keys)) else old(current))
          && retryAfter == (if outcome.Denied? then old(retryAfter)
                            else if outcome.Fetched? && !live then None
                            else Some(begins + JWKS_REFRESH_COOLDOWN))
    {
      var live := Fresh(current, checked);
      clock := done;
      if live {
        if Knows(current.value.keys, missingKid) {
          return Some(current.value.keys);
        }
      }
      if Throttled(retryAfter, judged) {
        return if live then Some(current.value.keys) else None;
      }
      var forced := live;
      var previousRetry := retryAfter;
      if Sent(outcome) {
        FetchKeepsPace(begun, sent, current, retryAfter, old(clock), checked, begins, sends, done, outcome);
        begun := begun + [begins];
        sent := sent + [sends];
      }
      retryAfter := Some(begins + JWKS_REFRESH_COOLDOWN);
      match outcome
      case NotBuilt => return None;
      case Denied =>
        retryAfter := previousRetry;
        return None;
      case Failed => return None;
      case Fetched(keys) =>
        received := received + {Fetch(done, keys)};
        current := Some(Fetch(done, keys));
        if !forced {
          retryAfter := None;
        }
        assert Fetch(done, keys) in received;
        return Some(keys);
    }
  }

  /**
   No more than that can be said, whatever the delay: a request allowed late that fails, one that
   fills the cache when the cooldown is over, and at once one for a key id that is not in it.
   */
  method ThreeRequests(delay: nat) returns (cache: KeyCache)
    ensures fresh(cache) && cache.Valid() && |cache.sent| == |cache.begun| == 3
    ensures cache.sent[0] == cache.begun[0] + delay && cache.sent[2] == cache.sent[0] + Remaining(delay)
  {
    cache := new KeyCache();
    var after := if delay < JWKS_REFRESH_COOLDOWN then JWKS_REFRESH_COOLDOWN else delay;
    var keys := KeySet([], {});
    var _ := cache.Keys(None, 0, 0, 0, delay, delay, Failed);
    var _ := cache.Keys(None, after, after, after, after, after, Fetched(keys));
    var _ := cache.Keys(Some("rotated"), after, after, after, after, after, Fetched(keys));
  }
}
