/**
 Concurrent conditional writers of one DynamoDB item. Requests of different callers interleave,
 responses get lost, and a request that was given up may still arrive later.
 */
module DynamoDbWriters {
  import opened Wrappers
  import opened IdealStore
  import opened DynamoDbStore

  type CallId = nat

  /** What a call writes and when; its condition carries the clock of its own replica. */
  datatype Call = Call(item: Item, condition: PutCondition)

  datatype Event =
    /** The service serves one request of `call`; `answered` if the response reaches the caller. */
    | Attempt(call: CallId, answered: bool)
    /** A deletion, or reclaiming an expired item. */
    | Remove

  /**
   The calls that wrote, in order, since the item was last removed or replaced as expired; `base` is
   what the item was when that began. A call that is sent again can write more than once.
   */
  datatype Era = Era(base: Option<Item>, wrote: seq<CallId>)

  /** `told` is what each finished call reported. There is always a current era, the last. */
  datatype State = State(item: Option<Item>, past: seq<Era>, era: Era, told: map<CallId, bool>)

  /** A write of `c`: one that replaces an expired item starts an era, as on an absent item. */
  function Write(calls: map<CallId, Call>, s: State, c: CallId): State
    requires c in calls
  {
    if calls[c].condition.AbsentOrExpired? && s.item.Some? then
      s.(item := Some(calls[c].item), past := s.past + [s.era], era := Era(None, [c]))
    else s.(item := Some(calls[c].item), era := s.era.(wrote := s.era.wrote + [c]))
  }

  function Next(calls: map<CallId, Call>, s: State, e: Event): State {
    match e
    case Remove => if s.item.None? then s else s.(item := None, past := s.past + [s.era], era := Era(None, []))
    case Attempt(c, answered) =>
      if c !in calls || (answered && c in s.told) then s
      else
        var call := calls[c];
        var met := Met(call.condition, s.item);
        var outcome := if met then Put else ConditionFailed(s.item);
        var s' := if met then Write(calls, s, c) else s;
        if answered then s'.(told := s'.told[c := Applied(outcome, call.item.value, call.condition.now)]) else s'
  }

  function Run(calls: map<CallId, Call>, s: State, events: seq<Event>): State {
    if events == [] then s else Next(calls, Run(calls, s, events[..|events| - 1]), events[|events| - 1])
  }

  /** Every value is written by one call only, and by nobody before. */
  predicate UniqueValues(calls: map<CallId, Call>, item: Option<Item>) {
    && (forall c, d :: c in calls && d in calls && calls[c].item.value == calls[d].item.value ==> c == d)
    && (forall c :: c in calls && item.Some? ==> calls[c].item.value != item.value.value)
  }

  function Begin(item: Option<Item>): State { State(item, [], Era(item, []), map[]) }

  /** The write of `c` took effect, in some era. */
  predicate Wrote(s: State, c: CallId) {
    c in s.era.wrote || exists k :: 0 <= k < |s.past| && c in s.past[k].wrote
  }

  lemma WroteStays(calls: map<CallId, Call>, s: State, e: Event, c: CallId)
    requires Wrote(s, c)
    ensures Wrote(Next(calls, s, e), c)
  {
    var s' := Next(calls, s, e);
    if c in s.era.wrote {
      if s'.past != s.past { assert s'.past[|s.past|] == s.era; }
    } else {
      var k :| 0 <= k < |s.past| && c in s.past[k].wrote;
      assert s'.past[k] == s.past[k];
    }
  }

  lemma WriterWrote(calls: map<CallId, Call>, s: State, c: CallId)
    requires c in calls
    ensures Wrote(Write(calls, s, c), c)
  {
    var wrote := Write(calls, s, c).era.wrote;
    assert wrote[|wrote| - 1] == c;
  }

  ghost predicate TruthfulInv(calls: map<CallId, Call>, first: Option<Item>, s: State) {
    && (s.item.Some? ==> s.item == first || exists c :: c in calls && Wrote(s, c) && s.item == Some(calls[c].item))
    && (forall c :: c in s.told && s.told[c] ==> Wrote(s, c))
  }

  lemma TruthfulStep(calls: map<CallId, Call>, first: Option<Item>, s: State, e: Event)
    requires UniqueValues(calls, first) && TruthfulInv(calls, first, s)
    ensures TruthfulInv(calls, first, Next(calls, s, e))
  {
    var s' := Next(calls, s, e);
    forall c | Wrote(s, c) ensures Wrote(s', c) { WroteStays(calls, s, e, c); }
    if e.Attempt? && e.call in calls && Met(calls[e.call].condition, s.item) && s' != s {
      WriterWrote(calls, s, e.call);
      assert Wrote(s', e.call);
    }
  }

  lemma {:induction false} TruthfulInvHolds(calls: map<CallId, Call>, first: Option<Item>, events: seq<Event>)
    requires UniqueValues(calls, first)
    ensures TruthfulInv(calls, first, Run(calls, Begin(first), events))
    decreases |events|
  {
    if events != [] {
      var n := |events| - 1;
      TruthfulInvHolds(calls, first, events[..n]);
      TruthfulStep(calls, first, Run(calls, Begin(first), events[..n]), events[n]);
    }
  }

  /** A caller that is told its write was done did write, whatever was lost, sent again or removed. */
  lemma ToldTrueMeansWrote(calls: map<CallId, Call>, first: Option<Item>, events: seq<Event>, c: CallId)
    requires UniqueValues(calls, first)
    ensures var s := Run(calls, Begin(first), events);
      c in s.told && s.told[c] ==> Wrote(s, c)
  {
    TruthfulInvHolds(calls, first, events);
  }

  /** The write of `c` is not there, for its own clock: replaced, removed, or expired. */
  predicate Superseded(calls: map<CallId, Call>, s: State, c: CallId)
    requires c in calls
  {
    s.item != Some(calls[c].item) || calls[c].item.expiresAt <= calls[c].condition.now
  }

  /**
   Exactly when a caller is told that its write was not done although it was: when the write of an
   earlier, unanswered request is superseded by the time the answered one is served, and the
   condition does not hold again.
   */
  lemma ToldFalseThoughWroteExactlyWhen(calls: map<CallId, Call>, first: Option<Item>, events: seq<Event>, c: CallId)
    requires UniqueValues(calls, first) && c in calls && c !in Run(calls, Begin(first), events).told
    ensures var s := Run(calls, Begin(first), events);
      var s' := Next(calls, s, Attempt(c, true));
      && c in s'.told
      && (!s'.told[c] && Wrote(s', c) <==>
           Wrote(s, c) && Superseded(calls, s, c) && !Met(calls[c].condition, s.item))
  {
    TruthfulInvHolds(calls, first, events);
    var s := Run(calls, Begin(first), events);
    if Met(calls[c].condition, s.item) { WriterWrote(calls, s, c); }
    if Wrote(s, c) { WroteStays(calls, s, Attempt(c, true), c); }
  }

  /**
   Such a run, with unique values, equal clocks and nothing removed or expired: call 0 creates the
   item, its response is lost, call 1 swaps the item, and call 0 is sent again.
   */
  lemma WriterIsToldFalse(v0: Value, v1: Value)
    requires v0 != v1
    ensures var calls := map[0 := Call(Item(v0, 10), AbsentOrExpired(5)), 1 := Call(Item(v1, 10), LiveWithValue(5,
      v0))];
      var s := Run(calls, Begin(None), [Attempt(0, false), Attempt(1, true), Attempt(0, true)]);
      && UniqueValues(calls, None) && s.past == [] && Wrote(s, 0) && s.told == map[0 := false, 1 := true]
  {
    var calls := map[0 := Call(Item(v0, 10), AbsentOrExpired(5)), 1 := Call(Item(v1, 10), LiveWithValue(5, v0))];
    var events := [Attempt(0, false), Attempt(1, true), Attempt(0, true)];
    var s1 := State(Some(Item(v0, 10)), [], Era(None, [0]), map[]);
    var s2 := State(Some(Item(v1, 10)), [], Era(None, [0, 1]), map[1 := true]);
    assert events[..2] == [Attempt(0, false), Attempt(1, true)] && events[..2][..1] == [Attempt(0, false)];
    assert events[..2][..1][..0] == [];
    assert Run(calls, Begin(None), [Attempt(0, false)]) == s1;
    assert Run(calls, Begin(None), events[..2]) == s2;
  }

  /** Two calls that compete: both create, or both swap from the same value. */
  predicate Rivals(a: Call, b: Call) {
    || (a.condition.AbsentOrExpired? && b.condition.AbsentOrExpired?)
    || (&& a.condition.LiveWithValue? && b.condition.LiveWithValue?
        && a.condition.expected == b.condition.expected)
  }

  /** The value a call replaces; `None` is the absent item. */
  function Replaces(call: Call): Option<Value> {
    if call.condition.LiveWithValue? then Some(call.condition.expected) else None
  }

  function Current(item: Option<Item>): Option<Value> {
    if item.Some? then Some(item.value.value) else None
  }

  /** What the item held before the `i`th write of an era. */
  function Before(calls: map<CallId, Call>, base: Option<Item>, wrote: seq<CallId>, i: nat): Option<Value>
    requires i <= |wrote| && forall c :: c in wrote ==> c in calls
  {
    if i == 0 then Current(base) else Some(calls[wrote[i - 1]].item.value)
  }

  /** Each write replaced what the one before it had written, and no call wrote twice. */
  ghost predicate Line(calls: map<CallId, Call>, base: Option<Item>, wrote: seq<CallId>) {
    && (forall c :: c in wrote ==> c in calls)
    && (forall i {:trigger Before(calls, base, wrote, i)} :: 0 <= i < |wrote| ==>
         Replaces(calls[wrote[i]]) == Before(calls, base, wrote, i))
    && (forall i, j :: 0 <= i < j < |wrote| ==> wrote[i] != wrote[j])
  }

  /** No value is replaced twice in an era. */
  lemma OneWritePerValue(calls: map<CallId, Call>, base: Option<Item>, wrote: seq<CallId>, i: nat, j: nat)
    requires UniqueValues(calls, base) && Line(calls, base, wrote)
    requires i <= |wrote| && j <= |wrote| && Before(calls, base, wrote, i) == Before(calls, base, wrote, j)
    ensures i == j
  {
    if 0 < i && 0 < j {
      assert wrote[i - 1] == wrote[j - 1];
    }
  }

  ghost predicate EraOk(calls: map<CallId, Call>, first: Option<Item>, era: Era) {
    (era.base == first || era.base.None?) && Line(calls, era.base, era.wrote)
  }

  ghost predicate ErasInv(calls: map<CallId, Call>, first: Option<Item>, s: State) {
    && (forall k :: 0 <= k < |s.past| ==> EraOk(calls, first, s.past[k]))
    && EraOk(calls, first, s.era)
    && s.item == if s.era.wrote == [] then s.era.base else Some(calls[s.era.wrote[|s.era.wrote| - 1]].item)
  }

  lemma LineGrows(calls: map<CallId, Call>, base: Option<Item>, wrote: seq<CallId>, c: CallId)
    requires UniqueValues(calls, base) && Line(calls, base, wrote)
    requires c in calls && Replaces(calls[c]) == Before(calls, base, wrote, |wrote|)
    ensures Line(calls, base, wrote + [c])
  {
    var next := wrote + [c];
    forall i | 0 <= i < |next| ensures Replaces(calls[next[i]]) == Before(calls, base, next, i) {
      if i < |wrote| { assert Before(calls, base, next, i) == Before(calls, base, wrote, i); }
    }
    forall i | 0 <= i < |wrote| ensures wrote[i] != c {
      if wrote[i] == c {
        OneWritePerValue(calls, base, wrote, i, |wrote|);
        assert false;
      }
    }
  }

  lemma WriteKeepsEras(calls: map<CallId, Call>, first: Option<Item>, s: State, c: CallId)
    requires UniqueValues(calls, first) && ErasInv(calls, first, s)
    requires c in calls && Met(calls[c].condition, s.item)
    ensures ErasInv(calls, first, Write(calls, s, c))
  {
    if calls[c].condition.AbsentOrExpired? && s.item.Some? {
      LineGrows(calls, None, [], c);
      assert [] + [c] == [c];
    } else {
      LineGrows(calls, s.era.base, s.era.wrote, c);
    }
  }

  lemma ErasStep(calls: map<CallId, Call>, first: Option<Item>, s: State, e: Event)
    requires UniqueValues(calls, first) && ErasInv(calls, first, s)
    ensures ErasInv(calls, first, Next(calls, s, e))
  {
    if e.Attempt? {
      if e.call in calls && Met(calls[e.call].condition, s.item) { WriteKeepsEras(calls, first, s, e.call); }
    } else {
      assert Line(calls, None, []);
    }
  }

  lemma {:induction false} ErasInvHolds(calls: map<CallId, Call>, first: Option<Item>, events: seq<Event>)
    requires UniqueValues(calls, first)
    ensures ErasInv(calls, first, Run(calls, Begin(first), events))
    decreases |events|
  {
    if events != [] {
      var n := |events| - 1;
      ErasInvHolds(calls, first, events[..n]);
      ErasStep(calls, first, Run(calls, Begin(first), events[..n]), events[n]);
    }
  }

  lemma OneRivalInLine(calls: map<CallId, Call>, first: Option<Item>, era: Era, c: CallId, d: CallId)
    requires UniqueValues(calls, first) && EraOk(calls, first, era)
    requires c in era.wrote && d in era.wrote && Rivals(calls[c], calls[d])
    ensures c == d
  {
    var i :| 0 <= i < |era.wrote| && era.wrote[i] == c;
    var j :| 0 <= j < |era.wrote| && era.wrote[j] == d;
    assert Before(calls, era.base, era.wrote, i) == Before(calls, era.base, era.wrote, j);
    OneWritePerValue(calls, era.base, era.wrote, i, j);
  }

  /**
   In every run, with deletions, expiry, clocks apart, lost responses and late repeats: between two
   moments at which the item is removed or replaced as expired, at most one of all callers that
   create it, and at most one of all that swap it from the same value, takes effect.
   */
  lemma OneRivalPerEra(calls: map<CallId, Call>, first: Option<Item>, events: seq<Event>, c: CallId, d: CallId)
    requires UniqueValues(calls, first) && c in calls && d in calls && c != d && Rivals(calls[c], calls[d])
    ensures var s := Run(calls, Begin(first), events);
      && !(c in s.era.wrote && d in s.era.wrote)
      && forall k :: 0 <= k < |s.past| ==> !(c in s.past[k].wrote && d in s.past[k].wrote)
  {
    ErasInvHolds(calls, first, events);
    var s := Run(calls, Begin(first), events);
    if c in s.era.wrote && d in s.era.wrote { OneRivalInLine(calls, first, s.era, c, d); }
    forall k | 0 <= k < |s.past| ensures !(c in s.past[k].wrote && d in s.past[k].wrote) {
      if c in s.past[k].wrote && d in s.past[k].wrote { OneRivalInLine(calls, first, s.past[k], c, d); }
    }
  }

  /** So if two rivals are both told that they wrote, the item was removed or expired in between. */
  lemma OneRivalIsToldTrue(calls: map<CallId, Call>, first: Option<Item>, events: seq<Event>, c: CallId, d: CallId)
    requires UniqueValues(calls, first) && c in calls && d in calls && c != d && Rivals(calls[c], calls[d])
    ensures var s := Run(calls, Begin(first), events);
      c in s.told && s.told[c] && d in s.told && s.told[d] ==> s.past != []
  {
    ToldTrueMeansWrote(calls, first, events, c);
    ToldTrueMeansWrote(calls, first, events, d);
    OneRivalPerEra(calls, first, events, c, d);
  }
}
