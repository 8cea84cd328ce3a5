/**
 A handle presented to a relay whose binding has changed, as a call of the rotation protocol: sealing
 decides whether the record opens, and the protocol does the rest.
 */
module RotationBinding {
  import B = Bindings
  import Bytes
  import opened RotationProtocol

  /** What opening the record's value under `binding` comes to in the protocol. */
  function Opening<P>(value: B.Sealed<P>, binding: B.Binding, key: seq<Bytes.byte>): Luck {
    if B.Open(value, B.Associated.Stored(B.RecordPurpose, binding, key)).None? then SealError(false) else Fine
  }

  /** Both states agree on the store and on everything any client was given. */
  predicate NothingDone(s: State, s': State) {
    && s'.records == s.records && s'.replies == s.replies && s'.heads == s.heads && s'.markers == s.markers
    && s'.names == s.names && s'.presentable == s.presentable && s'.returned == s.returned
  }

  /**
   Whatever the handle's record was sealed for under other bindings, a call that presents the handle
   ends with its first step: it is refused, has asked no upstream, and has written nothing.
   */
  lemma OtherBindingRefuses<P(!new)>(cfg: Config, s: State, c: CallerId, h: Handle, value: B.Sealed<P>,
                                     binding: B.Binding, key: seq<Bytes.byte>, ch: Choice)
    requires c in s.callers && s.callers[c].pc == Load(h)
    requires B.ValidBinding(binding) && B.NUL !in key
    requires Live(s.records, h, s.now) ==> B.SealedElsewhere(value, binding)
    requires ch.luck.StoreError? || ch.luck == Opening(value, binding, key)
    ensures Allowed(cfg, s, Act(c, ch))
    ensures var s' := Next(cfg, s, Act(c, ch));
      NothingDone(s, s') && s'.callers[c].pc == Done(if ch.luck.StoreError? then StoreFailed else Denied)
  {
    if Live(s.records, h, s.now) { B.SealedElsewhereStaysShut(value, binding, B.RecordPurpose, key); }
    assert Turn(cfg, s, Load(h), ch).effect.Nothing?;
  }
}
