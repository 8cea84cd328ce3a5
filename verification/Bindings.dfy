/**
 What refresh-token values are bound to: the fingerprint of an upstream identity, the associated
 data of everything sealed, and the derived store keys. Each encoding determines its fields.
 */
module Bindings {
  import opened Wrappers
  import opened Bytes

  const NUL: byte := 0

  predicate IsAscii(s: string) { forall i :: 0 <= i < |s| ==> s[i] as int < 128 }

  function Ascii(s: string): (b: seq<byte>)
    requires IsAscii(s)
    ensures |b| == |s| && forall i :: 0 <= i < |s| ==> b[i] as int == s[i] as int
  {
    seq(|s|, i requires 0 <= i < |s| && s[i] as int < 128 => s[i] as int as byte)
  }

  // Length-prefixed fields.

  const FINGERPRINT_DOMAIN := "oauthrelay refresh-token binding v1"

  /** Everything a refresh token depends on besides the relay's key. */
  datatype Identity = Identity(generation: Option<seq<byte>>, issuer: seq<byte>, tokenEndpoint: Option<seq<byte>>,
                               clientId: seq<byte>)

  function Pow256(n: nat): nat { if n == 0 then 1 else 256 * Pow256(n - 1) }

  /** The last `width` base-256 digits of `n`, most significant first. */
  function BigEndian(n: nat, width: nat): (b: seq<byte>)
    ensures |b| == width
  {
    if width == 0 then [] else BigEndian(n / 256, width - 1) + [(n % 256) as byte]
  }

  lemma {:induction false} BigEndianInjective(m: nat, n: nat, width: nat)
    requires m < Pow256(width) && n < Pow256(width) && BigEndian(m, width) == BigEndian(n, width)
    ensures m == n
    decreases width
  {
    if width > 0 {
      assert BigEndian(m, width)[..width - 1] == BigEndian(m / 256, width - 1);
      assert BigEndian(n, width)[..width - 1] == BigEndian(n / 256, width - 1);
      assert BigEndian(m, width)[width - 1] == BigEndian(n, width)[width - 1];
      BigEndianInjective(m / 256, n / 256, width - 1);
    }
  }

  /** A field as it is hashed; lengths are 64-bit. */
  function Field(value: Option<seq<byte>>): seq<byte> {
    if value.None? then [0] else [1] + BigEndian(|value.value|, 8) + value.value
  }

  predicate Fits(value: Option<seq<byte>>) { value.Some? ==> |value.value| < Pow256(8) }

  predicate IdentityFits(id: Identity) {
    Fits(id.generation) && Fits(Some(id.issuer)) && Fits(id.tokenEndpoint) && Fits(Some(id.clientId))
  }

  function FingerprintInput(id: Identity): seq<byte> {
    var endpointOn := Field(id.tokenEndpoint) + Field(Some(id.clientId));
    Ascii(FINGERPRINT_DOMAIN) + (Field(id.generation) + (Field(Some(id.issuer)) + endpointOn))
  }

  lemma AppendInjective(a: seq<byte>, b: seq<byte>, s: seq<byte>, t: seq<byte>)
    requires |a| == |b| && a + s == b + t
    ensures a == b && s == t
  {
    assert a == (a + s)[..|a|] && b == (b + t)[..|b|];
    assert s == (a + s)[|a|..] && t == (b + t)[|b|..];
  }

  lemma FieldParts(x: seq<byte>, s: seq<byte>)
    ensures Field(Some(x)) + s == [1] + (BigEndian(|x|, 8) + (x + s))
  {
    Regrouped([1], BigEndian(|x|, 8), x, s);
  }

  lemma Regrouped(a: seq<byte>, b: seq<byte>, c: seq<byte>, d: seq<byte>)
    ensures (a + b + c) + d == a + (b + (c + d))
  {
  }

  /** A field can be read off the front of anything. */
  lemma FieldInjective(a: Option<seq<byte>>, b: Option<seq<byte>>, s: seq<byte>, t: seq<byte>)
    requires Fits(a) && Fits(b) && Field(a) + s == Field(b) + t
    ensures a == b && s == t
  {
    assert (Field(a) + s)[0] == (Field(b) + t)[0];
    if a.None? {
      AppendInjective(Field(a), Field(b), s, t);
    } else {
      var x, y := a.value, b.value;
      FieldParts(x, s);
      FieldParts(y, t);
      AppendInjective([1], [1], BigEndian(|x|, 8) + (x + s), BigEndian(|y|, 8) + (y + t));
      AppendInjective(BigEndian(|x|, 8), BigEndian(|y|, 8), x + s, y + t);
      BigEndianInjective(|x|, |y|, 8);
      AppendInjective(x, y, s, t);
    }
  }

  /** Different identities are hashed from different bytes. */
  lemma FingerprintInputInjective(a: Identity, b: Identity)
    requires IdentityFits(a) && IdentityFits(b) && FingerprintInput(a) == FingerprintInput(b)
    ensures a == b
  {
    var d := Ascii(FINGERPRINT_DOMAIN);
    var a4, b4 := Field(Some(a.clientId)), Field(Some(b.clientId));
    var a3, b3 := Field(a.tokenEndpoint) + a4, Field(b.tokenEndpoint) + b4;
    var a2, b2 := Field(Some(a.issuer)) + a3, Field(Some(b.issuer)) + b3;
    AppendInjective(d, d, Field(a.generation) + a2, Field(b.generation) + b2);
    FieldInjective(a.generation, b.generation, a2, b2);
    FieldInjective(Some(a.issuer), Some(b.issuer), a3, b3);
    FieldInjective(a.tokenEndpoint, b.tokenEndpoint, a4, b4);
    assert a4 + [] == a4 && b4 + [] == b4;
    FieldInjective(Some(a.clientId), Some(b.clientId), [], []);
  }

  // Associated data.

  predicate RelayKey(s: seq<byte>) {
    s != [] && forall b :: b in s ==> Alphanumeric(b) || b in {0x2D, 0x2E, 0x2F, 0x5F}
  }

  datatype Binding = Binding(relay: seq<byte>, fingerprint: seq<byte>)

  predicate ValidBinding(b: Binding) { RelayKey(b.relay) && |b.fingerprint| == 32 }

  datatype Purpose = RecordPurpose | GracePurpose

  function PurposeText(p: Purpose): seq<byte> {
    if p.RecordPurpose? then Ascii("refresh-record") else Ascii("refresh-grace")
  }

  /** What a sealed value is for: a router envelope, a stateless handle, or a rotation value stored at `key`. */
  datatype Associated =
    | Envelope(relay: seq<byte>)
    | Handle(binding: Binding)
    | Stored(purpose: Purpose, binding: Binding, key: seq<byte>)

  predicate ValidAssociated(a: Associated) {
    match a
    case Envelope(relay) => RelayKey(relay)
    case Handle(binding) => ValidBinding(binding)
    case Stored(_, binding, key) => ValidBinding(binding) && NUL !in key
  }

  function AssociatedData(a: Associated): seq<byte> {
    match a
    case Envelope(relay) => relay
    case Handle(b) => Ascii("refresh:") + b.relay + [NUL] + b.fingerprint
    case Stored(p, b, key) => PurposeText(p) + [NUL] + (b.relay + [NUL] + (key + [NUL] + b.fingerprint))
  }

  /** A prefix without NUL can be read off up to the first NUL. */
  lemma NulInjective(a: seq<byte>, b: seq<byte>, s: seq<byte>, t: seq<byte>)
    requires NUL !in a && NUL !in b && a + [NUL] + s == b + [NUL] + t
    ensures a == b && s == t
  {
    var u := a + [NUL] + s;
    assert u[|a|] == NUL && u[|b|] == NUL;
    assert u == a + ([NUL] + s) && u == b + ([NUL] + t);
    AppendInjective(a, b, [NUL] + s, [NUL] + t);
    AppendInjective([NUL], [NUL], s, t);
  }

  lemma PurposesDiffer(p: Purpose, q: Purpose)
    ensures NUL !in PurposeText(p) && (PurposeText(p) == PurposeText(q) ==> p == q)
    ensures |PurposeText(p)| > 7 && PurposeText(p)[7] == 0x2D
  {
    assert |PurposeText(RecordPurpose)| == 14 && |PurposeText(GracePurpose)| == 13;
  }

  lemma HandleStart(relay: seq<byte>)
    requires RelayKey(relay)
    ensures NUL !in Ascii("refresh:") + relay && |Ascii("refresh:")| == 8 && Ascii("refresh:")[7] == 0x3A
  {
  }

  lemma StoredInjective(a: Associated, b: Associated)
    requires a.Stored? && b.Stored? && ValidAssociated(a) && ValidAssociated(b) &&
      AssociatedData(a) == AssociatedData(b)
    ensures a == b
  {
    PurposesDiffer(a.purpose, b.purpose);
    PurposesDiffer(b.purpose, a.purpose);
    var x, y := a.key + [NUL] + a.binding.fingerprint, b.key + [NUL] + b.binding.fingerprint;
    NulInjective(PurposeText(a.purpose), PurposeText(b.purpose),
                 a.binding.relay + [NUL] + x, b.binding.relay + [NUL] + y);
    NulInjective(a.binding.relay, b.binding.relay, x, y);
    NulInjective(a.key, b.key, a.binding.fingerprint, b.binding.fingerprint);
  }

  /** Everything before the first NUL; an envelope has none. */
  function Head(a: Associated): seq<byte> {
    match a
    case Envelope(relay) => relay
    case Handle(b) => Ascii("refresh:") + b.relay
    case Stored(p, _, _) => PurposeText(p)
  }

  /** Everything behind it. */
  function Rest(a: Associated): seq<byte> {
    match a
    case Envelope(relay) => []
    case Handle(b) => b.fingerprint
    case Stored(_, b, key) => b.relay + [NUL] + (key + [NUL] + b.fingerprint)
  }

  lemma DataHasHead(a: Associated)
    requires ValidAssociated(a)
    ensures NUL !in Head(a)
    ensures AssociatedData(a) == if a.Envelope? then Head(a) else Head(a) + [NUL] + Rest(a)
  {
    if a.Handle? { HandleStart(a.binding.relay); }
    if a.Stored? { PurposesDiffer(a.purpose, a.purpose); }
  }

  lemma HeadsDiffer(h: Associated, p: Associated)
    requires h.Handle? && p.Stored? && ValidAssociated(h)
    ensures Head(h) != Head(p)
  {
    HandleStart(h.binding.relay);
    PurposesDiffer(p.purpose, p.purpose);
    assert Head(h)[7] == 0x3A;
  }

  /** Equal associated data means the same kind of value, purpose, relay, store key and fingerprint. */
  lemma AssociatedDataInjective(a: Associated, b: Associated)
    requires ValidAssociated(a) && ValidAssociated(b) && AssociatedData(a) == AssociatedData(b)
    ensures a == b
  {
    DataHasHead(a);
    DataHasHead(b);
    if !a.Envelope? && !b.Envelope? {
      NulInjective(Head(a), Head(b), Rest(a), Rest(b));
      if a.Stored? && b.Stored? {
        StoredInjective(a, b);
      } else if a.Handle? && b.Handle? {
        AppendInjective(Ascii("refresh:"), Ascii("refresh:"), a.binding.relay, b.binding.relay);
      } else {
        HeadsDiffer(if a.Handle? then a else b, if a.Handle? then b else a);
      }
    }
  }

  // Ideal sealing: a value opens under exactly the associated data it was sealed with.

  datatype Sealed<P> = Sealed(nonce: nat, data: seq<byte>, plaintext: P)

  function Seal<P>(nonce: nat, a: Associated, plaintext: P): Sealed<P> { Sealed(nonce, AssociatedData(a), plaintext) }

  function Open<P>(value: Sealed<P>, a: Associated): Option<P> {
    if value.data == AssociatedData(a) then Some(value.plaintext) else None
  }

  /** A sealed value opens for exactly the purpose it was sealed for. */
  lemma OpensOnlyAsSealed<P>(nonce: nat, a: Associated, plaintext: P, b: Associated)
    requires ValidAssociated(a) && ValidAssociated(b)
    ensures Open(Seal(nonce, a, plaintext), b) == if a == b then Some(plaintext) else None
  {
    if AssociatedData(a) == AssociatedData(b) { AssociatedDataInjective(a, b); }
  }

  /** The value was sealed for something, but not as a stored value under `binding`. */
  ghost predicate SealedElsewhere<P(!new)>(value: Sealed<P>, binding: Binding) {
    exists nonce, a, p :: value == Seal(nonce, a, p) && ValidAssociated(a) && !(a.Stored? && a.binding == binding)
  }

  lemma SealedElsewhereStaysShut<P(!new)>(value: Sealed<P>, binding: Binding, purpose: Purpose, key: seq<byte>)
    requires SealedElsewhere(value, binding) && ValidBinding(binding) && NUL !in key
    ensures Open(value, Stored(purpose, binding, key)) == None
  {
    var nonce, a, p :| value == Seal(nonce, a, p) && ValidAssociated(a) && !(a.Stored? && a.binding == binding);
    OpensOnlyAsSealed(nonce, a, p, Stored(purpose, binding, key));
  }

  // Store keys.

  /** Where a fact is stored. */
  datatype Place =
    | HandleRecord(relay: seq<byte>, handle: seq<byte>)
    | GraceResponse(relay: seq<byte>, handleKey: seq<byte>, claim: seq<byte>)
    | HeadPointer(relay: seq<byte>, family: seq<byte>)
    | RevokedMarker(relay: seq<byte>, family: seq<byte>)
    | CodeReplay(envelope: seq<byte>)
    | AssertionReplay(identity: seq<byte>)

  predicate ValidPlace(p: Place) {
    match p
    case HandleRecord(relay, _) => RelayKey(relay)
    case GraceResponse(relay, handleKey, claim) => RelayKey(relay) && NUL !in handleKey && |claim| == 16
    case HeadPointer(relay, family) => RelayKey(relay) && |family| == 16
    case RevokedMarker(relay, family) => RelayKey(relay) && |family| == 16
    case CodeReplay(_) => true
    case AssertionReplay(_) => true
  }

  function Prefix(p: Place): seq<byte> {
    match p
    case HandleRecord(_, _) => Ascii("refresh:handle:")
    case GraceResponse(_, _, _) => Ascii("refresh:grace:")
    case HeadPointer(_, _) => Ascii("refresh:head:")
    case RevokedMarker(_, _) => Ascii("refresh:revoked:")
    case CodeReplay(_) => Ascii("replay:code:")
    case AssertionReplay(_) => Ascii("replay:client-assertion:")
  }

  /** What is hashed or encoded behind the prefix. */
  function Material(p: Place): seq<byte> {
    match p
    case HandleRecord(relay, handle) => relay + [NUL] + (handle + [NUL])
    case GraceResponse(relay, handleKey, claim) => relay + [NUL] + (handleKey + [NUL] + (claim + [NUL]))
    case HeadPointer(relay, family) => relay + [NUL] + (family + [NUL])
    case RevokedMarker(relay, family) => relay + [NUL] + (family + [NUL])
    case CodeReplay(envelope) => envelope
    case AssertionReplay(identity) => identity
  }

  /** `text` stands for hashing and encoding; it is taken to be injective. */
  function KeyText(p: Place, text: seq<byte> -> seq<byte>): seq<byte> { Prefix(p) + text(Material(p)) }

  /** The kinds of store key, numbered. */
  function Kind(p: Place): nat {
    match p
    case HandleRecord(_, _) => 0
    case GraceResponse(_, _, _) => 1
    case HeadPointer(_, _) => 2
    case RevokedMarker(_, _) => 3
    case CodeReplay(_) => 4
    case AssertionReplay(_) => 5
  }

  lemma PrefixesDiffer(p: Place, q: Place)
    requires Kind(p) < Kind(q)
    ensures |Prefix(p)| > 10 && |Prefix(q)| > 10
    ensures Prefix(p)[2] != Prefix(q)[2] || Prefix(p)[8] != Prefix(q)[8] || Prefix(p)[10] != Prefix(q)[10]
  {
  }

  lemma MaterialInjective(p: Place, q: Place)
    requires ValidPlace(p) && ValidPlace(q) && Kind(p) == Kind(q) && Material(p) == Material(q)
    ensures p == q
  {
    match p
    case HandleRecord(relay, handle) =>
      NulInjective(relay, q.relay, handle + [NUL], q.handle + [NUL]);
      AppendInjective(handle, q.handle, [NUL], [NUL]);
    case GraceResponse(relay, handleKey, claim) =>
      NulInjective(relay, q.relay, handleKey + [NUL] + (claim + [NUL]), q.handleKey + [NUL] + (q.claim + [NUL]));
      NulInjective(handleKey, q.handleKey, claim + [NUL], q.claim + [NUL]);
      AppendInjective(claim, q.claim, [NUL], [NUL]);
    case HeadPointer(relay, family) =>
      NulInjective(relay, q.relay, family + [NUL], q.family + [NUL]);
      AppendInjective(family, q.family, [NUL], [NUL]);
    case RevokedMarker(relay, family) =>
      NulInjective(relay, q.relay, family + [NUL], q.family + [NUL]);
      AppendInjective(family, q.family, [NUL], [NUL]);
    case CodeReplay(_) =>
    case AssertionReplay(_) =>
  }

  /** No two facts share a store key, whatever relay, handle, claim or family they are about. */
  lemma PlacesHaveOwnKeys(p: Place, q: Place, text: seq<byte> -> seq<byte>)
    requires ValidPlace(p) && ValidPlace(q)
    requires forall a, b :: text(a) == text(b) ==> a == b
    requires KeyText(p, text) == KeyText(q, text)
    ensures p == q
  {
    if Kind(p) < Kind(q) {
      KeysDiffer(p, q, text);
    } else if Kind(q) < Kind(p) {
      KeysDiffer(q, p, text);
    } else {
      AppendInjective(Prefix(p), Prefix(q), text(Material(p)), text(Material(q)));
      MaterialInjective(p, q);
    }
  }

  lemma KeysDiffer(p: Place, q: Place, text: seq<byte> -> seq<byte>)
    requires Kind(p) < Kind(q)
    ensures KeyText(p, text) != KeyText(q, text)
  {
    PrefixesDiffer(p, q);
    var a, b := KeyText(p, text), KeyText(q, text);
    assert a[2] == Prefix(p)[2] && a[8] == Prefix(p)[8] && a[10] == Prefix(p)[10];
    assert b[2] == Prefix(q)[2] && b[8] == Prefix(q)[8] && b[10] == Prefix(q)[10];
  }
}
