/** Admission rules on the claims of a verified ID token. */
module IdTokenPolicy {
  import opened Wrappers
  import opened Glob

  /** A JSON value; numbers keep their text. */
  datatype Json =
    | Null
    | Boolean(truth: bool)
    | Number(text: string)
    | String(text: string)
    | Array(elements: seq<Json>)
    | Object(members: map<string, Json>)

  datatype Matcher =
    | StringEquals(value: string)
    | StringIn(values: seq<string>)
    | StringLike(pattern: string)
    | BooleanEquals(truth: bool)
    | ArrayContainsAny(values: seq<string>)
    | ArrayContainsAll(values: seq<string>)
    | ArrayLikeAny(pattern: string)

  type ClaimSet = seq<(string, Matcher)>

  datatype Policy = Policy(required: Option<ClaimSet>, anyOf: Option<seq<ClaimSet>>)

  datatype Reason = MissingClaim | WrongType | Matched | ValueMismatch

  /** The top-level claim of that name. */
  function Claim(claims: Json, name: string): Option<Json> {
    if claims.Object? && name in claims.members then Some(claims.members[name]) else None
  }

  predicate StringArray(value: Json) {
    value.Array? && forall i :: 0 <= i < |value.elements| ==> value.elements[i].String?
  }

  /** Whether the elements of a string array include `text`. */
  predicate Contains(value: Json, text: string) { value.Array? && String(text) in value.elements }

  /** The JSON type a matcher compares with. */
  predicate RightType(m: Matcher, value: Json) {
    if m.BooleanEquals? then value.Boolean?
    else if m.StringEquals? || m.StringIn? || m.StringLike? then value.String?
    else StringArray(value)
  }

  /** What a matcher asks of a claim. */
  predicate Accepts(m: Matcher, actual: Option<Json>) {
    actual.Some?
    && match m {
      case StringEquals(value) => actual.value == String(value)
      case StringIn(values) => actual.value.String? && actual.value.text in values
      case StringLike(pattern) => actual.value.String? && Like(pattern, actual.value.text)
      case BooleanEquals(value) => actual.value == Boolean(value)
      case ArrayContainsAny(values) => StringArray(actual.value) && exists v :: v in values && Contains(actual.value, v)
      case ArrayContainsAll(values) =>
        && StringArray(actual.value) && actual.value.elements != []
        && forall v :: v in values ==> Contains(actual.value, v)
      case ArrayLikeAny(pattern) =>
        StringArray(actual.value) && exists e :: e in actual.value.elements && Like(pattern, e.text)
    }
  }

  predicate SetAccepts(rules: ClaimSet, claims: Json) {
    forall i :: 0 <= i < |rules| ==> Accepts(rules[i].1, Claim(claims, rules[i].0))
  }

  /** What a policy asks of the claims. */
  predicate Admits(policy: Policy, claims: Json) {
    && (policy.required.Some? ==> SetAccepts(policy.required.value, claims))
    && (policy.anyOf.Some? ==> exists i :: 0 <= i < |policy.anyOf.value| && SetAccepts(policy.anyOf.value[i], claims))
  }

  /** The texts of a string array; nothing for any other value. */
  method Strings(value: Json) returns (elements: Option<seq<string>>)
    ensures elements.Some? <==> StringArray(value)
    ensures elements.Some? ==> |elements.value| == |value.elements|
    ensures elements.Some? ==> forall i :: 0 <= i < |value.elements| ==> value.elements[i].text == elements.value[i]
  {
    if !value.Array? {
      return None;
    }
    var texts := [];
    for i := 0 to |value.elements|
      invariant |texts| == i
      invariant forall j :: 0 <= j < i ==> value.elements[j] == String(texts[j])
    {
      if !value.elements[i].String? {
        return None;
      }
      texts := texts + [value.elements[i].text];
    }
    return Some(texts);
  }

  method AnyLike(pattern: string, elements: seq<string>) returns (matched: bool)
    ensures matched <==> exists i :: 0 <= i < |elements| && Like(pattern, elements[i])
  {
    for i := 0 to |elements|
      invariant forall j :: 0 <= j < i ==> !Like(pattern, elements[j])
    {
      matched := Glob.StringLike(pattern, elements[i]);
      if matched {
        return;
      }
    }
    return false;
  }

  /** A matcher against a claim, with the reason that is logged. */
  method Evaluate(m: Matcher, actual: Option<Json>) returns (matched: bool, reason: Reason)
    ensures matched <==> Accepts(m, actual)
    ensures matched <==> reason == Matched
    ensures reason == MissingClaim <==> actual.None?
    ensures reason == ValueMismatch ==> actual.Some? && RightType(m, actual.value)
    ensures reason == WrongType ==> actual.Some? && !RightType(m, actual.value)
  {
    if actual.None? {
      return false, MissingClaim;
    }
    var value := actual.value;
    if m.BooleanEquals? {
      if !value.Boolean? {
        return false, WrongType;
      }
      matched := value.truth == m.truth;
    } else if m.ArrayContainsAny? || m.ArrayContainsAll? || m.ArrayLikeAny? {
      var strings := Strings(value);
      if strings.None? {
        return false, WrongType;
      }
      var elements := strings.value;
      ElementsAreTexts(value, elements);
      matched := false;
      if elements != [] {
        match m
        case ArrayContainsAny(values) => matched := exists e :: e in elements && e in values;
        case ArrayContainsAll(values) => matched := forall v :: v in values ==> v in elements;
        case ArrayLikeAny(pattern) =>
          matched := AnyLike(pattern, elements);
          ElementsLike(pattern, value, elements);
      }
    } else {
      if !value.String? {
        return false, WrongType;
      }
      match m
      case StringEquals(expected) => matched := value.text == expected;
      case StringIn(values) => matched := value.text in values;
      case StringLike(pattern) => matched := Glob.StringLike(pattern, value.text);
    }
    reason := if matched then Matched else ValueMismatch;
  }

  lemma ElementsAreTexts(value: Json, elements: seq<string>)
    requires StringArray(value) && |elements| == |value.elements|
    requires forall i :: 0 <= i < |elements| ==> value.elements[i].text == elements[i]
    ensures forall t :: t in elements <==> Contains(value, t)
  {
    forall t | t in elements ensures Contains(value, t) {
      var i :| 0 <= i < |elements| && elements[i] == t;
      assert value.elements[i] == String(t);
    }
  }

  lemma ElementsLike(pattern: string, value: Json, elements: seq<string>)
    requires StringArray(value) && |elements| == |value.elements|
    requires forall i :: 0 <= i < |elements| ==> value.elements[i].text == elements[i]
    ensures (exists i :: 0 <= i < |elements| && Like(pattern, elements[i])) <==>
      exists e :: e in value.elements && Like(pattern, e.text)
  {
    forall i | 0 <= i < |elements| && Like(pattern, elements[i])
      ensures exists e :: e in value.elements && Like(pattern, e.text)
    {
      assert value.elements[i] in value.elements;
    }
    forall e | e in value.elements && Like(pattern, e.text)
      ensures exists i :: 0 <= i < |elements| && Like(pattern, elements[i])
    {
      var i :| 0 <= i < |elements| && value.elements[i] == e;
      assert elements[i] == e.text;
    }
  }

  /** Evaluates every rule, also after a mismatch. */
  method EvaluateSet(rules: ClaimSet, claims: Json) returns (accepted: bool)
    ensures accepted <==> SetAccepts(rules, claims)
  {
    accepted := true;
    for i := 0 to |rules|
      invariant accepted <==> forall j :: 0 <= j < i ==> Accepts(rules[j].1, Claim(claims, rules[j].0))
    {
      var matched, _ := Evaluate(rules[i].1, Claim(claims, rules[i].0));
      accepted := accepted && matched;
    }
  }

  method EvaluatePolicy(policy: Policy, claims: Json) returns (admitted: bool)
    ensures admitted <==> Admits(policy, claims)
  {
    var required := true;
    if policy.required.Some? {
      required := EvaluateSet(policy.required.value, claims);
    }
    var anyOf := true;
    if policy.anyOf.Some? {
      var branches := policy.anyOf.value;
      anyOf := false;
      for i := 0 to |branches|
        invariant anyOf <==> exists j :: 0 <= j < i && SetAccepts(branches[j], claims)
      {
        var matched := EvaluateSet(branches[i], claims);
        anyOf := anyOf || matched;
      }
    }
    return required && anyOf;
  }

  predicate ValidMatcher(m: Matcher) {
    m.StringIn? || m.ArrayContainsAny? || m.ArrayContainsAll? ==> m.values != []
  }

  predicate ValidSet(rules: ClaimSet) {
    rules != []
    && (forall i :: 0 <= i < |rules| ==> rules[i].0 != "" && ValidMatcher(rules[i].1))
  }

  /** What configuration validation demands of a policy. */
  predicate ValidPolicy(policy: Policy) {
    && (policy.required.Some? || policy.anyOf.Some?)
    && (policy.required.Some? ==> ValidSet(policy.required.value))
    && (policy.anyOf.Some? ==> policy.anyOf.value != [])
    && (policy.anyOf.Some? ==> forall i :: 0 <= i < |policy.anyOf.value| ==> ValidSet(policy.anyOf.value[i]))
  }

  /** A valid policy admits no token without at least one named claim that satisfies its matcher. */
  lemma ValidPolicyFailsClosed(policy: Policy, claims: Json)
    requires ValidPolicy(policy) && Admits(policy, claims)
    ensures claims.Object?
    ensures exists name, m :: name != "" && name in claims.members && Accepts(m, Some(claims.members[name]))
  {
    var rules: ClaimSet;
    if policy.required.Some? {
      rules := policy.required.value;
    } else {
      var i :| 0 <= i < |policy.anyOf.value| && SetAccepts(policy.anyOf.value[i], claims);
      rules := policy.anyOf.value[i];
    }
    assert Accepts(rules[0].1, Claim(claims, rules[0].0));
  }
}
