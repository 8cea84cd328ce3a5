/**
 Rewriting the `refresh_token` members of a token response. A body is the list of its members in
 document order, duplicates included; values that are not strings are kept as their text.
 */
module TokenMembers {
  import opened Wrappers
  import opened Bindings

  /** A string a `refresh_token` can be: any text, or a handle, which is a sealed token. */
  datatype Token = Plain(text: string) | SealedHandle(envelope: Sealed<Opened>)

  datatype Opened = Opened(token: Token, issuedAt: nat)

  /** A value's text: a string literal in one of its spellings, or anything else. */
  datatype Raw = Literal(token: Token, spelling: nat) | Other(text: string)

  datatype Member = Member(name: string, value: Raw)

  const REFRESH_TOKEN := "refresh_token"

  /** A body that is not a JSON object may still name a refresh token. */
  datatype Body = Object(members: seq<Member>) | NotAnObject(namesRefreshToken: bool)

  datatype SealAnswer = SealsWith(nonce: nat) | SealFails | SealerUnavailable

  datatype Substitution = Unchanged | Replaced(members: seq<Member>) | Failed(error: SubstitutionError)

  datatype SubstitutionError = Sealing | Unavailable | UnrecognizedBody

  predicate Success(status: int) { 200 <= status < 300 }

  /** How a token is written when it is encoded anew. */
  function Encoded(token: Token): Raw { Literal(token, 0) }

  /** A member that carries a refresh token: a non-empty string of that name. */
  predicate Carries(m: Member) {
    m.name == REFRESH_TOKEN && m.value.Literal? && m.value.token != Plain("")
  }

  function OpenHandle(binding: Binding, token: Token): Option<Opened> {
    if token.SealedHandle? then Open(token.envelope, Handle(binding)) else None
  }

  function SealedMember(m: Member, binding: Binding, nonce: nat, issuedAt: nat): Member
    requires Carries(m)
  {
    Member(m.name, Encoded(SealedHandle(Seal(nonce, Handle(binding), Opened(m.value.token, issuedAt)))))
  }

  /** A non-empty string of that name has become a handle that opens to it; anything else is as it was. */
  predicate SealedFrom(before: Member, after: Member, binding: Binding, issuedAt: nat) {
    if before.name == "refresh_token" && before.value.Literal? && before.value.token != Plain("") then
      after.name == "refresh_token" && after.value.Literal?
      && OpenHandle(binding, after.value.token) == Some(Opened(before.value.token, issuedAt))
    else after == before
  }

  /** `after` is `before` with every refresh token sealed, and nothing else touched. */
  ghost predicate SealedCopy(before: seq<Member>, after: seq<Member>, binding: Binding, issuedAt: nat) {
    |after| == |before| && forall i :: 0 <= i < |before| ==> SealedFrom(before[i], after[i], binding, issuedAt)
  }

  /** The sealer answers `failure` for the refresh token at `i` and seals those before it. */
  ghost predicate FirstFailure(members: seq<Member>, answers: nat -> SealAnswer, i: nat, failure: SealAnswer) {
    && i < |members| && Carries(members[i]) && answers(i) == failure
    && forall j :: 0 <= j < i && Carries(members[j]) ==> answers(j).SealsWith?
  }

  /**
   Seals every refresh token of a successful response in place. `answers` is how the sealer would
   answer for each member. An error carries no body, so it cannot expose a token.
   */
  method SealTokenResponse(binding: Binding, status: int, body: Body, issuedAt: nat, answers: nat -> SealAnswer)
    returns (r: Substitution)
    ensures r.Unchanged? <==>
      || status < 200 || status >= 300 || (body.NotAnObject? && !body.namesRefreshToken)
      || (body.Object? && forall i :: 0 <= i < |body.members| && body.members[i].name == "refresh_token" ==>
           body.members[i].value.Other? || body.members[i].value.token == Plain(""))
    ensures r.Replaced? ==> body.Object? && SealedCopy(body.members, r.members, binding, issuedAt)
    ensures r == Failed(UnrecognizedBody) <==>
      200 <= status < 300 && body.NotAnObject? && body.namesRefreshToken
    ensures r == Failed(Sealing) ==> body.Object? && exists i :: FirstFailure(body.members, answers, i, SealFails)
    ensures r == Failed(Unavailable) ==>
      body.Object? && exists i :: FirstFailure(body.members, answers, i, SealerUnavailable)
  {
    if !Success(status) {
      return Unchanged;
    }
    if body.NotAnObject? {
      return if body.namesRefreshToken then Failed(UnrecognizedBody) else Unchanged;
    }
    var members := body.members;
    var replaced := false;
    for i := 0 to |members|
      invariant |members| == |body.members|
      invariant forall j :: 0 <= j < |members| ==>
        if j < i then SealedFrom(body.members[j], members[j], binding, issuedAt) else members[j] == body.members[j]
      invariant replaced <==> exists j :: 0 <= j < i && Carries(body.members[j])
      invariant forall j :: 0 <= j < i && Carries(body.members[j]) ==> answers(j).SealsWith?
    {
      var member := members[i];
      if Carries(member) {
        match answers(i)
        case SealFails =>
          assert FirstFailure(body.members, answers, i, SealFails);
          return Failed(Sealing);
        case SealerUnavailable =>
          assert FirstFailure(body.members, answers, i, SealerUnavailable);
          return Failed(Unavailable);
        case SealsWith(nonce) =>
          members := members[i := SealedMember(member, binding, nonce, issuedAt)];
          replaced := true;
      }
    }
    return if replaced then Replaced(members) else Unchanged;
  }

  ghost predicate FirstAt(members: seq<Member>, i: nat, token: Token) {
    && i < |members| && Carries(members[i]) && members[i].value.token == token
    && forall j :: 0 <= j < i ==> !Carries(members[j])
  }

  /** The first refresh token, `None` if the members carry none. */
  function FirstToken(members: seq<Member>): (t: Option<Token>)
    ensures t.None? <==> forall i :: 0 <= i < |members| ==> !Carries(members[i])
    ensures t.Some? ==> exists i :: FirstAt(members, i, t.value)
  {
    if members == [] then None
    else if Carries(members[0]) then
      assert FirstAt(members, 0, members[0].value.token);
      Some(members[0].value.token)
    else
      var t := FirstToken(members[1..]);
      assert forall i :: 0 < i < |members| ==> members[i] == members[1..][i - 1];
      assert forall i: nat, token :: FirstAt(members[1..], i, token) ==> FirstAt(members, i + 1, token);
      t
  }

  function UpstreamRefreshToken(status: int, body: Body): Option<Token> {
    if Success(status) && body.Object? then FirstToken(body.members) else None
  }

  /** A token is read exactly from a successful response that is an object with a non-empty string of the name. */
  lemma TokenIsReadExactlyWhen(status: int, body: Body)
    ensures UpstreamRefreshToken(status, body).Some? <==>
      && 200 <= status < 300 && body.Object?
      && exists j :: 0 <= j < |body.members| && body.members[j].name == "refresh_token"
           && body.members[j].value.Literal? && body.members[j].value.token != Plain("")
  {
    var t := UpstreamRefreshToken(status, body);
    if t.Some? {
      var k: nat :| FirstAt(body.members, k, t.value);
      assert Carries(body.members[k]);
    } else if 200 <= status < 300 && body.Object? {
      assert forall j :: 0 <= j < |body.members| ==> !Carries(body.members[j]);
    }
  }

  /** And it is the first one. */
  lemma FirstTokenIsRead(status: int, members: seq<Member>, i: nat)
    requires 200 <= status < 300 && i < |members| && members[i].name == "refresh_token"
    requires members[i].value.Literal? && members[i].value.token != Plain("")
    requires forall j :: 0 <= j < i && members[j].name == "refresh_token" ==>
      members[j].value.Other? || members[j].value.token == Plain("")
    ensures UpstreamRefreshToken(status, Object(members)) == Some(members[i].value.token)
  {
    var t := FirstToken(members);
    assert Carries(members[i]);
    var k: nat :| FirstAt(members, k, t.value);
    assert k == i;
  }

  function Renamed(m: Member, token: Token): Member {
    if m.name == REFRESH_TOKEN then Member(m.name, Encoded(token)) else m
  }

  /** Sets the refresh token of a successful response; appends one where there is none. */
  method WithRefreshToken(status: int, body: Body, token: Token) returns (r: Option<seq<Member>>)
    ensures r.Some? <==> 200 <= status < 300 && body.Object?
    ensures r.Some? ==> Sets(body.members, r.value, token)
  {
    if !Success(status) || body.NotAnObject? {
      return None;
    }
    var members := body.members;
    var replaced := false;
    for i := 0 to |members|
      invariant |members| == |body.members|
      invariant forall j :: 0 <= j < |members| ==>
        members[j] == if j < i then Renamed(body.members[j], token) else body.members[j]
      invariant replaced <==> exists j :: 0 <= j < i && body.members[j].name == REFRESH_TOKEN
    {
      if members[i].name == REFRESH_TOKEN {
        members := members[i := Member(members[i].name, Encoded(token))];
        replaced := true;
      }
    }
    if !replaced {
      members := members + [Member(REFRESH_TOKEN, Encoded(token))];
    }
    return Some(members);
  }

  predicate Named(members: seq<Member>) { exists i :: 0 <= i < |members| && members[i].name == "refresh_token" }

  /** The members with their refresh token set: replaced in place, or appended if there was none. */
  ghost predicate Sets(before: seq<Member>, after: seq<Member>, token: Token) {
    && |after| == |before| + (if Named(before) then 0 else 1)
    && (forall i :: 0 <= i < |before| ==>
         after[i] ==
           if before[i].name == "refresh_token" then Member("refresh_token", Literal(token, 0)) else before[i])
    && (!Named(before) ==> after[|before|] == Member("refresh_token", Literal(token, 0)))
  }

  function Others(members: seq<Member>): (others: seq<Member>)
    decreases |members|
  {
    if members == [] then []
    else
      var last := members[|members| - 1];
      Others(members[..|members| - 1]) + if last.name == REFRESH_TOKEN then [] else [last]
  }

  /** All other members stay, in their order and with their text. */
  lemma {:induction false} OthersStay(before: seq<Member>, after: seq<Member>, token: Token)
    requires Sets(before, after, token)
    ensures Others(after) == Others(before)
  {
    if Named(before) {
      RenamedOthers(before, after, token);
    } else {
      RenamedOthers(before, after[..|before|], token);
    }
  }

  lemma {:induction false} RenamedOthers(before: seq<Member>, after: seq<Member>, token: Token)
    requires |after| == |before| && forall i :: 0 <= i < |before| ==> after[i] == Renamed(before[i], token)
    ensures Others(after) == Others(before)
    decreases |before|
  {
    if before != [] { RenamedOthers(before[..|before| - 1], after[..|after| - 1], token); }
  }

  /** The token that was set is the one read back, whatever members there were. */
  lemma SetTokenIsRead(status: int, before: seq<Member>, after: seq<Member>, token: Token)
    requires 200 <= status < 300 && Sets(before, after, token) && token != Plain("")
    ensures UpstreamRefreshToken(status, Object(after)) == Some(token)
  {
    if Named(before) {
      var i :| 0 <= i < |before| && before[i].name == REFRESH_TOKEN;
      assert Carries(after[i]);
    } else {
      assert Carries(after[|before|]);
    }
    assert forall i :: 0 <= i < |after| && Carries(after[i]) ==> after[i].value.token == token;
  }

  /** In sealed mode the handle handed out is the sealed form of the token that would be read. */
  lemma SealedTokenIsRead(status: int, before: seq<Member>, after: seq<Member>, binding: Binding, issuedAt: nat)
    requires 200 <= status < 300 && SealedCopy(before, after, binding, issuedAt)
    ensures match UpstreamRefreshToken(status, Object(before))
      case None => UpstreamRefreshToken(status, Object(after)) == None
      case Some(token) =>
        UpstreamRefreshToken(status, Object(after)).Some?
        && OpenHandle(binding, UpstreamRefreshToken(status, Object(after)).value) == Some(Opened(token, issuedAt))
  {
    assert forall i :: 0 <= i < |before| ==> (Carries(before[i]) <==> Carries(after[i]));
    var t := FirstToken(before);
    if t.Some? {
      var i :| FirstAt(before, i, t.value);
      var u := FirstToken(after);
      assert u.Some?;
      var k :| FirstAt(after, k, u.value);
      assert i == k;
    }
  }

  /** A handle opens to its token under the binding that sealed it, and under no other. */
  lemma HandleOpensOnlyBound(binding: Binding, other: Binding, nonce: nat, content: Opened)
    requires ValidBinding(binding) && ValidBinding(other)
    ensures OpenHandle(other, SealedHandle(Seal(nonce, Handle(binding), content))) ==
      if binding == other then Some(content) else None
  {
    OpensOnlyAsSealed(nonce, Handle(binding), content, Handle(other));
  }
}
