/** Request paths below the public URL: which endpoint and key they name, and how they are rendered. */
module Layout {
  import opened Wrappers

  datatype Endpoint = Authorize | Callback | Token | Discovery | Jwks

  /** Puts `c` in front of the first part. */
  function Prefixed(c: char, parts: seq<string>): seq<string>
    requires parts != []
  {
    if c == '/' then [""] + parts else [[c] + parts[0]] + parts[1..]
  }

  /** The parts between slashes; there is always at least one. */
  function Split(s: string): (parts: seq<string>)
    ensures |parts| > 0
  {
    if s == "" then [""] else Prefixed(s[0], Split(s[1..]))
  }

  function Join(parts: seq<string>): string {
    if parts == [] then ""
    else if |parts| == 1 then parts[0]
    else parts[0] + "/" + Join(parts[1..])
  }

  function TrimStart(s: string): string { if s != "" && s[0] == '/' then TrimStart(s[1..]) else s }

  function TrimEnd(s: string): string { if s != "" && s[|s| - 1] == '/' then TrimEnd(s[..|s| - 1]) else s }

  function TrimSlashes(s: string): string { TrimEnd(TrimStart(s)) }

  predicate KeyChar(c: char) { 'a' <= c <= 'z' || 'A' <= c <= 'Z' || '0' <= c <= '9' || c in "-_." }

  predicate ValidKey(s: string) {
    && s != "" && s[0] != '/' && s[|s| - 1] != '/'
    && forall part :: part in Split(s) ==> ValidPart(part)
  }

  predicate ValidPart(part: string) {
    part != "" && part != "." && part != ".." && forall c :: c in part ==> KeyChar(c)
  }

  type ResourceKey = s: string | ValidKey(s) witness (SplitWord("a"); "a")

  function NewKey(s: string): Option<ResourceKey> { if ValidKey(s) then Some(s) else None }

  /** How the segments between namespace and endpoint become a key. */
  datatype KeyStrategy = SingleSegment | TwoSegment | Custom(mapper: seq<string> -> Option<ResourceKey>)

  function KeyOf(keys: KeyStrategy, parts: seq<string>): Option<ResourceKey> {
    match keys
    case SingleSegment => if |parts| == 1 then NewKey(parts[0]) else None
    case TwoSegment => if |parts| == 2 then NewKey(parts[0] + "/" + parts[1]) else None
    case Custom(mapper) => mapper(parts)
  }

  const WELL_KNOWN := ".well-known"
  const OPENID := "openid-configuration"

  predicate Last(parts: seq<string>, word: string) { |parts| > 0 && parts[|parts| - 1] == word }

  /** The endpoint a path names and the key segments in between. */
  function Route(segments: seq<string>): Option<(Endpoint, seq<string>)>
    requires |segments| > 0
  {
    var namespaced := segments[1..];
    var n := |namespaced|;
    if segments[0] == "upstream" && Last(namespaced, "callback") then Some((Callback, namespaced[..n - 1]))
    else if segments[0] != "relay" then None
    else if n >= 2 && Last(namespaced[..n - 1], WELL_KNOWN) && Last(namespaced, OPENID) then
      Some((Discovery, namespaced[..n - 2]))
    else if Last(namespaced, "authorize") then Some((Authorize, namespaced[..n - 1]))
    else if Last(namespaced, "token") then Some((Token, namespaced[..n - 1]))
    else if Last(namespaced, "jwks") then Some((Jwks, namespaced[..n - 1]))
    else None
  }

  function Parse(keys: KeyStrategy, path: string): Option<(Endpoint, ResourceKey)> {
    var route := Route(Split(TrimSlashes(path)));
    if route.None? then None
    else
      var key := KeyOf(keys, route.value.1);
      if key.None? then None else Some((route.value.0, key.value))
  }

  function Path(endpoint: Endpoint, key: string): string {
    match endpoint
    case Authorize => "relay/" + key + "/authorize"
    case Callback => "upstream/" + key + "/callback"
    case Token => "relay/" + key + "/token"
    case Discovery => "relay/" + key + ("/" + (WELL_KNOWN + "/" + OPENID))
    case Jwks => "relay/" + key + "/jwks"
  }

  /** The segments before and after the key. */
  function Namespace(endpoint: Endpoint): string { if endpoint.Callback? then "upstream" else "relay" }

  function Tail(endpoint: Endpoint): seq<string> {
    match endpoint
    case Authorize => ["authorize"]
    case Callback => ["callback"]
    case Token => ["token"]
    case Discovery => [WELL_KNOWN, OPENID]
    case Jwks => ["jwks"]
  }

  lemma {:induction false} JoinSplit(s: string)
    ensures Join(Split(s)) == s
    decreases |s|
  {
    if s != "" {
      JoinSplit(s[1..]);
      var rest := Split(s[1..]);
      if s[0] != '/' && |rest| > 1 { assert Split(s)[1..] == rest[1..]; }
      if s[0] == '/' { assert Split(s)[1..] == rest; }
    }
  }

  lemma {:induction false} SplitWord(s: string)
    requires '/' !in s
    ensures Split(s) == [s]
    decreases |s|
  {
    if s != "" {
      SplitWord(s[1..]);
      assert [s[0]] + s[1..] == s;
    }
  }

  lemma SplitFirst(c: char, s: string)
    ensures Split([c] + s) == Prefixed(c, Split(s))
  {
    assert ([c] + s)[1..] == s;
  }

  lemma Regrouped(c: char, a: string, b: string)
    ensures ([c] + a) + "/" + b == [c] + (a + "/" + b)
  {
  }

  lemma PrefixedAppend(c: char, parts: seq<string>, more: seq<string>)
    requires parts != []
    ensures Prefixed(c, parts + more) == Prefixed(c, parts) + more
  {
    assert (parts + more)[1..] == parts[1..] + more;
  }

  lemma {:induction false} SplitSlash(a: string, b: string)
    ensures Split(a + "/" + b) == Split(a) + Split(b)
    decreases |a|
  {
    if a == "" {
      SplitFirst('/', b);
      assert a + "/" + b == ['/'] + b;
    } else {
      var c, rest := a[0], a[1..];
      assert a == [c] + rest;
      SplitSlash(rest, b);
      SplitFirst(c, rest + "/" + b);
      SplitFirst(c, rest);
      Regrouped(c, rest, b);
      PrefixedAppend(c, Split(rest), Split(b));
      assert Split(a + "/" + b) == Prefixed(c, Split(rest) + Split(b));
    }
  }

  lemma {:induction false} SplitJoined(parts: seq<string>)
    requires parts != [] && forall i :: 0 <= i < |parts| ==> '/' !in parts[i]
    ensures Split(Join(parts)) == parts
    decreases |parts|
  {
    SplitWord(parts[0]);
    if |parts| > 1 {
      SplitJoined(parts[1..]);
      SplitSlash(parts[0], Join(parts[1..]));
    }
  }

  /** A segment of a key. */
  predicate Segment(part: string) {
    && part != "" && part != "." && part != ".."
    && forall c :: c in part ==>
         'a' <= c <= 'z' || 'A' <= c <= 'Z' || '0' <= c <= '9' || c == '-' || c == '_' || c == '.'
  }

  ghost predicate JoinsSegments(s: string, parts: seq<string>) {
    parts != [] && Join(parts) == s && forall i :: 0 <= i < |parts| ==> Segment(parts[i])
  }

  /** Keys are exactly what is joined from one or more such segments. */
  lemma KeyExactlyWhen(s: string)
    ensures ValidKey(s) <==> exists parts :: JoinsSegments(s, parts)
  {
    if ValidKey(s) {
      JoinSplit(s);
      forall i | 0 <= i < |Split(s)| ensures Segment(Split(s)[i]) {
        assert ValidPart(Split(s)[i]);
        forall c | c in Split(s)[i] ensures KeyChar(c) {}
      }
      assert JoinsSegments(s, Split(s));
    }
    forall parts | JoinsSegments(s, parts) ensures ValidKey(s) { JoinedIsKey(s, parts); }
  }

  lemma JoinedIsKey(s: string, parts: seq<string>)
    requires JoinsSegments(s, parts)
    ensures ValidKey(s)
  {
    SplitJoined(parts);
    assert Segment(parts[0]) && Segment(parts[|parts| - 1]);
    forall part | part in Split(s) ensures ValidPart(part) {
      var i :| 0 <= i < |parts| && parts[i] == part;
      assert Segment(parts[i]);
    }
    LastPart(s);
  }

  lemma LastPart(s: string)
    ensures s != "" && s[|s| - 1] == '/' ==> Split(s)[|Split(s)| - 1] == ""
  {
    if s != "" && s[|s| - 1] == '/' {
      SplitSlash(s[..|s| - 1], "");
      assert s == s[..|s| - 1] + "/" + "";
    }
  }

  lemma {:induction false} JoinAppend(a: seq<string>, b: seq<string>)
    requires |a| > 0 && |b| > 0
    ensures Join(a + b) == Join(a) + "/" + Join(b)
    decreases |a|
  {
    if |a| > 1 {
      JoinAppend(a[1..], b);
      assert (a + b)[1..] == a[1..] + b;
    } else {
      assert (a + b)[1..] == b;
    }
  }

  lemma JoinTwo(a: string, b: string)
    ensures Join([a, b]) == a + "/" + b
  {
    assert [a, b][1..] == [b];
  }

  lemma SplitTwo(a: string, b: string)
    requires '/' !in a && '/' !in b
    ensures Split(Join([a, b])) == [a, b]
  {
    JoinTwo(a, b);
    SplitSlash(a, b);
    SplitWord(a);
    SplitWord(b);
  }

  lemma TailSegments(e: Endpoint)
    ensures Split(Join(Tail(e))) == Tail(e)
  {
    if e.Discovery? {
      SplitTwo(WELL_KNOWN, OPENID);
    } else {
      SplitWord(Tail(e)[0]);
    }
  }

  lemma Concatenated(a: string, key: string, tail: string)
    ensures (a + "/") + key + ("/" + tail) == a + "/" + (key + "/" + tail)
  {
  }

  lemma DiscoveryTail()
    ensures Join(Tail(Discovery)) == WELL_KNOWN + "/" + OPENID
  {
    JoinTwo(WELL_KNOWN, OPENID);
  }

  lemma PathIsJoined(e: Endpoint, key: string)
    ensures Path(e, key) == Namespace(e) + "/" + (key + "/" + Join(Tail(e)))
  {
    Concatenated(Namespace(e), key, Join(Tail(e)));
    assert "upstream/" == "upstream" + "/" && "relay/" == "relay" + "/";
    if e.Discovery? {
      DiscoveryTail();
    } else {
      assert "/authorize" == "/" + "authorize";
      assert "/callback" == "/" + "callback";
      assert "/token" == "/" + "token";
      assert "/jwks" == "/" + "jwks";
    }
  }

  lemma PathSegments(e: Endpoint, key: string)
    ensures Split(Path(e, key)) == [Namespace(e)] + Split(key) + Tail(e)
  {
    PathIsJoined(e, key);
    SplitWord(Namespace(e));
    SplitSlash(Namespace(e), key + "/" + Join(Tail(e)));
    SplitSlash(key, Join(Tail(e)));
    TailSegments(e);
  }

  lemma PathNotTrimmed(e: Endpoint, key: string)
    ensures TrimSlashes(Path(e, key)) == Path(e, key)
  {
  }

  lemma LastOfAppended(parts: seq<string>, word: string)
    ensures Last(parts + [word], word) && (parts + [word])[..|parts|] == parts
    ensures forall other :: Last(parts + [word], other) <==> other == word
  {
  }

  lemma EndpointWordsDiffer()
    ensures |"authorize"| == 9 && |"callback"| == 8 && |"token"| == 5 && |"jwks"| == 4 && |OPENID| == 20
  {
  }

  lemma RouteOfPath(e: Endpoint, parts: seq<string>)
    ensures Route([Namespace(e)] + parts + Tail(e)) == Some((e, parts))
  {
    var segments := [Namespace(e)] + parts + Tail(e);
    assert segments[0] == Namespace(e) && segments[1..] == parts + Tail(e);
    EndpointWordsDiffer();
    if e.Discovery? {
      var front := parts + [WELL_KNOWN];
      assert parts + Tail(e) == front + [OPENID];
      LastOfAppended(front, OPENID);
      LastOfAppended(parts, WELL_KNOWN);
      assert (front + [OPENID])[..|parts|] == parts;
    } else {
      LastOfAppended(parts, Tail(e)[0]);
    }
  }

  lemma LastSplit(parts: seq<string>, word: string)
    requires Last(parts, word)
    ensures parts == parts[..|parts| - 1] + [word]
  {
  }

  lemma RouteIsPath(segments: seq<string>)
    requires |segments| > 0 && Route(segments).Some?
    ensures var (e, parts) := Route(segments).value; segments == [Namespace(e)] + parts + Tail(e)
  {
    var (e, parts) := Route(segments).value;
    var namespaced := segments[1..];
    var n := |namespaced|;
    assert segments == [segments[0]] + namespaced;
    if e.Discovery? {
      LastSplit(namespaced, OPENID);
      LastSplit(namespaced[..n - 1], WELL_KNOWN);
      assert namespaced[..n - 1][..n - 2] == namespaced[..n - 2];
      assert namespaced == parts + Tail(e);
    } else {
      LastSplit(namespaced, Tail(e)[0]);
    }
  }

  /**
   Parsing what was rendered gives back endpoint and key, exactly for the keys whose own segments
   the strategy maps to them.
   */
  lemma ParsePath(keys: KeyStrategy, e: Endpoint, key: ResourceKey)
    ensures Parse(keys, Path(e, key)) == Some((e, key)) <==> KeyOf(keys, Split(key)) == Some(key)
  {
    PathSegments(e, key);
    PathNotTrimmed(e, key);
    RouteOfPath(e, Split(key));
  }

  /** Those are the keys of one segment, or of two. */
  lemma BuiltInKeys(key: ResourceKey)
    ensures KeyOf(SingleSegment, Split(key)) == Some(key) <==> |Split(key)| == 1
    ensures KeyOf(TwoSegment, Split(key)) == Some(key) <==> |Split(key)| == 2
  {
    JoinSplit(key);
    if |Split(key)| == 2 { assert Split(key)[1..] == [Split(key)[1]]; }
  }

  /** A path that is parsed is the rendered path with nothing but outer slashes added. */
  lemma PathParse(keys: KeyStrategy, path: string)
    requires !keys.Custom? && Parse(keys, path).Some?
    ensures var (e, key) := Parse(keys, path).value; Path(e, key) == TrimSlashes(path)
  {
    var s := TrimSlashes(path);
    var (e, parts) := Route(Split(s)).value;
    var key := KeyOf(keys, parts).value;
    RouteIsPath(Split(s));
    JoinSplit(s);
    JoinedKey(keys, parts);
    JoinAppend([Namespace(e)] + parts, Tail(e));
    JoinAppend([Namespace(e)], parts);
    PathIsJoined(e, key);
  }

  lemma JoinedKey(keys: KeyStrategy, parts: seq<string>)
    requires !keys.Custom? && KeyOf(keys, parts).Some?
    ensures parts != [] && Join(parts) == KeyOf(keys, parts).value
  {
    if |parts| == 2 { assert parts[1..] == [parts[1]]; }
  }

  lemma {:induction false} TrimStartRemoves(s: string) returns (n: nat)
    ensures n <= |s| && TrimStart(s) == s[n..] && (forall i :: 0 <= i < n ==> s[i] == '/') && (n < |s| ==> s[n] != '/')
    decreases |s|
  {
    n := 0;
    if s != "" && s[0] == '/' {
      n := TrimStartRemoves(s[1..]);
      assert forall i :: 0 < i <= n ==> s[i] == s[1..][i - 1];
      n := n + 1;
    }
  }

  lemma {:induction false} TrimEndRemoves(s: string) returns (n: nat)
    ensures n <= |s| && TrimEnd(s) == s[..n] && (n > 0 ==> s[n - 1] != '/')
    ensures forall i :: n <= i < |s| ==> s[i] == '/'
    decreases |s|
  {
    n := |s|;
    if s != "" && s[|s| - 1] == '/' { n := TrimEndRemoves(s[..|s| - 1]); }
  }

  ghost predicate OnlySlashes(s: string) { forall c :: c in s ==> c == '/' }

  /** What is trimmed away is outer slashes, all of them. */
  lemma TrimsOuterSlashes(s: string)
    ensures exists a, b :: OnlySlashes(a) && OnlySlashes(b) && s == a + TrimSlashes(s) + b
    ensures var t := TrimSlashes(s); t != "" ==> t[0] != '/' && t[|t| - 1] != '/'
  {
    var n := TrimStartRemoves(s);
    var m := TrimEndRemoves(s[n..]);
    assert OnlySlashes(s[..n]) && OnlySlashes(s[n + m..]);
    assert s == s[..n] + TrimSlashes(s) + s[n + m..];
  }
}
