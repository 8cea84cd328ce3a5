/**
 The full-string glob of ID-token policies: `*` matches any sequence, `?` any one character. The
 matcher only ever goes back to the latest star, which loses no match.
 */
module Glob {
  import opened Wrappers

  /** The wildcard language, by recursion on pattern and value. */
  predicate Like(pattern: string, value: string)
    decreases |pattern| + |value|
  {
    if pattern == "" then value == ""
    else if pattern[0] == '*' then Like(pattern[1..], value) || (value != "" && Like(pattern, value[1..]))
    else value != "" && Fits(pattern[0], value[0]) && Like(pattern[1..], value[1..])
  }

  /** A pattern character other than `*` against one character. */
  predicate Fits(p: char, c: char) { p == '?' || p == c }

  function Joined(pieces: seq<string>): string {
    if pieces == [] then "" else pieces[0] + Joined(pieces[1..])
  }

  /**
   The value cut into one piece per pattern character: any piece for a `*`, one character for a `?`,
   and for any other character just that.
   */
  ghost predicate Splits(pattern: string, value: string, pieces: seq<string>) {
    && |pieces| == |pattern| && Joined(pieces) == value
    && (forall i :: 0 <= i < |pieces| && pattern[i] == '?' ==> |pieces[i]| == 1)
    && (forall i :: 0 <= i < |pieces| && pattern[i] != '?' && pattern[i] != '*' ==> pieces[i] == [pattern[i]])
  }

  ghost predicate Splittable(pattern: string, value: string) { exists pieces :: Splits(pattern, value, pieces) }

  /** The language without recursion. */
  lemma {:induction false} LikeMeansSplits(pattern: string, value: string)
    ensures Like(pattern, value) <==> Splittable(pattern, value)
  {
    if Like(pattern, value) { var pieces := SplitOf(pattern, value); }
    forall pieces | Splits(pattern, value, pieces) ensures Like(pattern, value) { SplitIsLike(pattern, value, pieces); }
  }

  lemma {:induction false} SplitOf(pattern: string, value: string) returns (pieces: seq<string>)
    requires Like(pattern, value)
    ensures Splits(pattern, value, pieces)
    decreases |pattern| + |value|
  {
    if pattern == "" {
      pieces := [];
    } else if pattern[0] == '*' && !Like(pattern[1..], value) {
      var rest := SplitOf(pattern, value[1..]);
      pieces := [[value[0]] + rest[0]] + rest[1..];
      assert value == [value[0]] + Joined(rest);
      assert pieces[1..] == rest[1..];
      assert Joined(pieces) == pieces[0] + Joined(rest[1..]);
    } else {
      var n := if pattern[0] == '*' then 0 else 1;
      var rest := SplitOf(pattern[1..], value[n..]);
      pieces := [value[..n]] + rest;
      assert pieces[1..] == rest;
    }
  }

  lemma {:induction false} SplitIsLike(pattern: string, value: string, pieces: seq<string>)
    requires Splits(pattern, value, pieces)
    ensures Like(pattern, value)
    decreases |pattern|
  {
    if pattern != "" {
      var n := |pieces[0]|;
      assert value[n..] == Joined(pieces[1..]);
      SplitIsLike(pattern[1..], value[n..], pieces[1..]);
      if pattern[0] == '*' { StarAbsorbs(pattern, value, n); }
    }
  }

  lemma {:induction false} StarAbsorbs(pattern: string, value: string, n: nat)
    requires pattern != "" && pattern[0] == '*' && n <= |value|
    requires Like(pattern[1..], value[n..]) || Like(pattern, value[n..])
    ensures Like(pattern, value)
    decreases n
  {
    if n > 0 {
      assert value[1..][n - 1..] == value[n..];
      StarAbsorbs(pattern, value[1..], n - 1);
    } else {
      assert value[0..] == value;
    }
  }

  /** A star is used up after some number of characters. */
  lemma {:induction false} StarEnds(pattern: string, value: string) returns (n: nat)
    requires pattern != "" && pattern[0] == '*' && Like(pattern, value)
    ensures n <= |value| && Like(pattern[1..], value[n..])
    decreases |value|
  {
    if Like(pattern[1..], value) {
      n := 0;
    } else {
      n := StarEnds(pattern, value[1..]);
      assert value[1..][n..] == value[n + 1..];
      n := n + 1;
    }
  }

  /** `pattern` without stars, against as many characters. */
  predicate Aligned(pattern: string, value: string) {
    |pattern| == |value| && forall i :: 0 <= i < |pattern| ==> pattern[i] != '*' && Fits(pattern[i], value[i])
  }

  lemma {:induction false} AlignedPrefix(head: string, tail: string, value: string)
    requires forall i :: 0 <= i < |head| ==> head[i] != '*'
    ensures Like(head + tail, value) <==>
      |head| <= |value| && Aligned(head, value[..|head|]) && Like(tail, value[|head|..])
    decreases |head|
  {
    if head == "" {
      assert head + tail == tail && value[0..] == value;
    } else {
      assert (head + tail)[1..] == head[1..] + tail;
      if value != "" {
        AlignedPrefix(head[1..], tail, value[1..]);
        if |head| <= |value| {
          assert value[1..][..|head| - 1] == value[..|head|][1..];
          assert value[1..][|head| - 1..] == value[|head|..];
          AlignedHead(head, value[..|head|]);
        }
      }
    }
  }

  lemma AlignedHead(pattern: string, value: string)
    requires |pattern| == |value| > 0
    ensures Aligned(pattern, value) <==>
      pattern[0] != '*' && Fits(pattern[0], value[0]) && Aligned(pattern[1..], value[1..])
  {
    if Aligned(pattern[1..], value[1..]) {
      forall i | 0 < i < |pattern| ensures pattern[i] != '*' && Fits(pattern[i], value[i]) {
        assert pattern[1..][i - 1] != '*' && Fits(pattern[1..][i - 1], value[1..][i - 1]);
      }
    }
  }

  /** A pattern without wildcards matches only itself. */
  lemma LiteralPattern(pattern: string, value: string)
    requires forall i :: 0 <= i < |pattern| ==> pattern[i] != '*' && pattern[i] != '?'
    ensures Like(pattern, value) <==> pattern == value
  {
    assert pattern + "" == pattern;
    AlignedPrefix(pattern, "", value);
    if Like(pattern, value) { assert value == value[..|pattern|]; }
  }

  lemma {:induction false} OnlyStarsMatchNothing(pattern: string)
    ensures Like(pattern, "") <==> forall i :: 0 <= i < |pattern| ==> pattern[i] == '*'
  {
    if pattern != "" {
      OnlyStarsMatchNothing(pattern[1..]);
      if Like(pattern[1..], "") {
        forall i | 0 < i < |pattern| ensures pattern[i] == '*' { assert pattern[1..][i - 1] == '*'; }
      }
    }
  }

  /**
   What is left to decide after the latest star at `base - 1` was tried from `retry` on and its
   following characters agree up to `p` and `v`.
   */
  ghost predicate Ahead(pattern: string, value: string, star: Option<nat>, retry: nat, p: nat, v: nat) {
    && p <= |pattern| && retry <= v <= |value|
    && (star.Some? ==> star.value < p && pattern[star.value] == '*')
    && var base := if star.Some? then star.value + 1 else 0;
       Aligned(pattern[base..p], value[retry..v])
       && if star.Some? then Like(pattern, value) <==> Like(pattern[star.value..], value[retry..]) else retry == 0
  }

  /** Once the characters after the star agree, what follows decides this attempt. */
  lemma AttemptGoesOn(pattern: string, value: string, base: nat, retry: nat, p: nat, v: nat)
    requires base <= p <= |pattern| && retry <= v <= |value| && Aligned(pattern[base..p], value[retry..v])
    ensures Like(pattern[base..], value[retry..]) <==> Like(pattern[p..], value[v..])
  {
    assert pattern[base..] == pattern[base..p] + pattern[p..];
    AlignedPrefix(pattern[base..p], pattern[p..], value[retry..]);
    assert value[retry..][..p - base] == value[retry..v];
    assert value[retry..][p - base..] == value[v..];
  }

  /** A later star makes the earlier one superfluous. */
  lemma LaterStarSuffices(pattern: string, value: string, star: nat, retry: nat, p: nat, v: nat)
    requires star < p < |pattern| && retry <= v <= |value| && pattern[star] == '*' && pattern[p] == '*'
    requires Aligned(pattern[star + 1..p], value[retry..v])
    ensures Like(pattern[star..], value[retry..]) <==> Like(pattern[p..], value[v..])
  {
    AttemptGoesOn(pattern, value, star + 1, retry, p, v);
    assert pattern[star..][1..] == pattern[star + 1..];
    if Like(pattern[star..], value[retry..]) {
      var n := StarEnds(pattern[star..], value[retry..]);
      assert value[retry..][n..] == value[retry + n..];
      var head := pattern[star + 1..p];
      assert pattern[star + 1..] == head + pattern[p..];
      AlignedPrefix(head, pattern[p..], value[retry + n..]);
      assert value[retry + n..][|head|..] == value[v..][n..];
      StarAbsorbs(pattern[p..], value[v..], n);
    }
  }

  /** At the end of the value nothing is gained by giving the star more. */
  lemma EndDecides(pattern: string, value: string, star: nat, retry: nat, p: nat)
    requires star < p <= |pattern| && retry <= |value| && pattern[star] == '*'
    requires Aligned(pattern[star + 1..p], value[retry..])
    ensures Like(pattern[star..], value[retry..]) <==> Like(pattern[p..], "")
  {
    var v := |value|;
    assert value[retry..v] == value[retry..] && value[v..] == "";
    AttemptGoesOn(pattern, value, star + 1, retry, p, v);
    assert pattern[star..][1..] == pattern[star + 1..];
    if Like(pattern[star..], value[retry..]) {
      var n := StarEnds(pattern[star..], value[retry..]);
      assert value[retry..][n..] == value[retry + n..];
      assert pattern[star + 1..] == pattern[star + 1..p] + pattern[p..];
      AlignedPrefix(pattern[star + 1..p], pattern[p..], value[retry + n..]);
      assert n == 0;
    }
  }

  /** When the attempt fails, the star takes one more character. */
  lemma StarTakesOneMore(pattern: string, value: string, star: nat, retry: nat)
    requires star < |pattern| && retry < |value| && pattern[star] == '*'
    requires !Like(pattern[star + 1..], value[retry..])
    ensures Like(pattern[star..], value[retry..]) <==> Like(pattern[star..], value[retry + 1..])
  {
    assert pattern[star..][1..] == pattern[star + 1..];
    assert value[retry..][1..] == value[retry + 1..];
  }

  lemma AlignedGrows(pattern: string, value: string, base: nat, retry: nat, p: nat, v: nat)
    requires base <= p < |pattern| && retry <= v < |value| && Aligned(pattern[base..p], value[retry..v])
    requires pattern[p] != '*' && Fits(pattern[p], value[v])
    ensures Aligned(pattern[base..p + 1], value[retry..v + 1])
  {
    assert pattern[base..p + 1] == pattern[base..p] + [pattern[p]];
    assert value[retry..v + 1] == value[retry..v] + [value[v]];
  }

  /** A star met on the way becomes the latest one. */
  lemma MeetsStar(pattern: string, value: string, star: Option<nat>, retry: nat, p: nat, v: nat)
    requires Ahead(pattern, value, star, retry, p, v) && p < |pattern| && pattern[p] == '*'
    ensures Ahead(pattern, value, Some(p), v, p + 1, v)
  {
    if star.Some? {
      LaterStarSuffices(pattern, value, star.value, retry, p, v);
    } else {
      AttemptGoesOn(pattern, value, 0, 0, p, v);
      assert pattern[0..] == pattern && value[0..] == value;
    }
  }

  /** Where the pattern does not fit, the latest star takes one more character, or nothing matches. */
  lemma Mismatch(pattern: string, value: string, star: Option<nat>, retry: nat, p: nat, v: nat)
    requires Ahead(pattern, value, star, retry, p, v) && v < |value|
    requires p < |pattern| ==> pattern[p] != '*' && !Fits(pattern[p], value[v])
    ensures star.Some? ==> Ahead(pattern, value, star, retry + 1, star.value + 1, retry + 1)
    ensures star.None? ==> !Like(pattern, value)
  {
    AttemptGoesOn(pattern, value, if star.Some? then star.value + 1 else 0, retry, p, v);
    assert !Like(pattern[p..], value[v..]);
    if star.Some? {
      StarTakesOneMore(pattern, value, star.value, retry);
    } else {
      assert pattern[0..] == pattern && value[0..] == value;
    }
  }

  /** At the end of the value the rest of the pattern must be stars. */
  lemma AtTheEnd(pattern: string, value: string, star: Option<nat>, retry: nat, p: nat)
    requires Ahead(pattern, value, star, retry, p, |value|)
    ensures Like(pattern, value) <==> Like(pattern[p..], "")
  {
    if star.Some? {
      assert value[retry..|value|] == value[retry..];
      EndDecides(pattern, value, star.value, retry, p);
    } else {
      AttemptGoesOn(pattern, value, 0, 0, p, |value|);
      assert pattern[0..] == pattern && value[0..] == value && value[|value|..] == "";
    }
  }

  /** The matcher decides the wildcard language and always terminates. */
  method StringLike(pattern: string, value: string) returns (matches: bool)
    ensures matches <==> Like(pattern, value)
    ensures matches <==> Splittable(pattern, value)
  {
    var p: nat, v: nat, star: Option<nat>, retry: nat := 0, 0, None, 0;
    while v < |value|
      invariant Ahead(pattern, value, star, retry, p, v)
      decreases |value| - retry, |pattern| - (if star.Some? then star.value + 1 else 0), |value| - v
    {
      if p < |pattern| && (pattern[p] == '?' || (pattern[p] != '*' && pattern[p] == value[v])) {
        AlignedGrows(pattern, value, if star.Some? then star.value + 1 else 0, retry, p, v);
        p, v := p + 1, v + 1;
      } else if p < |pattern| && pattern[p] == '*' {
        MeetsStar(pattern, value, star, retry, p, v);
        star := Some(p);
        p := p + 1;
        retry := v;
      } else {
        Mismatch(pattern, value, star, retry, p, v);
        match star
        case Some(index) =>
          retry := retry + 1;
          v := retry;
          p := index + 1;
        case None =>
          LikeMeansSplits(pattern, value);
          return false;
      }
    }
    AtTheEnd(pattern, value, star, retry, p);
    OnlyStarsMatchNothing(pattern[p..]);
    LikeMeansSplits(pattern, value);
    return forall i :: 0 <= i < |pattern[p..]| ==> pattern[p..][i] == '*';
  }
}
