/**
 The key patterns of backend/internal/policy/policy.go: `*` stands for any string and
 nothing else is special. `MatchKey` decides greedily what `KeyMatches` says outright.
 */
module Glob {
  function Stars(pattern: string): nat {
    if pattern == "" then 0 else (if pattern[0] == '*' then 1 else 0) + Stars(pattern[1..])
  }

  // The pattern with its stars replaced, in order, by the given strings.
  function Fill(pattern: string, fills: seq<string>): string
    requires |fills| == Stars(pattern)
  {
    if pattern == "" then ""
    else if pattern[0] == '*' then fills[0] + Fill(pattern[1..], fills[1..])
    else [pattern[0]] + Fill(pattern[1..], fills)
  }

  ghost predicate Expands(pattern: string, key: string) {
    exists fills :: |fills| == Stars(pattern) && Fill(pattern, fills) == key
  }

  // What a stored pattern means: the empty one matches everything.
  ghost predicate KeyMatches(pattern: string, key: string) { pattern == "" || Expands(pattern, key) }

  // ---------------------------------------------------------------- library string functions

  predicate HasPrefix(s: string, p: string) { |p| <= |s| && s[..|p|] == p }

  predicate HasSuffix(s: string, p: string) { |p| <= |s| && s[|s| - |p|..] == p }

  predicate OccursAt(s: string, p: string, i: nat) { i + |p| <= |s| && s[i..i + |p|] == p }

  // strings.Index: the first occurrence, or -1.
  function Index(s: string, p: string): (i: int)
    ensures -1 <= i <= |s|
    ensures i >= 0 ==> OccursAt(s, p, i) && forall j: nat :: j < i ==> !OccursAt(s, p, j)
    ensures i < 0 ==> forall j: nat :: !OccursAt(s, p, j)
  {
    IndexFrom(s, p, 0)
  }

  function IndexFrom(s: string, p: string, from: nat): (i: int)
    requires from <= |s| + 1
    ensures i == -1 || from <= i <= |s|
    ensures i >= 0 ==> OccursAt(s, p, i) && forall j: nat :: from <= j < i ==> !OccursAt(s, p, j)
    ensures i < 0 ==> forall j: nat :: from <= j ==> !OccursAt(s, p, j)
    decreases |s| + 1 - from
  {
    if from == |s| + 1 then -1
    else if OccursAt(s, p, from) then from
    else IndexFrom(s, p, from + 1)
  }

  // strings.Split(pattern, "*").
  function SplitStar(pattern: string): (parts: seq<string>)
    ensures |parts| == Stars(pattern) + 1
  {
    if pattern == "" then [""]
    else
      var rest := SplitStar(pattern[1..]);
      if pattern[0] == '*' then [""] + rest else [[pattern[0]] + rest[0]] + rest[1..]
  }

  // ---------------------------------------------------------------- patterns as parts

  // The parts after the first, each behind its filling.
  function Weave(parts: seq<string>, fills: seq<string>): string
    requires |parts| == |fills|
  {
    if parts == [] then "" else fills[0] + parts[0] + Weave(parts[1..], fills[1..])
  }

  ghost predicate Weaves(parts: seq<string>, text: string) {
    exists fills :: |fills| == |parts| && Weave(parts, fills) == text
  }

  lemma {:induction false} FillIsWeave(pattern: string, fills: seq<string>)
    requires |fills| == Stars(pattern)
    ensures Fill(pattern, fills) == SplitStar(pattern)[0] + Weave(SplitStar(pattern)[1..], fills)
  {
    if pattern != "" {
      var rest := SplitStar(pattern[1..]);
      if pattern[0] == '*' {
        FillIsWeave(pattern[1..], fills[1..]);
        assert ([""] + rest)[1..] == rest;
        var w := Weave(rest[1..], fills[1..]);
        assert fills[0] + (rest[0] + w) == fills[0] + rest[0] + w;
      } else {
        FillIsWeave(pattern[1..], fills);
        var w := Weave(rest[1..], fills);
        assert ([[pattern[0]] + rest[0]] + rest[1..])[1..] == rest[1..];
        assert [pattern[0]] + (rest[0] + w) == [pattern[0]] + rest[0] + w;
      }
    }
  }

  // The middle parts occur in `key` in order without overlap.
  ghost predicate Fits(middle: seq<string>, key: string) {
    middle == [] || exists i: nat :: OccursAt(key, middle[0], i) && Fits(middle[1..], key[i + |middle[0]|..])
  }

  // Dropping less of the front cannot hurt.
  lemma {:induction false} FitsMore(middle: seq<string>, key: string, skip: nat)
    requires skip <= |key| && Fits(middle, key[skip..])
    ensures Fits(middle, key)
  {
    if middle != [] {
      var i: nat :| OccursAt(key[skip..], middle[0], i) && Fits(middle[1..], key[skip..][i + |middle[0]|..]);
      assert key[skip..][i..i + |middle[0]|] == key[skip + i..skip + i + |middle[0]|];
      assert key[skip..][i + |middle[0]|..] == key[skip + i + |middle[0]|..];
      assert OccursAt(key, middle[0], skip + i);
    }
  }

  // Taking the first occurrence is as good as any.
  lemma FirstOccurrenceSuffices(middle: seq<string>, key: string)
    requires middle != []
    ensures var i := Index(key, middle[0]);
            Fits(middle, key) <==> i >= 0 && Fits(middle[1..], key[i + |middle[0]|..])
  {
    var first := Index(key, middle[0]);
    if Fits(middle, key) {
      var i: nat :| OccursAt(key, middle[0], i) && Fits(middle[1..], key[i + |middle[0]|..]);
      var tail := key[first + |middle[0]|..];
      assert tail[i - first..] == key[i + |middle[0]|..];
      FitsMore(middle[1..], tail, i - first);
    }
  }

  // ---------------------------------------------------------------- both directions

  // A weave ends in its last part, and the middle parts fit what comes before it.
  lemma {:induction false} WeaveFits(middle: seq<string>, last: string, fills: seq<string>) returns (body: string)
    requires |fills| == |middle| + 1
    ensures Weave(middle + [last], fills) == body + last && Fits(middle, body)
    decreases |middle|
  {
    var parts := middle + [last];
    if middle == [] {
      body := fills[0];
      assert Weave(parts, fills) == fills[0] + last + Weave([], []);
    } else {
      assert parts[1..] == middle[1..] + [last];
      var sub := WeaveFits(middle[1..], last, fills[1..]);
      body := fills[0] + middle[0] + sub;
      assert body + last == fills[0] + middle[0] + (sub + last);
      OccursBetween(fills[0], middle[0], sub);
    }
  }

  lemma OccursBetween(before: string, part: string, after: string)
    ensures OccursAt(before + part + after, part, |before|)
    ensures (before + part + after)[|before| + |part|..] == after
  {
  }

  // Conversely, the gaps between the parts are a filling.
  lemma {:induction false} FitsWeave(middle: seq<string>, last: string, body: string) returns (fills: seq<string>)
    requires Fits(middle, body)
    ensures |fills| == |middle| + 1 && Weave(middle + [last], fills) == body + last
    decreases |middle|
  {
    var parts := middle + [last];
    if middle == [] {
      fills := [body];
      assert Weave(parts, fills) == body + last + Weave([], []);
    } else {
      var i: nat :| OccursAt(body, middle[0], i) && Fits(middle[1..], body[i + |middle[0]|..]);
      var after := body[i + |middle[0]|..];
      var rest := FitsWeave(middle[1..], last, after);
      fills := [body[..i]] + rest;
      assert parts[1..] == middle[1..] + [last] && fills[1..] == rest;
      assert body[..i] + middle[0] + (after + last) == body + last by {
        assert body == body[..i] + body[i..i + |middle[0]|] + after;
      }
    }
  }

  lemma WeaveTailFits(middle: seq<string>, last: string, tail: string)
    requires Weaves(middle + [last], tail)
    ensures HasSuffix(tail, last) && Fits(middle, tail[..|tail| - |last|])
  {
    var parts := middle + [last];
    var fills: seq<string> :| |fills| == |parts| && Weave(parts, fills) == tail;
    var body := WeaveFits(middle, last, fills);
    assert tail[..|tail| - |last|] == body;
  }

  lemma FitsTailWeaves(middle: seq<string>, last: string, tail: string)
    requires HasSuffix(tail, last) && Fits(middle, tail[..|tail| - |last|])
    ensures Weaves(middle + [last], tail)
  {
    var body := tail[..|tail| - |last|];
    var fills := FitsWeave(middle, last, body);
    assert body + last == tail;
  }

  lemma TailDecides(middle: seq<string>, last: string, tail: string)
    ensures Weaves(middle + [last], tail) <==> HasSuffix(tail, last) && Fits(middle, tail[..|tail| - |last|])
  {
    if Weaves(middle + [last], tail) {
      WeaveTailFits(middle, last, tail);
    } else if HasSuffix(tail, last) && Fits(middle, tail[..|tail| - |last|]) {
      FitsTailWeaves(middle, last, tail);
    }
  }

  lemma ExpansionWeaves(pattern: string, key: string)
    requires Expands(pattern, key)
    ensures var parts := SplitStar(pattern); HasPrefix(key, parts[0]) && Weaves(parts[1..], key[|parts[0]|..])
  {
    var parts := SplitStar(pattern);
    var fills: seq<string> :| |fills| == Stars(pattern) && Fill(pattern, fills) == key;
    FillIsWeave(pattern, fills);
    assert key[|parts[0]|..] == Weave(parts[1..], fills);
  }

  lemma WeaveExpands(pattern: string, key: string)
    requires var parts := SplitStar(pattern); HasPrefix(key, parts[0]) && Weaves(parts[1..], key[|parts[0]|..])
    ensures Expands(pattern, key)
  {
    var parts := SplitStar(pattern);
    var tail := key[|parts[0]|..];
    var fills: seq<string> :| |fills| == |parts[1..]| && Weave(parts[1..], fills) == tail;
    FillIsWeave(pattern, fills);
    assert key == parts[0] + tail;
  }

  lemma ExpandsIsWeave(pattern: string, key: string)
    ensures var parts := SplitStar(pattern);
            Expands(pattern, key) <==> HasPrefix(key, parts[0]) && Weaves(parts[1..], key[|parts[0]|..])
  {
    var parts := SplitStar(pattern);
    if Expands(pattern, key) {
      ExpansionWeaves(pattern, key);
    } else if HasPrefix(key, parts[0]) && Weaves(parts[1..], key[|parts[0]|..]) {
      WeaveExpands(pattern, key);
    }
  }

  lemma StarMatchesAll(key: string)
    ensures Expands("*", key)
  {
    var star := "*";
    assert star[1..] == "" && Fill(star, [key]) == key;
  }

  // Prefix, suffix and the middle parts between them decide a pattern with a star.
  lemma PartsDecide(pattern: string, key: string, first: string, middle: seq<string>, last: string)
    requires SplitStar(pattern) == [first] + (middle + [last])
    ensures var rest := if HasPrefix(key, first) then key[|first|..] else "";
            Expands(pattern, key) <==>
            HasPrefix(key, first) && HasSuffix(rest, last) && Fits(middle, rest[..|rest| - |last|])
  {
    ExpandsIsWeave(pattern, key);
    assert SplitStar(pattern)[1..] == middle + [last];
    if HasPrefix(key, first) { TailDecides(middle, last, key[|first|..]); }
  }

  method MatchKey(pattern: string, key: string) returns (matches: bool)
    ensures matches <==> KeyMatches(pattern, key)
  {
    if pattern == "" || pattern == "*" {
      if pattern == "*" { StarMatchesAll(key); }
      return true;
    }
    var parts := SplitStar(pattern);
    if |parts| == 1 {
      NoStarsIsLiteral(pattern, key);
      return key == pattern;
    }
    var last := parts[|parts| - 1];
    var middle := parts[1..|parts| - 1];
    assert parts == [parts[0]] + (middle + [last]);
    PartsDecide(pattern, key, parts[0], middle, last);
    if !HasPrefix(key, parts[0]) {
      return false;
    }
    var rest := key[|parts[0]|..];
    if !HasSuffix(rest, last) {
      return false;
    }
    rest := rest[..|rest| - |last|];
    matches := FindAll(middle, rest);
  }

  // The loop over the middle parts: take each at its first occurrence.
  method FindAll(middle: seq<string>, body: string) returns (found: bool)
    ensures found <==> Fits(middle, body)
  {
    var rest := body;
    var n := 0;
    while n < |middle|
      invariant 0 <= n <= |middle|
      invariant Fits(middle, body) <==> Fits(middle[n..], rest)
    {
      FirstOccurrenceSuffices(middle[n..], rest);
      assert middle[n..][1..] == middle[n + 1..];
      var i := Index(rest, middle[n]);
      if i < 0 {
        return false;
      }
      rest := rest[i + |middle[n]|..];
      n := n + 1;
    }
    return true;
  }

  lemma {:induction false} FillWithoutStars(pattern: string)
    requires Stars(pattern) == 0
    ensures Fill(pattern, []) == pattern
  {
    if pattern != "" { FillWithoutStars(pattern[1..]); }
  }

  lemma NoStarsIsLiteral(pattern: string, key: string)
    requires Stars(pattern) == 0
    ensures Expands(pattern, key) <==> key == pattern
  {
    FillWithoutStars(pattern);
    var none: seq<string> := [];
    assert |none| == Stars(pattern) && Fill(pattern, none) == pattern;
  }

  lemma {:induction false} LiteralSplits(p: string)
    requires '*' !in p
    ensures SplitStar(p) == [p]
  {
    if p != "" {
      LiteralSplits(p[1..]);
      assert [p[0]] + p[1..] == p;
    }
  }

  lemma {:induction false} SplitsAround(p: string, q: string)
    requires '*' !in p && '*' !in q
    ensures SplitStar(p + "*" + q) == [p, q]
  {
    var s := p + "*" + q;
    if p == "" {
      LiteralSplits(q);
      assert s[1..] == q;
    } else {
      SplitsAround(p[1..], q);
      assert s[1..] == p[1..] + "*" + q;
      assert [p[0]] + p[1..] == p;
    }
  }

  lemma EndsDecide(p: string, q: string, key: string)
    requires SplitStar(p + "*" + q) == [p, q]
    ensures Expands(p + "*" + q, key) <==> HasPrefix(key, p) && HasSuffix(key[|p|..], q)
  {
    var none: seq<string> := [];
    assert [p, q] == [p] + (none + [q]);
    PartsDecide(p + "*" + q, key, p, none, q);
  }

  lemma EndsApart(p: string, q: string, key: string)
    ensures HasPrefix(key, p) && HasSuffix(key[|p|..], q) <==>
            |p| + |q| <= |key| && key[..|p|] == p && key[|key| - |q|..] == q
  {
    if HasPrefix(key, p) && |p| + |q| <= |key| {
      var rest := key[|p|..];
      assert rest[|rest| - |q|..] == key[|key| - |q|..];
    }
  }

  // The patterns in use: a literal key, a prefix, a suffix, and a star between two ends
  // that may not overlap. The empty pattern alone matches everything.
  lemma OneStarMatches(p: string, q: string, key: string)
    requires '*' !in p && '*' !in q
    ensures KeyMatches(p, key) <==> p == "" || key == p
    ensures KeyMatches(p + "*" + q, key) <==>
            |p| + |q| <= |key| && key[..|p|] == p && key[|key| - |q|..] == q
  {
    LiteralSplits(p);
    NoStarsIsLiteral(p, key);
    SplitsAround(p, q);
    EndsDecide(p, q, key);
    EndsApart(p, q, key);
  }
}
