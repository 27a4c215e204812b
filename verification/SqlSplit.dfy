/**
 The migration splitter: splitSQLStatements of backend/internal/repository/migrate.go.
 A character stands for a byte of the file.
 */
module SqlSplit {
  // ---------------------------------------------------------------- helpers of the Go library

  // The white space strings.TrimSpace cuts, among ASCII characters.
  predicate Space(c: char) { c == ' ' || c == '\t' || c == '\n' || c == '\r' || c == 0x0B as char || c == 0x0C as char }

  predicate Blank(c: char) { c == ' ' || c == '\t' || c == '\r' || c == '\n' }

  function TrimLeft(s: string): string { if s != "" && Space(s[0]) then TrimLeft(s[1..]) else s }

  function TrimRight(s: string): string { if s != "" && Space(s[|s| - 1]) then TrimRight(s[..|s| - 1]) else s }

  function TrimSpace(s: string): string { TrimRight(TrimLeft(s)) }

  function TrimBlanks(s: string): string { if s != "" && Blank(s[|s| - 1]) then TrimBlanks(s[..|s| - 1]) else s }

  function UpperChar(c: char): char { if 'a' <= c <= 'z' then c - 'a' + 'A' else c }

  function Upper(s: string): (r: string)
    ensures |r| == |s|
  {
    seq(|s|, i requires 0 <= i < |s| => UpperChar(s[i]))
  }

  predicate StartsWith(s: string, p: string) { |p| <= |s| && s[..|p|] == p }

  predicate Contains(s: string, p: string) { exists i :: 0 <= i <= |s| && StartsWith(s[i..], p) }

  predicate EndsWithEndKeyword(up: string) {
    var t := TrimBlanks(up);
    |t| >= 3 && t[|t| - 3..] == "END" && (|t| == 3 || Blank(t[|t| - 4]))
  }

  // A CREATE TRIGGER statement whose body has not been closed.
  predicate IsUnterminatedTrigger(buf: string) {
    Contains(Upper(buf), "CREATE TRIGGER") && !EndsWithEndKeyword(Upper(buf))
  }

  // ---------------------------------------------------------------- the scanner's tokens

  // Ends of tokens, from a position inside one.
  function LineEnd(s: string, i: nat): (e: nat)
    requires i <= |s|
    ensures i <= e <= |s|
    decreases |s| - i
  {
    if i == |s| then i else if s[i] == '\n' then i + 1 else LineEnd(s, i + 1)
  }

  function BlockEnd(s: string, i: nat): (e: nat)
    requires i <= |s|
    ensures i <= e <= |s|
    decreases |s| - i
  {
    if i == |s| then i
    else if s[i] == '*' && i + 1 < |s| && s[i + 1] == '/' then i + 2
    else BlockEnd(s, i + 1)
  }

  function QuoteEnd(s: string, i: nat): (e: nat)
    requires i <= |s|
    ensures i <= e <= |s|
    decreases |s| - i
  {
    if i == |s| then i
    else if s[i] != '\'' then QuoteEnd(s, i + 1)
    else if i + 1 < |s| && s[i + 1] == '\'' then QuoteEnd(s, i + 2)
    else i + 1
  }

  predicate Opens(s: string, i: nat, a: char, b: char) { i + 1 < |s| && s[i] == a && s[i + 1] == b }

  // A token is a quoted literal, a line comment, a block comment or one other character.
  function TokenEnd(s: string, i: nat): (e: nat)
    requires i < |s|
    ensures i < e <= |s|
  {
    if s[i] == '\'' then QuoteEnd(s, i + 1)
    else if Opens(s, i, '-', '-') then LineEnd(s, i + 1)
    else if Opens(s, i, '/', '*') then BlockEnd(s, i + 1)
    else i + 1
  }

  // A token starts at p, lexing from position i.
  predicate StartsToken(s: string, i: nat, p: nat)
    requires i <= |s|
    decreases |s| - i
  {
    p == i || (i < |s| && i < p && StartsToken(s, TokenEnd(s, i), p))
  }

  // ---------------------------------------------------------------- the split

  // The first semicolon token, from i on, at which the text since `start` is no open trigger.
  function NextCut(s: string, open: string -> bool, start: nat, i: nat): (c: nat)
    requires start <= i <= |s|
    ensures i <= c <= |s|
    decreases |s| - i
  {
    if i == |s| then i
    else if s[i] == ';' && !open(s[start..i]) then i
    else NextCut(s, open, start, TokenEnd(s, i))
  }

  function SegmentsFrom(s: string, open: string -> bool, start: nat, i: nat): (r: seq<string>)
    requires start <= i <= |s|
    ensures r != []
    decreases |s| - start
  {
    var c := NextCut(s, open, start, i);
    if c == |s| then [s[start..]] else [s[start..c]] + SegmentsFrom(s, open, c + 1, c + 1)
  }

  function Segments(s: string, open: string -> bool): seq<string> { SegmentsFrom(s, open, 0, 0) }

  function Statements(segments: seq<string>): seq<string> {
    if segments == [] then []
    else (if TrimSpace(segments[0]) == "" then [] else [TrimSpace(segments[0])]) + Statements(segments[1..])
  }

  // ---------------------------------------------------------------- the scanner

  datatype Mode = Code | Quote | Line | Block

  // Where the token being scanned at i ends.
  function ModeEnd(s: string, i: nat, m: Mode): (e: nat)
    requires i <= |s|
    ensures i <= e <= |s|
  {
    match m
    case Code => i
    case Quote => QuoteEnd(s, i)
    case Line => LineEnd(s, i)
    case Block => BlockEnd(s, i)
  }

  // What is left to split when the scanner stands at i in mode m, after `done`.
  ghost predicate Scanned(s: string, open: string -> bool, start: nat, i: nat, m: Mode, done: seq<string>) {
    start <= i <= |s| && Segments(s, open) == done + SegmentsFrom(s, open, start, ModeEnd(s, i, m))
  }

  // One round of the loop: the next position and mode, unless the statement is cut at i.
  function Advance(s: string, i: nat, m: Mode): (r: (nat, Mode))
    requires i < |s|
    ensures i < r.0 <= |s|
  {
    match m
    case Line => (i + 1, if s[i] == '\n' then Code else Line)
    case Block => if Opens(s, i, '*', '/') then (i + 2, Code) else (i + 1, Block)
    case Quote =>
      if s[i] != '\'' then (i + 1, Quote) else if Opens(s, i, '\'', '\'') then (i + 2, Quote) else (i + 1, Code)
    case Code =>
      (i + 1, if s[i] == '\'' then Quote
              else if Opens(s, i, '-', '-') then Line
              else if Opens(s, i, '/', '*') then Block
              else Code)
  }

  predicate CutsHere(s: string, open: string -> bool, start: nat, i: nat, m: Mode)
    requires start <= i < |s|
  {
    m == Code && s[i] == ';' && !open(s[start..i])
  }

  lemma TokenGoesOn(s: string, i: nat, m: Mode)
    requires i < |s|
    ensures ModeEnd(s, Advance(s, i, m).0, Advance(s, i, m).1) == if m == Code then TokenEnd(s, i) else ModeEnd(s, i, m)
  {
    match m
    case Code =>
    case Quote => assert QuoteEnd(s, i) == QuoteEnd(s, Advance(s, i, m).0) || Advance(s, i, m).1 == Code;
    case Line => assert LineEnd(s, i) == LineEnd(s, i + 1) || s[i] == '\n';
    case Block => assert BlockEnd(s, i) == BlockEnd(s, i + 1) || Opens(s, i, '*', '/');
  }

  lemma TokenIsSkipped(s: string, open: string -> bool, start: nat, i: nat)
    requires start <= i < |s| && !CutsHere(s, open, start, i, Code)
    ensures SegmentsFrom(s, open, start, i) == SegmentsFrom(s, open, start, TokenEnd(s, i))
  {
    assert NextCut(s, open, start, i) == NextCut(s, open, start, TokenEnd(s, i));
  }

  lemma AdvanceStays(s: string, open: string -> bool, start: nat, i: nat, m: Mode, done: seq<string>)
    requires i < |s| && Scanned(s, open, start, i, m, done) && !CutsHere(s, open, start, i, m)
    ensures Scanned(s, open, start, Advance(s, i, m).0, Advance(s, i, m).1, done)
  {
    TokenGoesOn(s, i, m);
    if m == Code { TokenIsSkipped(s, open, start, i); }
  }

  lemma CutAdvances(s: string, open: string -> bool, start: nat, i: nat, done: seq<string>)
    requires start <= i < |s| && Scanned(s, open, start, i, Code, done) && CutsHere(s, open, start, i, Code)
    ensures Scanned(s, open, i + 1, i + 1, Code, done + [s[start..i]])
  {
    assert done + ([s[start..i]] + SegmentsFrom(s, open, i + 1, i + 1))
        == (done + [s[start..i]]) + SegmentsFrom(s, open, i + 1, i + 1);
  }

  lemma ScanEnds(s: string, open: string -> bool, start: nat, m: Mode, done: seq<string>)
    requires Scanned(s, open, start, |s|, m, done)
    ensures Segments(s, open) == done + [s[start..]]
  {}

  // The buffer after a round that does not cut.
  lemma BufferGrows(s: string, start: nat, i: nat, m: Mode) returns (buffer: string)
    requires start <= i < |s|
    ensures buffer == s[start..Advance(s, i, m).0]
         == if Advance(s, i, m).0 == i + 2 then s[start..i] + [s[i]] + [s[i + 1]] else s[start..i] + [s[i]]
  {
    buffer := s[start..Advance(s, i, m).0];
  }

  // What a round does to the unfinished statement, the finished ones and the buffer.
  lemma Round(s: string, open: string -> bool, start: nat, i: nat, m: Mode, done: seq<string>, current: string)
    returns (next: (nat, Mode), start': nat, done': seq<string>, buffer: string)
    requires i < |s| && Scanned(s, open, start, i, m, done) && current == s[start..i]
    ensures next == Advance(s, i, m) && Scanned(s, open, start', next.0, next.1, done') && buffer == s[start'..next.0]
    ensures if m == Code && s[i] == ';' && !open(current)
            then start' == i + 1 && done' == done + [current] && buffer == ""
            else start' == start && done' == done
                 && buffer == if next.0 == i + 2 then current + [s[i]] + [s[i + 1]] else current + [s[i]]
  {
    next := Advance(s, i, m);
    if CutsHere(s, open, start, i, m) {
      CutAdvances(s, open, start, i, done);
      start', done', buffer := i + 1, done + [current], "";
    } else {
      AdvanceStays(s, open, start, i, m, done);
      start', done' := start, done;
      buffer := BufferGrows(s, start, i, m);
    }
  }

  method SplitSQLStatements(content: string) returns (stmts: seq<string>)
    ensures stmts == Statements(Segments(content, IsUnterminatedTrigger))
  {
    stmts := [];
    var current := "";
    var inSingleQuote, inLineComment, inBlockComment := false, false, false;
    ghost var start: nat, done: seq<string>, m := 0, [], Code;
    var i := 0;
    while i < |content|
      invariant start <= i <= |content| && current == content[start..i]
      invariant inLineComment == m.Line? && inBlockComment == m.Block? && inSingleQuote == m.Quote?
      invariant stmts == Statements(done) && Scanned(content, IsUnterminatedTrigger, start, i, m, done)
    {
      ghost var next, start', done', buffer := Round(content, IsUnterminatedTrigger, start, i, m, done, current);
      var c := content[i];
      if inLineComment {
        if c == '\n' {
          inLineComment := false;
        }
        current := current + [c];
      } else if inBlockComment {
        current := current + [c];
        if c == '*' && i + 1 < |content| && content[i + 1] == '/' {
          current := current + "/";
          i := i + 1;
          inBlockComment := false;
        }
      } else if inSingleQuote {
        current := current + [c];
        if c == '\'' {
          if i + 1 < |content| && content[i + 1] == '\'' {
            current := current + "'";
            i := i + 1;
          } else {
            inSingleQuote := false;
          }
        }
      } else if c == '\'' {
        inSingleQuote := true;
        current := current + [c];
      } else if c == '-' && i + 1 < |content| && content[i + 1] == '-' {
        inLineComment := true;
        current := current + [c];
      } else if c == '/' && i + 1 < |content| && content[i + 1] == '*' {
        inBlockComment := true;
        current := current + [c];
      } else if c == ';' && !IsUnterminatedTrigger(current) {
        stmts := Emit(stmts, current, done);
        current := "";
      } else {
        current := current + [c];
      }
      i, m, start, done := i + 1, next.1, start', done';
      assert i == next.0 && current == buffer;
    }
    assert current == content[start..];
    ScanEnds(content, IsUnterminatedTrigger, start, m, done);
    stmts := Emit(stmts, current, done);
  }

  // Adds the trimmed buffer unless nothing is left of it.
  method Emit(stmts: seq<string>, current: string, ghost done: seq<string>) returns (r: seq<string>)
    requires stmts == Statements(done)
    ensures r == Statements(done + [current])
  {
    var stmt := TrimSpace(current);
    StatementsAppend(done, current);
    return if stmt != "" then stmts + [stmt] else stmts;
  }

  lemma {:induction false} StatementsAppend(a: seq<string>, x: string)
    ensures Statements(a + [x]) == Statements(a) + (if TrimSpace(x) == "" then [] else [TrimSpace(x)])
    decreases a
  {
    if a == [] {
      assert a + [x] == [x];
    } else {
      assert (a + [x])[1..] == a[1..] + [x];
      StatementsAppend(a[1..], x);
    }
  }

  // ---------------------------------------------------------------- nothing is lost

  function Join(segments: seq<string>): string
    requires segments != []
  {
    if |segments| == 1 then segments[0] else segments[0] + ";" + Join(segments[1..])
  }

  lemma {:induction false} CutIsASemicolon(s: string, open: string -> bool, start: nat, i: nat)
    requires start <= i <= |s|
    ensures var c := NextCut(s, open, start, i); c < |s| ==> s[c] == ';' && !open(s[start..c])
    decreases |s| - i
  {
    if i < |s| && !(s[i] == ';' && !open(s[start..i])) { CutIsASemicolon(s, open, start, TokenEnd(s, i)); }
  }

  lemma {:induction false} SegmentsRejoin(s: string, open: string -> bool, start: nat)
    requires start <= |s|
    ensures Join(SegmentsFrom(s, open, start, start)) == s[start..]
    decreases |s| - start
  {
    var c := NextCut(s, open, start, start);
    if c < |s| {
      CutIsASemicolon(s, open, start, start);
      SegmentsRejoin(s, open, c + 1);
      var rest := SegmentsFrom(s, open, c + 1, c + 1);
      assert ([s[start..c]] + rest)[1..] == rest;
      assert s[start..] == s[start..c] + ";" + s[c + 1..];
    }
  }

  lemma SplitIsLossless(s: string, open: string -> bool)
    ensures Join(Segments(s, open)) == s
  {
    SegmentsRejoin(s, open, 0);
  }

  // ---------------------------------------------------------------- where it cuts

  // Lexing on from a token's end finds the same later tokens.
  lemma {:induction false} TokensFollow(s: string, i: nat, j: nat, p: nat)
    requires i <= j <= |s| && StartsToken(s, i, j) && j <= p <= |s|
    ensures StartsToken(s, i, p) <==> StartsToken(s, j, p)
    decreases |s| - i
  {
    if i < j { TokensFollow(s, TokenEnd(s, i), j, p); }
  }

  // Every semicolon token before the cut sits in an open trigger.
  lemma {:induction false} CutIsTheFirst(s: string, open: string -> bool, start: nat, i: nat, p: nat)
    requires start <= i <= p < |s| && StartsToken(s, i, p) && s[p] == ';'
    ensures var c := NextCut(s, open, start, i);
            && (p < c ==> open(s[start..p]))
            && (!open(s[start..p]) ==> c <= p)
    decreases |s| - i
  {
    if i < p && !(s[i] == ';' && !open(s[start..i])) { CutIsTheFirst(s, open, start, TokenEnd(s, i), p); }
  }

  lemma {:induction false} CutStartsToken(s: string, open: string -> bool, start: nat, i: nat)
    requires start <= i <= |s|
    ensures var c := NextCut(s, open, start, i); StartsToken(s, i, c)
    decreases |s| - i
  {
    if i < |s| && !(s[i] == ';' && !open(s[start..i])) { CutStartsToken(s, open, start, TokenEnd(s, i)); }
  }

  // Where segment k begins.
  function Offset(segments: seq<string>, k: nat): nat
    requires k <= |segments|
  {
    if k == 0 then 0 else |segments[0]| + 1 + Offset(segments[1..], k - 1)
  }

  // Segment k of a split is s[a..b]: it ends at the first semicolon token of the input
  // at which it is no open trigger, or at the end of the input.
  ghost predicate IsSegment(s: string, open: string -> bool, a: nat, b: nat) {
    && a <= b <= |s| && (b < |s| ==> StartsToken(s, 0, b) && s[b] == ';' && !open(s[a..b]))
    && forall p :: a <= p < b && StartsToken(s, 0, p) && s[p] == ';' ==> open(s[a..p])
  }

  lemma FirstSegment(s: string, open: string -> bool, start: nat)
    requires start <= |s| && StartsToken(s, 0, start)
    ensures IsSegment(s, open, start, NextCut(s, open, start, start))
    ensures var c := NextCut(s, open, start, start); c < |s| ==> StartsToken(s, 0, c + 1)
  {
    var c := NextCut(s, open, start, start);
    CutIsASemicolon(s, open, start, start);
    CutStartsToken(s, open, start, start);
    TokensFollow(s, 0, start, c);
    if c < |s| { TokensFollow(s, 0, c, c + 1); }
    forall p | start <= p < c && StartsToken(s, 0, p) && s[p] == ';' ensures open(s[start..p]) {
      TokensFollow(s, 0, start, p);
      CutIsTheFirst(s, open, start, start, p);
    }
  }

  ghost predicate SegmentAt(s: string, open: string -> bool, r: seq<string>, k: nat, a: nat)
    requires k < |r|
  {
    IsSegment(s, open, a, a + |r[k]|) && r[k] == s[a..a + |r[k]|] && (k == |r| - 1 <==> a + |r[k]| == |s|)
  }

  lemma SegmentsUnfold(s: string, open: string -> bool, start: nat, c: nat)
    requires start <= |s| && c == NextCut(s, open, start, start)
    ensures SegmentsFrom(s, open, start, start)
         == if c == |s| then [s[start..c]] else [s[start..c]] + SegmentsFrom(s, open, c + 1, c + 1)
  {
    if c == |s| { assert s[start..c] == s[start..]; }
  }

  lemma SegmentMoves(s: string, open: string -> bool, r: seq<string>, rest: seq<string>, k: nat, a: nat, after: nat)
    requires 0 < k < |r| && r[1..] == rest && after == a + |r[0]| + 1
    requires SegmentAt(s, open, rest, k - 1, after + Offset(rest, k - 1))
    ensures SegmentAt(s, open, r, k, a + Offset(r, k))
  {
    assert r[k] == rest[k - 1];
    assert a + Offset(r, k) == after + Offset(rest, k - 1);
  }

  lemma FirstSegmentAt(s: string, open: string -> bool, start: nat)
    requires start <= |s| && StartsToken(s, 0, start)
    ensures SegmentAt(s, open, SegmentsFrom(s, open, start, start), 0, start)
  {
    var c := NextCut(s, open, start, start);
    FirstSegment(s, open, start);
    SegmentsUnfold(s, open, start, c);
    assert start + |s[start..c]| == c;
  }

  lemma {:induction false} SegmentsAreExact(s: string, open: string -> bool, r: seq<string>, start: nat, k: nat)
    requires start <= |s| && StartsToken(s, 0, start) && r == SegmentsFrom(s, open, start, start) && k < |r|
    ensures SegmentAt(s, open, r, k, start + Offset(r, k))
    decreases |s| - start
  {
    if k == 0 {
      FirstSegmentAt(s, open, start);
    } else {
      var c := NextCut(s, open, start, start);
      var rest := FirstIsCut(s, open, start, c, r);
      SegmentsAreExact(s, open, rest, c + 1, k - 1);
      SegmentMoves(s, open, r, rest, k, start, c + 1);
    }
  }

  lemma FirstIsCut(s: string, open: string -> bool, start: nat, c: nat, r: seq<string>) returns (rest: seq<string>)
    requires start <= |s| && StartsToken(s, 0, start) && c == NextCut(s, open, start, start)
    requires r == SegmentsFrom(s, open, start, start) && |r| > 1
    ensures c < |s| && StartsToken(s, 0, c + 1) && start + |r[0]| + 1 == c + 1
    ensures rest == SegmentsFrom(s, open, c + 1, c + 1) && r[1..] == rest
  {
    SegmentsUnfold(s, open, start, c);
    FirstSegment(s, open, start);
    rest := SegmentsFrom(s, open, c + 1, c + 1);
    assert r == [s[start..c]] + rest;
  }

  // Every cut is a semicolon outside literals, comments and open triggers, and every such
  // semicolon is a cut.
  lemma SplitIsExact(s: string, open: string -> bool, k: nat)
    requires k < |Segments(s, open)|
    ensures SegmentAt(s, open, Segments(s, open), k, Offset(Segments(s, open), k))
  {
    SegmentsAreExact(s, open, Segments(s, open), 0, k);
  }

  // ---------------------------------------------------------------- what the tokens are

  lemma {:induction false} LineEndsAtNewline(s: string, i: nat)
    requires i <= |s|
    ensures var e := LineEnd(s, i);
            && (forall j :: i <= j < e - 1 ==> s[j] != '\n')
            && (e == |s| || s[e - 1] == '\n')
    decreases |s| - i
  {
    if i < |s| && s[i] != '\n' { LineEndsAtNewline(s, i + 1); }
  }

  predicate Closes(s: string, j: nat) { j + 1 < |s| && s[j] == '*' && s[j + 1] == '/' }

  // A block comment ends with the first closing mark after its slash, so "/*/" is one.
  lemma {:induction false} BlockEndsAtFirstClose(s: string, i: nat)
    requires i <= |s|
    ensures var e := BlockEnd(s, i);
            && (forall j :: i <= j < e - 2 ==> !Closes(s, j))
            && (e == |s| || (i + 2 <= e && Closes(s, e - 2)))
            && ((forall j :: i <= j < |s| ==> !Closes(s, j)) ==> e == |s|)
    decreases |s| - i
  {
    if i < |s| && !Closes(s, i) { BlockEndsAtFirstClose(s, i + 1); }
  }

  function Quotes(s: string): nat { if s == "" then 0 else (if s[0] == '\'' then 1 else 0) + Quotes(s[1..]) }

  // A literal runs to the first quote that leaves an even number of quotes behind it and
  // is not followed by another.
  lemma {:induction false} QuoteEndsAtClose(s: string, i: nat)
    requires i <= |s|
    ensures var e := QuoteEnd(s, i);
            && (e < |s| ==> i < e && s[e - 1] == '\'' && s[e] != '\'' && Quotes(s[i..e]) % 2 == 1)
            && (forall j :: i < j < e && s[j - 1] == '\'' && Quotes(s[i..j]) % 2 == 1 ==> s[j] == '\'')
    decreases |s| - i
  {
    if i < |s| {
      var step := if s[i] != '\'' then 1 else 2;
      if s[i] != '\'' || (i + 1 < |s| && s[i + 1] == '\'') {
        QuoteEndsAtClose(s, i + step);
        forall j | i + step <= j <= |s| ensures Quotes(s[i..j]) % 2 == Quotes(s[i + step..j]) % 2 {
          assert s[i..j][1..] == s[i + 1..j];
          if step == 2 { assert s[i + 1..j][1..] == s[i + 2..j]; }
        }
      } else {
        assert s[i..i + 1] == "'" && Quotes("'") == 1 + Quotes("'"[1..]);
      }
    }
  }

  // ---------------------------------------------------------------- END and white space

  predicate AllBlank(s: string) { forall i :: 0 <= i < |s| ==> Blank(s[i]) }

  predicate AllSpace(s: string) { forall i :: 0 <= i < |s| ==> Space(s[i]) }

  lemma {:induction false} TrimBlanksCuts(s: string, n: nat)
    requires n <= |s| && AllBlank(s[n..]) && (n > 0 ==> !Blank(s[n - 1]))
    ensures TrimBlanks(s) == s[..n]
    decreases |s|
  {
    if n < |s| {
      assert s[n..][|s| - 1 - n] == s[|s| - 1];
      var t := s[..|s| - 1];
      assert t[n..] == s[n..][..|s| - 1 - n] && t[..n] == s[..n];
      TrimBlanksCuts(t, n);
    } else {
      assert s[..n] == s;
    }
  }

  lemma {:induction false} TrimBlanksLeaves(s: string)
    ensures var t := TrimBlanks(s); |t| <= |s| && t == s[..|t|] && AllBlank(s[|t|..])
    decreases |s|
  {
    if s != "" && Blank(s[|s| - 1]) { TrimBlanksLeaves(s[..|s| - 1]); }
  }

  // The text ends with the word END, blanks aside.
  ghost predicate EndsWithEnd(up: string, n: nat) {
    3 <= n <= |up| && up[n - 3..n] == "END" && AllBlank(up[n..]) && (n == 3 || Blank(up[n - 4]))
  }

  lemma EndKeywordIsAWord(up: string)
    ensures EndsWithEndKeyword(up) <==> exists n :: EndsWithEnd(up, n)
  {
    var t := TrimBlanks(up);
    TrimBlanksLeaves(up);
    if EndsWithEndKeyword(up) {
      assert t[|t| - 3..] == up[|t| - 3..|t|];
      assert EndsWithEnd(up, |t|);
    }
    if n: nat :| EndsWithEnd(up, n) {
      assert up[n - 1] == up[n - 3..n][2];
      TrimBlanksCuts(up, n);
      assert t[|t| - 3..] == up[n - 3..n];
    }
  }

  lemma {:induction false} TrimLeftLeaves(s: string)
    ensures var t := TrimLeft(s);
        |t| <= |s| && t == s[|s| - |t|..] && AllSpace(s[..|s| - |t|]) && (t != "" ==> !Space(t[0]))
    decreases |s|
  {
    if s != "" && Space(s[0]) {
      TrimLeftLeaves(s[1..]);
      var k := |s| - |TrimLeft(s)|;
      assert s[..k] == [s[0]] + s[1..][..k - 1];
    }
  }

  lemma {:induction false} TrimRightLeaves(s: string)
    ensures var t := TrimRight(s); |t| <= |s| && t == s[..|t|] && AllSpace(s[|t|..]) && (t != "" ==> !Space(t[|t| - 1]))
    decreases |s|
  {
    if s != "" && Space(s[|s| - 1]) {
      TrimRightLeaves(s[..|s| - 1]);
      var n := |TrimRight(s)|;
      assert s[n..] == s[..|s| - 1][n..] + [s[|s| - 1]];
    }
  }

  // Only white space is trimmed, and none is left at either end.
  lemma TrimSpaceCutsOnlySpace(s: string) returns (a: nat, b: nat)
    ensures a <= b <= |s| && TrimSpace(s) == s[a..b] && AllSpace(s[..a]) && AllSpace(s[b..])
    ensures a < b ==> !Space(s[a]) && !Space(s[b - 1])
  {
    var l := TrimLeft(s);
    TrimLeftLeaves(s);
    TrimRightLeaves(l);
    a := |s| - |l|;
    b := a + |TrimSpace(s)|;
    assert s[b..] == l[|TrimSpace(s)|..];
  }

  // ---------------------------------------------------------------- the scanner's terms in characters

  // What starts each kind of token, and where its end is looked for.
  lemma TokensInCharacters(s: string, i: nat)
    requires i < |s|
    ensures var next := if i + 1 < |s| then s[i + 1] else '\0';
            && (s[i] == '\'' ==> TokenEnd(s, i) == QuoteEnd(s, i + 1))
            && (s[i] == '-' && next == '-' ==> TokenEnd(s, i) == LineEnd(s, i + 1))
            && (s[i] == '/' && next == '*' ==> TokenEnd(s, i) == BlockEnd(s, i + 1))
            && (s[i] != '\'' && !(s[i] == '-' && next == '-') && !(s[i] == '/' && next == '*') ==>
                  TokenEnd(s, i) == i + 1)
  {}

  lemma SpaceInCharacters(c: char)
    ensures Space(c) <==> c in {' ', '\t', '\n', '\U{B}', '\U{C}', '\r'}
    ensures Blank(c) <==> c in {' ', '\t', '\r', '\n'}
  {}

  // The text is this capital word but for the case of its letters.
  predicate Spells(s: string, word: string) {
    && |s| == |word|
    && forall k :: 0 <= k < |s| ==>
         s[k] == word[k] || ('A' <= word[k] <= 'Z' && s[k] == word[k] - 'A' + 'a')
  }

  lemma UpperSpells(s: string, word: string)
    requires forall k :: 0 <= k < |word| ==> word[k] == ' ' || 'A' <= word[k] <= 'Z'
    ensures Upper(s) == word <==> Spells(s, word)
  {
    if Upper(s) == word {
      forall k | 0 <= k < |s| ensures s[k] == word[k] || ('A' <= word[k] <= 'Z' && s[k] == word[k] - 'A' + 'a') {
        assert UpperChar(s[k]) == Upper(s)[k];
      }
    }
  }

  lemma UpperOfPart(s: string, a: nat, b: nat)
    requires a <= b <= |s|
    ensures Upper(s)[a..b] == Upper(s[a..b])
  {}

  ghost predicate SpellsAt(s: string, word: string, i: nat) {
    i + |word| <= |s| && Spells(s[i..i + |word|], word)
  }

  lemma ContainsSpells(s: string, word: string)
    requires forall k :: 0 <= k < |word| ==> word[k] == ' ' || 'A' <= word[k] <= 'Z'
    ensures Contains(Upper(s), word) <==> exists i: nat :: SpellsAt(s, word, i)
  {
    forall i: nat | i + |word| <= |s| ensures SpellsAt(s, word, i) <==> Upper(s)[i..][..|word|] == word {
      UpperOfPart(s, i, i + |word|);
      UpperSpells(s[i..i + |word|], word);
      assert Upper(s)[i..][..|word|] == Upper(s)[i..i + |word|];
    }
    if Contains(Upper(s), word) {
      var i :| 0 <= i <= |Upper(s)| && StartsWith(Upper(s)[i..], word);
      assert SpellsAt(s, word, i);
    }
    if i: nat :| SpellsAt(s, word, i) { assert StartsWith(Upper(s)[i..], word); }
  }

  // The word END ends here and only blanks follow it.
  ghost predicate EndsAt(s: string, n: nat) {
    && 3 <= n <= |s| && SpellsAt(s, "END", n - 3)
    && (forall k :: n <= k < |s| ==> s[k] in {' ', '\t', '\r', '\n'})
    && (n == 3 || s[n - 4] in {' ', '\t', '\r', '\n'})
  }

  lemma BlankStaysBlank(c: char)
    ensures Blank(UpperChar(c)) <==> c in {' ', '\t', '\r', '\n'}
  {}

  lemma EndIsSpelled(s: string, n: nat)
    ensures EndsWithEnd(Upper(s), n) <==> EndsAt(s, n)
  {
    if 3 <= n <= |s| {
      UpperOfPart(s, n - 3, n);
      UpperSpells(s[n - 3..n], "END");
      assert s[n - 3..n - 3 + 3] == s[n - 3..n];
      if n > 3 { BlankStaysBlank(s[n - 4]); }
      BlankTail(s, n);
    }
  }

  lemma BlankTail(s: string, n: nat)
    requires n <= |s|
    ensures AllBlank(Upper(s)[n..]) <==> forall k :: n <= k < |s| ==> s[k] in {' ', '\t', '\r', '\n'}
  {
    var tail := Upper(s)[n..];
    forall k | n <= k < |s| ensures Blank(tail[k - n]) <==> s[k] in {' ', '\t', '\r', '\n'} {
      BlankStaysBlank(s[k]);
    }
  }

  // A statement is an open trigger when CREATE TRIGGER is spelled in it, in any case, and
  // it does not end with the word END.
  lemma TriggerInCharacters(buf: string)
    ensures IsUnterminatedTrigger(buf) <==>
            (exists i: nat :: SpellsAt(buf, "CREATE TRIGGER", i)) && !exists n: nat :: EndsAt(buf, n)
  {
    ContainsSpells(buf, "CREATE TRIGGER");
    EndKeywordIsAWord(Upper(buf));
    forall n: nat ensures EndsWithEnd(Upper(buf), n) <==> EndsAt(buf, n) { EndIsSpelled(buf, n); }
  }

  // The statements are the segments in their order, trimmed, without those that are empty.
  ghost predicate Keeps(segments: seq<string>, stmts: seq<string>, from: seq<nat>) {
    && |from| == |stmts|
    && (forall k :: 0 <= k < |from| ==> from[k] < |segments| && stmts[k] == TrimSpace(segments[from[k]]) != "")
    && (forall j, k :: 0 <= j < k < |from| ==> from[j] < from[k])
    && (forall i :: 0 <= i < |segments| && TrimSpace(segments[i]) != "" ==> i in from)
  }

  lemma {:induction false} StatementsAreTheSegments(segments: seq<string>) returns (from: seq<nat>)
    ensures Keeps(segments, Statements(segments), from)
    decreases |segments|
  {
    if segments == [] {
      from := [];
    } else {
      var n := |segments| - 1;
      var init := segments[..n];
      from := StatementsAreTheSegments(init);
      assert segments == init + [segments[n]];
      StatementsAppend(init, segments[n]);
      if TrimSpace(segments[n]) != "" { from := from + [n]; }
    }
  }
}
