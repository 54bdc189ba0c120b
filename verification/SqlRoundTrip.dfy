/** What the splitter promises: every emitted statement is a fixed point, and joined statements split
    back into the same list; and when that holds of the loop as it is written. */
module SqlRoundTrip {
  import opened Strings
  import opened Wrappers
  import opened SqlLexer
  import opened SqlSplitter
  import opened SqlInk
  import opened SqlTokens

  // ----- every emitted statement is a fixed point --------------------------------------------------------

  /** A trimmed statement splits into itself exactly when it has no separating semicolon and, for the loop
      as written, no closed block comment. */
  lemma FixedPointIff(stmt: string, keepSlash: bool)
    requires Trimmed(stmt)
    ensures Split(stmt, keepSlash) == [stmt] <==>
            Count(Lex(stmt), Semicolon) == 0 && (keepSlash || ClosedBlocks(Lex(stmt)) == 0)
  {
    hide Lex, Split, Strip, Rendered, Count, ClosedBlocks;
    InkOfSplit(stmt, keepSlash);
    assert InkOf([stmt]) == Ink(stmt) by { assert [stmt][..0] == []; }
    if Count(Lex(stmt), Semicolon) == 0 && (keepSlash || ClosedBlocks(Lex(stmt)) == 0) {
      if !keepSlash {
        DropsNothingIffNoClosedBlock(stmt);
      }
      SplitOne(stmt, true);
      RenderedIsText(Lex(stmt));
      LexLossless(stmt);
      StripTrims(stmt);
    }
  }

  lemma {:induction false} RenderedIsText(ts: seq<Token>)
    ensures Rendered(ts, true) == Text(ts)
  {
    if ts != [] {
      RenderedIsText(ts[..|ts| - 1]);
    }
  }

  lemma {:induction false} StatementOrigin(segments: seq<seq<Token>>, keepSlash: bool, j: nat) returns (k: nat)
    requires j < |Statements(segments, keepSlash)|
    ensures k < |segments| && Statements(segments, keepSlash)[j] == Strip(Rendered(segments[k], keepSlash)) != ""
  {
    hide Strip, Rendered;
    var n := |segments| - 1;
    if j < |Statements(segments[..n], keepSlash)| {
      k := StatementOrigin(segments[..n], keepSlash, j);
    } else {
      k := n;
    }
  }

  /** Splitting any statement emitted by the loop that keeps both characters gives back just that
      statement. */
  lemma EmittedIsFixedPoint(sql: string, j: nat)
    requires j < |Split(sql, true)|
    ensures Split(Split(sql, true)[j], true) == [Split(sql, true)[j]]
  {
    hide Lex, Strip, Rendered, Segments, Statements, Count;
    var segments := Segments(Lex(sql));
    var k := StatementOrigin(segments, true, j);
    RenderedIsText(segments[k]);
    SegmentIsStable(sql, k);
    SegmentsHaveNoSemicolon(Lex(sql));
    var text := Text(segments[k]);
    StripTrims(text);
    StripCounts(text);
    FixedPointIff(Strip(text), true);
  }

  lemma StripCounts(s: string)
    ensures SameCounts(Lex(Strip(s)), Lex(s))
  {
    hide Lex, Count, ClosedBlocks;
    StripLeftCounts(s);
    StripRightCounts(StripLeft(s));
  }

  // ----- joined lists split back into themselves ---------------------------------------------------------

  /** A statement that may be followed by others: trimmed, without separating semicolons, and every
      comment and quotation closed, except that it may end in a line comment. */
  ghost predicate Joinable(stmt: string) {
    && Trimmed(stmt)
    && Count(Lex(stmt), Semicolon) == 0
    && forall k :: 0 <= k < |Lex(stmt)| && !Lex(stmt)[k].closed ==> Lex(stmt)[k].kind == LineComment
  }

  const SEPARATOR := "\n;\n"

  function Join(statements: seq<string>): string {
    if statements == [] then ""
    else if |statements| == 1 then statements[0]
    else statements[0] + SEPARATOR + Join(statements[1..])
  }

  function ClosedBlocksOf(statements: seq<string>): nat {
    if statements == [] then 0 else ClosedBlocks(Lex(statements[0])) + ClosedBlocksOf(statements[1..])
  }

  ghost predicate LineOrClosed(ts: seq<Token>) {
    forall k :: 0 <= k < |ts| && !ts[k].closed ==> ts[k].kind == LineComment
  }

  /** The body of a line comment that ends before a newline. */
  lemma {:induction false} LineThenNewline(s: string, y: string)
    ensures LineBody(s + "\n" + y) == if LineBody(s).1 then LineBody(s) else (|s| + 1, true)
  {
    var t := s + "\n" + y;
    if s != "" {
      assert t[1..] == s[1..] + "\n" + y;
      LineThenNewline(s[1..], y);
    }
  }

  /** A closed token is still the first token when more text follows after white space; an open line
      comment ends at the newline. */
  lemma TokenThenNewline(s: string, y: string)
    requires s != "" && (FirstToken(s).2 || FirstToken(s).0 == LineComment)
    ensures var (kind, n, closed) := FirstToken(s);
            FirstToken(s + "\n" + y) == if closed then (kind, n, true) else (LineComment, |s| + 1, true)
  {
    var t := s + "\n" + y;
    var m := |s| + 1;
    assert t[..m] == s + "\n";
    TokenThenSpace(s, '\n');
    if FirstToken(s).0 == LineComment {
      assert t[2..] == s[2..] + "\n" + y;
      LineThenNewline(s[2..], y);
    } else {
      var u := s + "\n";
      assert u + y == t && u[1..] == s[1..] + "\n" && t[1..] == u[1..] + y;
      TagTailMore(u[1..], y);
      TokenWithMore(u, y);
    }
  }

  /** Text after a closed token that is followed by something does not change it. */
  lemma TokenWithMore(s: string, y: string)
    requires s != "" && FirstToken(s).2 && FirstToken(s).1 < |s|
    requires s[0] == '$' ==> TagLen(s + y) == TagLen(s)
    ensures FirstToken(s + y) == FirstToken(s)
  {
    var t := s + y;
    assert t[0] == s[0] && t[1..] == s[1..] + y;
    assert t[1] == s[1] && t[2..] == s[2..] + y;
    if s[0] == '-' && s[1] == '-' {
      LineMore(s[2..], y);
    } else if s[0] == '/' && s[1] == '*' {
      BlockMore(s[2..], y);
    } else if s[0] == '\'' || s[0] == '"' {
      QuoteMore(s[1..], y, s[0]);
    } else if s[0] == '$' && TagLen(s).Some? {
      var k := TagLen(s).value;
      assert t[k..] == s[k..] + y && t[..k] == s[..k];
      DollarMore(s[k..], y, s[..k]);
    }
  }

  lemma {:induction false} LineMore(s: string, y: string)
    requires LineBody(s).1
    ensures LineBody(s + y) == LineBody(s)
  {
    if s[0] != '\n' {
      assert (s + y)[1..] == s[1..] + y;
      LineMore(s[1..], y);
    }
  }

  lemma {:induction false} BlockMore(s: string, y: string)
    requires BlockBody(s).1
    ensures BlockBody(s + y) == BlockBody(s)
  {
    if !(|s| >= 2 && s[0] == '*' && s[1] == '/') {
      assert (s + y)[1..] == s[1..] + y;
      BlockBodyIsLong(s[1..]);
      BlockMore(s[1..], y);
    }
  }

  lemma {:induction false} BlockBodyIsLong(s: string)
    ensures BlockBody(s).1 ==> |s| >= 2
  {
    if s != "" {
      BlockBodyIsLong(s[1..]);
    }
  }

  lemma {:induction false} QuoteMore(s: string, y: string, q: char)
    requires QuoteBody(s, q).1 && QuoteBody(s, q).0 < |s|
    ensures QuoteBody(s + y, q) == QuoteBody(s, q)
  {
    if s[0] != q {
      assert (s + y)[1..] == s[1..] + y;
      QuoteMore(s[1..], y, q);
    } else if s[1] == q {
      assert (s + y)[2..] == s[2..] + y;
      QuoteMore(s[2..], y, q);
    }
  }

  lemma {:induction false} DollarMore(s: string, y: string, tag: string)
    requires tag != "" && DollarBody(s, tag).1
    ensures DollarBody(s + y, tag) == DollarBody(s, tag)
  {
    var t := s + y;
    if tag <= s {
      assert tag <= t;
    } else {
      assert t[1..] == s[1..] + y;
      DollarMore(s[1..], y, tag);
      DollarBodyIsLong(s[1..], tag);
      TagFits(s, y, tag);
    }
  }

  lemma TagFits(s: string, y: string, tag: string)
    requires |tag| <= |s|
    ensures tag <= s + y <==> tag <= s
  {
    assert (s + y)[..|tag|] == s[..|tag|];
  }

  lemma {:induction false} DollarBodyIsLong(s: string, tag: string)
    requires tag != ""
    ensures DollarBody(s, tag).1 ==> |tag| <= |s|
  {
    if s != "" {
      DollarBodyIsLong(s[1..], tag);
    }
  }

  /** A tag cannot begin before white space and end after it. */
  lemma {:induction false} TagTailMore(s: string, y: string)
    requires s != "" && IsSpace(s[|s| - 1])
    ensures TagTail(s + y) == TagTail(s)
  {
    var t := s + y;
    assert t[0] == s[0];
    if |s| > 1 {
      assert t[1..] == s[1..] + y;
      TagTailMore(s[1..], y);
    }
  }

  /** The tokens of a joinable statement that a newline follows, whatever comes after. */
  lemma {:induction false} LexThenNewline(s: string, y: string)
    requires LineOrClosed(Lex(s))
    ensures Lex(s + "\n" + y) == Lex(s + "\n") + Lex(y)
    decreases |s|
  {
    hide FirstToken;
    var t, u := s + "\n" + y, s + "\n";
    if s == "" {
      SpaceIsPlain('\n', y);
      SpaceIsPlain('\n', "");
      assert t == ['\n'] + y && u == ['\n'] + "";
      assert Lex("") == [] && [Token(Plain, "\n", true)] + [] + Lex(y) == [Token(Plain, "\n", true)] + Lex(y);
    } else {
      var (kind, n, closed) := FirstToken(s);
      assert Lex(s)[0] == Token(kind, s[..n], closed);
      TokenThenNewline(s, y);
      TokenThenNewline(s, "");
      assert u + "" == u;
      if closed {
        assert t[..n] == u[..n] && t[n..] == s[n..] + "\n" + y && u[n..] == s[n..] + "\n";
        assert LineOrClosed(Lex(s[n..])) by {
          assert Lex(s)[1..] == Lex(s[n..]);
          forall k | 0 <= k < |Lex(s[n..])| && !Lex(s[n..])[k].closed ensures Lex(s[n..])[k].kind == LineComment {
            assert Lex(s)[k + 1] == Lex(s[n..])[k];
          }
        }
        LexThenNewline(s[n..], y);
        LexStep(t, kind, n, true);
        LexStep(u, kind, n, true);
        RegroupFront(Token(kind, u[..n], true), Lex(u[n..]), Lex(y));
      } else {
        var m := |s| + 1;
        assert t[..m] == u[..m] == u && t[m..] == y && u[m..] == "";
        LexStep(t, LineComment, m, true);
        LexStep(u, LineComment, m, true);
        assert Lex("") == [];
        RegroupFront(Token(LineComment, u, true), [], Lex(y));
        assert [] + Lex(y) == Lex(y);
      }
    }
  }

  lemma RegroupFront<T>(x: T, a: seq<T>, b: seq<T>)
    ensures [x] + a + b == [x] + (a + b)
  {
  }

  lemma {:induction false} StatementsAppend(a: seq<seq<Token>>, b: seq<seq<Token>>, keepSlash: bool)
    ensures Statements(a + b, keepSlash) == Statements(a, keepSlash) + Statements(b, keepSlash)
  {
    hide Emit, Strip, Rendered;
    if b == [] {
      assert a + b == a;
    } else {
      var n := |b| - 1;
      assert (a + b)[..|a + b| - 1] == a + b[..n];
      StatementsAppend(a, b[..n], keepSlash);
    }
  }

  /** Leading white space in front of the tokens only reaches the first segment. */
  lemma {:induction false} SegmentsAfter(t: Token, ts: seq<Token>)
    requires t.kind != Semicolon
    ensures Segments([t] + ts) == [[t] + Segments(ts)[0]] + Segments(ts)[1..]
  {
    hide Segments, Extend;
    var all := [t] + ts;
    if ts == [] {
      assert all == [] + [t];
      SegmentsPush([], t);
      FirstSegment(t);
      assert [t] + [] == [t];
    } else {
      var n := |ts| - 1;
      SegmentsAfter(t, ts[..n]);
      assert all == [t] + ts[..n] + [ts[n]] && ts == ts[..n] + [ts[n]];
      SegmentsPush([t] + ts[..n], ts[n]);
      SegmentsPush(ts[..n], ts[n]);
      ExtendFront(t, Segments(ts[..n]), ts[n]);
    }
  }

  lemma FirstSegment(t: Token)
    requires t.kind != Semicolon
    ensures Segments([]) == [[]] && Extend([[]], t) == [[t]]
  {
    var none: seq<Token> := [];
    assert [none][..0] == [] && none + [t] == [t];
  }

  lemma ExtendFront(t: Token, segments: seq<seq<Token>>, x: Token)
    requires segments != []
    ensures Extend([[t] + segments[0]] + segments[1..], x) == [[t] + Extend(segments, x)[0]] + Extend(segments, x)[1..]
  {
    var n := |segments| - 1;
    var front := [[t] + segments[0]] + segments[1..];
    if x.kind == Semicolon {
      assert (segments + [[]])[1..] == segments[1..] + [[]];
    } else if n == 0 {
      assert front[..0] == [] && segments[..0] == [];
      assert [t] + segments[0] + [x] == [t] + (segments[0] + [x]);
    } else {
      assert front[..n] == [[t] + segments[0]] + segments[..n][1..];
      assert front[n] == segments[n];
    }
  }

  /** White space in front of a script changes nothing. */
  lemma LeadingSpace(c: char, sql: string)
    requires IsSpace(c)
    ensures Split([c] + sql, true) == Split(sql, true)
  {
    hide IsSpace, Lex, Segments, Emit, Strip, Rendered;
    SpaceIsPlain(c, sql);
    var t := Token(Plain, [c], true);
    var segments := Segments(Lex(sql));
    SegmentsAfter(t, Lex(sql));
    StatementsAppend([segments[0]], segments[1..], true);
    StatementsAppend([[t] + segments[0]], segments[1..], true);
    assert segments == [segments[0]] + segments[1..];
    OneStatement(segments[0]);
    OneStatement([t] + segments[0]);
    RenderedIsText(segments[0]);
    RenderedIsText([t] + segments[0]);
    TextAppend([t], segments[0]);
    assert Text([t]) == [c] by { assert [t][..0] == []; }
    StripDropsSpace(c, Text(segments[0]));
  }

  lemma OneStatement(segment: seq<Token>)
    ensures Statements([segment], true) == Emit(Strip(Rendered(segment, true)))
  {
    assert [segment][..0] == [];
  }

  /** One joinable statement, the separator, and the rest. */
  lemma SplitFirst(stmt: string, rest: string)
    requires Joinable(stmt)
    ensures Split(stmt + SEPARATOR + rest, true) == [stmt] + Split(rest, true)
    ensures ClosedBlocks(Lex(stmt + SEPARATOR + rest)) == ClosedBlocks(Lex(stmt)) + ClosedBlocks(Lex(rest))
  {
    hide Lex, Segments, Emit, Strip, Rendered, IsSpace, Count, ClosedBlocks;
    var semi := Token(Semicolon, ";", true);
    var front := Lex(stmt + "\n");
    var tail := "\n" + rest;
    assert stmt + SEPARATOR + rest == stmt + "\n" + (";" + tail);
    LexThenNewline(stmt, ";" + tail);
    LexSemicolon(tail);
    assert front + ([semi] + Lex(tail)) == front + [semi] + Lex(tail);
    NewlineIsSpace();
    TrailingSpaceCounts(stmt, '\n');
    SegmentsAtSemicolon(front, semi, Lex(tail));
    OneSegment(front);
    StatementsAppend([front], Segments(Lex(tail)), true);
    OneStatement(front);
    RenderedIsText(front);
    LexLossless(stmt + "\n");
    StripAfter(stmt, '\n');
    EmitOne(stmt);
    LeadingSpace('\n', rest);
    CountAppend(front + [semi], Lex(tail), Semicolon);
    CountAppend(front, [semi], Semicolon);
    SingleCounts(semi);
    SpaceIsPlain('\n', rest);
    SingleCounts(Token(Plain, "\n", true));
    CountAppend([Token(Plain, "\n", true)], Lex(rest), Semicolon);
  }

  lemma NewlineIsSpace()
    ensures IsSpace('\n')
  {
  }

  lemma EmitOne(stmt: string)
    requires stmt != ""
    ensures Emit(stmt) == [stmt]
  {
  }

  lemma LexSemicolon(y: string)
    ensures Lex(";" + y) == [Token(Semicolon, ";", true)] + Lex(y)
  {
    var t := ";" + y;
    assert t[..1] == ";" && t[1..] == y;
    LexStep(t, Semicolon, 1, true);
  }

  /** A list of joinable statements joined by newline-semicolon-newline splits back into the list, even
      when a statement ends in a line comment; the loop as written returns the list exactly when no
      statement has a closed block comment. */
  lemma {:induction false} JoinedSplitsBack(statements: seq<string>)
    requires forall k :: 0 <= k < |statements| ==> Joinable(statements[k])
    ensures Split(Join(statements), true) == statements
    ensures Split(Join(statements), false) == statements <==> ClosedBlocksOf(statements) == 0
  {
    hide Lex, Split, Joinable, ClosedBlocks;
    JoinedBlocks(statements);
    DropsNothingIffNoClosedBlock(Join(statements));
    if statements == [] {
      SplitNothing();
    } else if |statements| == 1 {
      JoinableIsFixed(statements[0]);
    } else {
      SplitFirst(statements[0], Join(statements[1..]));
      JoinedSplitsBack(statements[1..]);
      assert statements == [statements[0]] + statements[1..];
    }
  }

  lemma SplitNothing()
    ensures Split("", true) == []
  {
    var none: seq<Token> := [];
    assert Segments([]) == [none] && [none][..0] == [];
  }

  lemma JoinableIsFixed(stmt: string)
    requires Joinable(stmt)
    ensures Split(stmt, true) == [stmt]
  {
    FixedPointIff(stmt, true);
  }

  lemma {:induction false} JoinedBlocks(statements: seq<string>)
    requires forall k :: 0 <= k < |statements| ==> Joinable(statements[k])
    ensures ClosedBlocks(Lex(Join(statements))) == ClosedBlocksOf(statements)
  {
    hide Lex, Joinable, ClosedBlocks;
    if statements == [] {
      EmptyCounts();
    } else if |statements| == 1 {
      assert ClosedBlocksOf(statements[1..]) == 0;
    } else {
      SplitFirst(statements[0], Join(statements[1..]));
      JoinedBlocks(statements[1..]);
    }
  }

  lemma EmptyCounts()
    ensures ClosedBlocks(Lex("")) == 0
  {
  }

  // ----- the loop as written, run again on what it emitted -------------------------------------------------

  lemma {:induction false} RenderedAppend(a: seq<Token>, b: seq<Token>, keepSlash: bool)
    ensures Rendered(a + b, keepSlash) == Rendered(a, keepSlash) + Rendered(b, keepSlash)
  {
    hide Piece;
    if b == [] {
      assert a + b == a;
    } else {
      assert (a + b)[..|a + b| - 1] == a + b[..|b| - 1];
      RenderedAppend(a, b[..|b| - 1], keepSlash);
    }
  }

  /** A run that is what its own text lexes to, taken apart at its first token. */
  lemma RunFront(run: seq<Token>)
    requires run != [] && Lex(Text(run)) == run
    ensures Text(run) == run[0].text + Text(run[1..])
    ensures Rendered(run, false) == Piece(run[0], false) + Rendered(run[1..], false)
    ensures run[0].text != "" && FirstToken(Text(run)) == (run[0].kind, |run[0].text|, run[0].closed)
    ensures Lex(Text(run[1..])) == run[1..]
    ensures IsClosedBlock(run[0]) ==> |run[0].text| >= 4
  {
    hide FirstToken, Piece;
    assert run == [run[0]] + run[1..] && [run[0]][..0] == [];
    TextAppend([run[0]], run[1..]);
    RenderedAppend([run[0]], run[1..], false);
    assert Text([run[0]]) == run[0].text && Rendered([run[0]], false) == Piece(run[0], false);
    assert Text(run) != "";
    LexSpelled(Text(run));
    assert run[0] in run;
    var (kind, n, closed) := FirstToken(Text(run));
    assert Lex(Text(run))[1..] == Lex(Text(run)[n..]);
    assert Text(run)[n..] == Text(run[1..]);
  }

  lemma PieceHead(t: Token)
    requires t.text != "" && (IsClosedBlock(t) ==> |t.text| >= 4)
    ensures Piece(t, false) != "" && Piece(t, false)[0] == t.text[0]
    ensures IsClosedBlock(t) ==> Piece(t, false)[1] == t.text[1] && |Piece(t, false)| >= 2
    ensures !IsClosedBlock(t) ==> Piece(t, false) == t.text
  {
  }

  lemma TagCharIsPlain(s: string)
    requires s != "" && IsTagChar(s[0])
    ensures FirstToken(s) == (Plain, 1, true)
  {
  }

  lemma TagTailStep(s: string, w: string)
    requires s != "" && w != "" && s[0] == w[0]
    requires IsTagChar(s[0]) ==> TagTail(s[1..]) == TagTail(w[1..])
    ensures TagTail(s) == TagTail(w)
  {
  }

  /** Dropping the slashes of closed block comments changes neither the first character of a run nor
      whether it starts with the rest of a dollar tag. */
  lemma {:induction false} WrittenHead(run: seq<Token>)
    requires Lex(Text(run)) == run
    ensures var w, s := Rendered(run, false), Text(run);
            (w == "" <==> s == "") && (s != "" ==> w[0] == s[0]) && TagTail(w) == TagTail(s)
    decreases |run|
  {
    hide Lex, FirstToken, Piece, TagTail, IsTagChar;
    if run != [] {
      RunFront(run);
      var w, s, t := Rendered(run, false), Text(run), run[0];
      PieceHead(t);
      assert w[0] == s[0] == t.text[0];
      if IsTagChar(s[0]) {
        TagCharIsPlain(s);
        assert s[1..] == Text(run[1..]) && w[1..] == Rendered(run[1..], false);
        WrittenHead(run[1..]);
      }
      TagTailStep(s, w);
    }
  }

  /** A token before the first closed block comment is still there in what the loop wrote. */
  lemma WrittenToken(run: seq<Token>)
    requires run != [] && Lex(Text(run)) == run && !IsClosedBlock(run[0])
    ensures Rendered(run, false) != "" && FirstToken(Rendered(run, false)) == FirstToken(Text(run))
  {
    hide Lex, FirstToken, Piece, TagTail, TagLen, Rendered, Text;
    RunFront(run);
    PieceHead(run[0]);
    WrittenHead(run[1..]);
    SameToken(Text(run), Rendered(run, false), |run[0].text|);
  }

  /** Two scripts that agree on a token, the next character and any dollar tag from there on. */
  lemma SameToken(s: string, w: string, n: nat)
    requires s != "" && w != "" && FirstToken(s).1 == n <= |w| && s[..n] == w[..n]
    requires s[n..] == "" <==> w[n..] == ""
    requires s[n..] != "" ==> s[n..][0] == w[n..][0] && TagTail(w[n..]) == TagTail(s[n..])
    ensures FirstToken(w) == FirstToken(s)
  {
    hide FirstToken, TagTail, TagLen;
    if |s| > n {
      var front := s[..n + 1];
      assert w[n] == s[n] && front == w[..n + 1] && front + w[n + 1..] == w;
      assert front[0] == s[0] == w[0];
      PrefixToken(s, n + 1);
      if s[0] == '$' {
        WrittenTag(s, w, n);
      }
      if !FirstToken(s).2 {
        OpenIsWhole(s);
        assert false;
      }
      TokenWithMore(front, w[n + 1..]);
    } else {
      assert s == s[..n] == w[..n] == w;
    }
  }

  lemma WrittenTag(s: string, w: string, n: nat)
    requires 1 <= n < |s| && n < |w| && s[..n + 1] == w[..n + 1] && s[0] == '$'
    requires FirstToken(s).1 == n && TagTail(s[n..]) == TagTail(w[n..])
    ensures TagLen(w) == TagLen(s[..n + 1])
  {
    assert w[0] == s[..n + 1][0] == '$';
    TagLenPrefix(s, n + 1);
    TagLenPrefix(w, n + 1);
    if TagLen(s).None? {
      assert n == 1 && w[1] == w[..n + 1][1] == s[1];
    }
  }

  /** If what the loop wrote for a run without semicolons has no closed block comment, it has no
      separating semicolon either. */
  lemma {:induction false} WrittenCounts(run: seq<Token>)
    requires Lex(Text(run)) == run && Count(run, Semicolon) == 0
    ensures var w := Rendered(run, false); ClosedBlocks(Lex(w)) == 0 ==> Count(Lex(w), Semicolon) == 0
    decreases |run|
  {
    hide FirstToken, Count, ClosedBlocks, Lex;
    SingleCounts(Token(Plain, "", true));
    var w := Rendered(run, false);
    if run == [] {
      assert Lex(w) == [] by { LexNothing(); }
    } else {
      var t := run[0];
      RunFront(run);
      assert run == [t] + run[1..];
      CountAppend([t], run[1..], Semicolon);
      SingleCounts(t);
      WrittenCounts(run[1..]);
      if IsClosedBlock(t) {
        if ClosedBlocks(Lex(w)) == 0 {
          PieceHead(t);
          BlockStarts(Text(run));
          assert w[0] == t.text[0] == Text(run)[0] && w[1] == t.text[1] == Text(run)[1];
          BlockIsOpen(w);
          SingleCounts(Token(BlockComment, w, false));
        }
      } else {
        WrittenToken(run);
        var n := |t.text|;
        assert w[..n] == t.text && w[n..] == Rendered(run[1..], false);
        LexStep(w, t.kind, n, t.closed);
        CountAppend([t], Lex(w[n..]), Semicolon);
      }
    }
  }

  lemma BlockStarts(s: string)
    requires s != "" && FirstToken(s).0 == BlockComment
    ensures |s| >= 2 && s[0] == '/' && s[1] == '*'
  {
  }

  lemma LexNothing()
    ensures Lex("") == []
  {
  }

  /** A script that opens a block comment and has no closed one is that comment. */
  lemma BlockIsOpen(w: string)
    requires |w| >= 2 && w[0] == '/' && w[1] == '*' && ClosedBlocks(Lex(w)) == 0
    ensures Lex(w) == [Token(BlockComment, w, false)]
  {
    hide ClosedBlocks, Lex;
    var (kind, n, closed) := FirstToken(w);
    var t := Token(BlockComment, w[..n], closed);
    LexStep(w, kind, n, closed);
    SingleCounts(t);
    CountAppend([t], Lex(w[n..]), Semicolon);
    assert !closed;
    OpenIsWhole(w);
    assert w[..n] == w && w[n..] == "";
    LexNothing();
  }

  /** For the loop as written, a statement it emitted splits into itself exactly when the dropped slashes
      have not left a closed block comment in it. */
  lemma WrittenFixedPointIff(sql: string)
    ensures forall stmt :: stmt in Split(sql, false) ==>
              (Split(stmt, false) == [stmt] <==> ClosedBlocks(Lex(stmt)) == 0)
  {
    hide Split, ClosedBlocks, Lex;
    forall stmt | stmt in Split(sql, false)
      ensures Split(stmt, false) == [stmt] <==> ClosedBlocks(Lex(stmt)) == 0
    {
      var j :| 0 <= j < |Split(sql, false)| && Split(sql, false)[j] == stmt;
      WrittenStatement(sql, j);
    }
  }

  lemma WrittenStatement(sql: string, j: nat)
    requires j < |Split(sql, false)|
    ensures var stmt := Split(sql, false)[j];
            Split(stmt, false) == [stmt] <==> ClosedBlocks(Lex(stmt)) == 0
  {
    hide Lex, Strip, Rendered, Segments, Statements, Count, ClosedBlocks;
    var segments := Segments(Lex(sql));
    var k := StatementOrigin(segments, false, j);
    SegmentIsStable(sql, k);
    SegmentsHaveNoSemicolon(Lex(sql));
    WrittenCounts(segments[k]);
    var written := Rendered(segments[k], false);
    StripTrims(written);
    StripCounts(written);
    FixedPointIff(Strip(written), false);
  }

  lemma LexShrunk()
    ensures Lex("/**/*/") == [Token(BlockComment, "/**/", true), Token(Plain, "*", true), Token(Plain, "/", true)]
  {
    hide Lex;
    var s := "/**/*/";
    assert s[2..] == "*/*/" && BlockBody("*/*/") == (2, true);
    LexStep(s, BlockComment, 4, true);
    assert s[..4] == "/**/" && s[4..] == "*/";
    LexStep("*/", Plain, 1, true);
    assert "*/"[..1] == "*" && "*/"[1..] == "/";
    LexStep("/", Plain, 1, true);
    assert "/"[..1] == "/" && "/"[1..] == "";
    LexNothing();
  }

  lemma LexStars()
    ensures Lex("/***/") == [Token(BlockComment, "/***/", true)]
  {
    hide Lex;
    var s := "/***/";
    assert s[2..] == "**/" && "**/"[1..] == "*/" && BlockBody("*/") == (2, true);
    LexStep(s, BlockComment, 5, true);
    assert s[..5] == s && s[5..] == "";
    LexNothing();
  }

  /** A script from which the loop as written emits a statement that it splits differently again: the slash it
      drops lets a later star and slash close the comment. */
  lemma EmittedIsNotFixed()
    ensures Split("/**/*/", false) == ["/***/"]
    ensures Split("/***/", false) != ["/***/"]
  {
    hide Lex, Strip, Split;
    LexShrunk();
    var ts := [Token(BlockComment, "/**/", true), Token(Plain, "*", true), Token(Plain, "/", true)];
    var two := ts[..2];
    var one := two[..1];
    assert one[..0] == [] && one[0].text[..3] == "/**";
    assert Count(two, Semicolon) == 0 by { assert Count(one, Semicolon) == 0; }
    assert Rendered(two, false) == "/***" by { assert Rendered(one, false) == "/**"; }
    SplitOne("/**/*/", false);
    assert Rendered(ts, false) == "/***/";
    StripTrims("/***/");
    LexStars();
    SingleCounts(Token(BlockComment, "/***/", true));
    FixedPointIff("/***/", false);
  }
}
