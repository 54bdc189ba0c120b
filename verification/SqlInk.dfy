/** Conservation of visible characters: what a split keeps and what the loop as written drops. */
module SqlInk {
  import opened Strings
  import opened Wrappers
  import opened SqlLexer
  import opened SqlSplitter

  /** Number of characters that are not white space. */
  function Ink(s: string): nat {
    if s == "" then 0 else Ink(s[..|s| - 1]) + if IsSpace(s[|s| - 1]) then 0 else 1
  }

  function InkOf(statements: seq<string>): nat {
    if statements == [] then 0 else InkOf(statements[..|statements| - 1]) + Ink(statements[|statements| - 1])
  }

  lemma {:induction false} InkAppend(a: string, b: string)
    ensures Ink(a + b) == Ink(a) + Ink(b)
  {
    hide IsSpace;
    if b == "" {
      assert a + b == a;
    } else {
      assert (a + b)[..|a + b| - 1] == a + b[..|b| - 1];
      InkAppend(a, b[..|b| - 1]);
    }
  }

  lemma {:induction false} InkStripLeft(s: string)
    ensures Ink(StripLeft(s)) == Ink(s)
  {
    hide IsSpace;
    if s != "" && IsSpace(s[0]) {
      InkStripLeft(s[1..]);
      InkAppend([s[0]], s[1..]);
      assert s == [s[0]] + s[1..] && [s[0]][..0] == "";
    }
  }

  lemma {:induction false} InkStripRight(s: string)
    ensures Ink(StripRight(s)) == Ink(s)
  {
    hide IsSpace;
    if s != "" && IsSpace(s[|s| - 1]) {
      InkStripRight(s[..|s| - 1]);
    }
  }

  lemma InkEmitted(statements: seq<string>, stmt: string)
    ensures InkOf(statements + Emit(Strip(stmt))) == InkOf(statements) + Ink(stmt)
  {
    InkStripLeft(stmt);
    InkStripRight(StripLeft(stmt));
    var kept := Strip(stmt);
    assert kept != "" ==> (statements + [kept])[..|statements|] == statements;
    assert statements + [] == statements;
  }

  /** What Lex guarantees of the tokens the counts depend on. */
  ghost predicate Spelled(ts: seq<Token>) {
    forall t :: t in ts ==>
      && (IsClosedBlock(t) ==> |t.text| >= 4 && t.text[|t.text| - 1] == '/')
      && (t.kind == Semicolon ==> t.text == ";")
  }

  lemma {:induction false} BlockBodyEnds(s: string)
    requires BlockBody(s).1
    ensures BlockBody(s).0 >= 2 && s[BlockBody(s).0 - 1] == '/'
  {
    if !(|s| >= 2 && s[0] == '*' && s[1] == '/') {
      BlockBodyEnds(s[1..]);
    }
  }

  lemma {:induction false} LexSpelled(s: string)
    ensures Spelled(Lex(s))
    decreases |s|
  {
    if s != "" {
      var (kind, n, closed) := FirstToken(s);
      LexSpelled(s[n..]);
      if kind == BlockComment && closed {
        BlockBodyEnds(s[2..]);
      }
    }
  }

  lemma InkPiece(t: Token, keepSlash: bool)
    requires IsClosedBlock(t) ==> |t.text| >= 4 && t.text[|t.text| - 1] == '/'
    ensures Ink(t.text) == Ink(Piece(t, keepSlash)) + if IsClosedBlock(t) && !keepSlash then 1 else 0
  {
  }

  /** Ink of what the loop has produced after the tokens ts. */
  lemma {:induction false} InkProduced(ts: seq<Token>, keepSlash: bool)
    requires Spelled(ts)
    ensures var (statements, buf) := Output(ts, keepSlash);
            InkOf(statements) + Ink(buf) + Count(ts, Semicolon) + (if keepSlash then 0 else ClosedBlocks(ts)) == Ink(Text(ts))
  {
    hide Output, Strip, Piece, Emit, IsSpace;
    if ts == [] {
      NothingYet(keepSlash);
    } else {
      var n := |ts| - 1;
      InkProduced(ts[..n], keepSlash);
      assert ts[..n] + [ts[n]] == ts;
      var (statements, buf) := Output(ts[..n], keepSlash);
      OutputStep(ts[..n], ts[n], keepSlash);
      InkAppend(Text(ts[..n]), ts[n].text);
      assert ts[n] in ts;
      if ts[n].kind == Semicolon {
        InkEmitted(statements, buf);
        assert Ink(";") == 1 by { assert ";"[..0] == ""; SemicolonIsInk(); }
      } else {
        InkPiece(ts[n], keepSlash);
        InkAppend(buf, Piece(ts[n], keepSlash));
      }
    }
  }

  lemma NothingYet(keepSlash: bool)
    ensures Output([], keepSlash) == ([], "")
  {
  }

  lemma SemicolonIsInk()
    ensures !IsSpace(';')
  {
  }

  lemma SplitIsOutput(sql: string, keepSlash: bool)
    ensures var (statements, buf) := Output(Lex(sql), keepSlash);
            Split(sql, keepSlash) == statements + Emit(Strip(buf))
  {
    hide Emit, Strip, Lex;
  }

  /** The splitter loses exactly white space around statements, the separating semicolons and, as it is
      written, one character per closed block comment. */
  lemma InkOfSplit(sql: string, keepSlash: bool)
    ensures InkOf(Split(sql, keepSlash)) + Count(Lex(sql), Semicolon) + (if keepSlash then 0 else ClosedBlocks(Lex(sql)))
            == Ink(sql)
  {
    hide Output, Strip, Emit, Split, Lex;
    LexSpelled(sql);
    LexLossless(sql);
    InkProduced(Lex(sql), keepSlash);
    SplitIsOutput(sql, keepSlash);
    var (statements, buf) := Output(Lex(sql), keepSlash);
    InkEmitted(statements, buf);
  }

  lemma {:induction false} SameWithoutBlocks(ts: seq<Token>)
    requires ClosedBlocks(ts) == 0
    ensures Output(ts, false) == Output(ts, true)
  {
    hide Output, Strip, Emit;
    if ts == [] {
      NothingYet(false);
      NothingYet(true);
    } else {
      var n := |ts| - 1;
      assert ts[..n] + [ts[n]] == ts;
      SameWithoutBlocks(ts[..n]);
      OutputStep(ts[..n], ts[n], false);
      OutputStep(ts[..n], ts[n], true);
    }
  }

  /** The loop as written produces what the loop that keeps both characters produces exactly when the
      script has no closed block comment. */
  lemma DropsNothingIffNoClosedBlock(sql: string)
    ensures Split(sql, false) == Split(sql, true) <==> ClosedBlocks(Lex(sql)) == 0
  {
    hide Output, Strip, Emit, Split, Lex;
    InkOfSplit(sql, false);
    InkOfSplit(sql, true);
    if ClosedBlocks(Lex(sql)) == 0 {
      SameWithoutBlocks(Lex(sql));
      SplitIsOutput(sql, false);
      SplitIsOutput(sql, true);
    }
  }

  lemma LexBlock()
    ensures Lex("/**/") == [Token(BlockComment, "/**/", true)]
  {
    var s := "/**/";
    assert s[2..] == "*/";
    assert FirstToken(s) == (BlockComment, 4, true);
    assert s[..4] == s && s[4..] == "";
    LexStep(s, BlockComment, 4, true);
  }

  lemma SplitOne(sql: string, keepSlash: bool)
    requires Count(Lex(sql), Semicolon) == 0
    ensures Split(sql, keepSlash) == Emit(Strip(Rendered(Lex(sql), keepSlash)))
  {
    hide Lex, Emit, Strip, Rendered;
    OneSegment(Lex(sql));
    var one := [Lex(sql)];
    var stmt := Emit(Strip(Rendered(Lex(sql), keepSlash)));
    assert one[..0] == [] && one[0] == Lex(sql);
    assert Statements(one, keepSlash) == Statements(one[..0], keepSlash) + stmt == stmt;
  }

  /** The smallest script on which the loop as written loses a character. */
  lemma DroppedSlash()
    ensures Split("/**/", false) == ["/**"] && Split("/**/", true) == ["/**/"]
  {
    hide Lex, Strip, Split;
    LexBlock();
    var t := Token(BlockComment, "/**/", true);
    assert [t][..0] == [];
    SplitOne("/**/", false);
    SplitOne("/**/", true);
    assert t.text[..3] == "/**";
    assert Rendered([t], false) == "/**" && Rendered([t], true) == "/**/";
    StripTrims("/**");
    StripTrims("/**/");
  }
}
