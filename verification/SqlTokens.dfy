/** Tokens do not depend on what surrounds them: cutting a script, and white space at its ends. */
module SqlTokens {
  import opened Strings
  import opened Wrappers
  import opened SqlLexer
  import opened SqlSplitter

  // ----- tokens do not depend on what follows ----------------------------------------------------------

  lemma {:induction false} TagTailPrefix(s: string, m: nat)
    requires m <= |s|
    ensures TagTail(s[..m]).Some? ==> TagTail(s) == TagTail(s[..m])
    ensures TagTail(s).Some? && TagTail(s).value <= m ==> TagTail(s[..m]) == TagTail(s)
  {
    if m > 0 && s[0] != '$' && IsTagChar(s[0]) {
      assert s[..m][1..] == s[1..][..m - 1];
      TagTailPrefix(s[1..], m - 1);
    }
  }

  lemma TagLenPrefix(s: string, m: nat)
    requires s != "" && s[0] == '$' && 1 <= m <= |s|
    ensures TagLen(s[..m]).Some? ==> TagLen(s) == TagLen(s[..m])
    ensures TagLen(s).Some? && TagLen(s).value <= m ==> TagLen(s[..m]) == TagLen(s)
  {
    assert s[..m][1..] == s[1..][..m - 1];
    TagTailPrefix(s[1..], m - 1);
  }

  lemma {:induction false} LineBodyPrefix(s: string, m: nat)
    requires m <= |s| && LineBody(s).1 && LineBody(s).0 <= m
    ensures LineBody(s[..m]) == LineBody(s)
  {
    if s[0] != '\n' {
      assert s[..m][1..] == s[1..][..m - 1];
      LineBodyPrefix(s[1..], m - 1);
    }
  }

  lemma {:induction false} BlockBodyPrefix(s: string, m: nat)
    requires m <= |s| && BlockBody(s).1 && BlockBody(s).0 <= m
    ensures BlockBody(s[..m]) == BlockBody(s)
  {
    if !(|s| >= 2 && s[0] == '*' && s[1] == '/') {
      assert s[..m][1..] == s[1..][..m - 1];
      BlockBodyPrefix(s[1..], m - 1);
    }
  }

  lemma {:induction false} QuoteBodyPrefix(s: string, q: char, m: nat)
    requires m <= |s| && QuoteBody(s, q).1 && QuoteBody(s, q).0 <= m
    ensures QuoteBody(s[..m], q) == QuoteBody(s, q)
  {
    if s[0] != q {
      assert s[..m][1..] == s[1..][..m - 1];
      QuoteBodyPrefix(s[1..], q, m - 1);
    } else if |s| >= 2 && s[1] == q {
      assert s[..m][2..] == s[2..][..m - 2];
      QuoteBodyPrefix(s[2..], q, m - 2);
    }
  }

  lemma {:induction false} DollarBodyPrefix(s: string, tag: string, m: nat)
    requires tag != "" && m <= |s| && DollarBody(s, tag).1 && DollarBody(s, tag).0 <= m
    ensures DollarBody(s[..m], tag) == DollarBody(s, tag)
  {
    if !(tag <= s) {
      assert !(tag <= s[..m]);
      assert s[..m][1..] == s[1..][..m - 1];
      DollarBodyPrefix(s[1..], tag, m - 1);
    } else {
      assert tag <= s[..m];
    }
  }

  /** An unterminated token is the rest of the script. */
  lemma {:induction false} OpenBodies(s: string, q: char, tag: string)
    requires tag != ""
    ensures !LineBody(s).1 ==> LineBody(s).0 == |s|
    ensures !BlockBody(s).1 ==> BlockBody(s).0 == |s|
    ensures !DollarBody(s, tag).1 ==> DollarBody(s, tag).0 == |s|
    ensures !QuoteBody(s, q).1 ==> QuoteBody(s, q).0 == |s|
  {
    if s != "" {
      OpenBodies(s[1..], q, tag);
      if |s| >= 2 {
        OpenBodies(s[2..], q, tag);
      }
    }
  }

  lemma OpenIsWhole(s: string)
    requires s != "" && !FirstToken(s).2
    ensures FirstToken(s).1 == |s|
  {
    if s[0] == '$' && TagLen(s).Some? {
      OpenBodies(s[TagLen(s).value..], 'q', s[..TagLen(s).value]);
    } else {
      OpenBodies(s[1..], s[0], "t");
      if |s| >= 2 {
        OpenBodies(s[2..], s[0], "t");
      }
    }
  }

  /** Cutting the script at or after the end of its first token does not change that token. */
  lemma PrefixToken(s: string, m: nat)
    requires s != "" && FirstToken(s).1 <= m <= |s|
    ensures FirstToken(s[..m]) == FirstToken(s)
  {
    if !FirstToken(s).2 {
      OpenIsWhole(s);
      assert s[..m] == s;
    } else {
      var p := s[..m];
      if |s| >= 2 && s[0] == '-' && s[1] == '-' {
        assert p[2..] == s[2..][..m - 2];
        LineBodyPrefix(s[2..], m - 2);
      } else if |s| >= 2 && s[0] == '/' && s[1] == '*' {
        assert p[2..] == s[2..][..m - 2];
        BlockBodyPrefix(s[2..], m - 2);
      } else if s[0] == '\'' || s[0] == '"' {
        assert p[1..] == s[1..][..m - 1];
        QuoteBodyPrefix(s[1..], s[0], m - 1);
      } else if s[0] == '$' {
        TagLenPrefix(s, m);
        if TagLen(s).Some? {
          var k := TagLen(s).value;
          assert p[k..] == s[k..][..m - k] && p[..k] == s[..k];
          DollarBodyPrefix(s[k..], s[..k], m - k);
        }
      }
    }
  }

  /** Any run of a script's tokens, written out alone, lexes to the same run. */
  lemma {:induction false} RunIsStable(s: string, a: seq<Token>, run: seq<Token>, b: seq<Token>)
    requires Lex(s) == a + run + b
    ensures Lex(Text(run)) == run
    decreases |a| + |run|
  {
    hide FirstToken;
    if a == [] {
      FrontIsStable(s, run, b);
    } else {
      var (kind, n, closed) := FirstToken(s);
      assert Lex(s[n..]) == a[1..] + run + b by {
        assert Lex(s)[1..] == Lex(s[n..]);
        assert (a + run + b)[1..] == a[1..] + run + b;
      }
      RunIsStable(s[n..], a[1..], run, b);
    }
  }

  lemma {:induction false} FrontIsStable(s: string, run: seq<Token>, b: seq<Token>)
    requires Lex(s) == run + b
    ensures Lex(Text(run)) == run
    decreases |run|
  {
    hide FirstToken;
    if run != [] {
      var (kind, n, closed) := FirstToken(s);
      var first := [Token(kind, s[..n], closed)];
      assert Lex(s)[1..] == Lex(s[n..]) && (run + b)[1..] == run[1..] + b;
      FrontIsStable(s[n..], run[1..], b);
      assert run == first + run[1..];
      TextAppend(first, run[1..]);
      assert Text(first) == s[..n] by { assert first[..0] == []; }
      LexLossless(s);
      TextAppend(run, b);
      var text := Text(run);
      assert text == s[..|text|] && n <= |text|;
      PrefixToken(s, |text|);
      assert text[..n] == s[..n] && text[n..] == Text(run[1..]);
      LexStep(text, kind, n, closed);
    }
  }

  /** A segment is a run of the script's tokens. */
  lemma {:induction false} SegmentIsRun(ts: seq<Token>, k: nat) returns (a: seq<Token>, b: seq<Token>)
    requires k < |Segments(ts)|
    ensures ts == a + Segments(ts)[k] + b
    ensures k == |Segments(ts)| - 1 ==> b == []
  {
    hide Segments, Extend;
    if ts == [] {
      NoTokens();
      return [], [];
    }
    var n := |ts| - 1;
    var before, t := Segments(ts[..n]), ts[n];
    assert ts == ts[..n] + [t];
    SegmentsPush(ts[..n], t);
    ExtendAt(before, t, k);
    if k == |before| {
      a, b := ts, [];
    } else {
      a, b := SegmentIsRun(ts[..n], k);
      if k == |before| - 1 && t.kind != Semicolon {
        assert ts == a + (before[k] + [t]) + [];
      } else {
        assert ts == a + before[k] + (b + [t]);
        b := b + [t];
      }
    }
  }

  lemma NoTokens()
    ensures Segments([]) == [[]]
  {
  }

  /** Each segment after one more token. */
  lemma ExtendAt(segments: seq<seq<Token>>, t: Token, k: nat)
    requires segments != [] && k < |Extend(segments, t)|
    ensures |Extend(segments, t)| == |segments| + if t.kind == Semicolon then 1 else 0
    ensures Extend(segments, t)[k] ==
              if k == |segments| then []
              else if k == |segments| - 1 && t.kind != Semicolon then segments[k] + [t]
              else segments[k]
  {
  }

  lemma SegmentIsStable(sql: string, k: nat)
    requires k < |Segments(Lex(sql))|
    ensures Lex(Text(Segments(Lex(sql))[k])) == Segments(Lex(sql))[k]
  {
    var a, b := SegmentIsRun(Lex(sql), k);
    RunIsStable(sql, a, Segments(Lex(sql))[k], b);
  }

  // ----- trimming does not change what is inside -------------------------------------------------------

  // The body of a terminated token does not look past a white-space character, and an unterminated one
  // swallows it.

  lemma {:induction false} LineThenSpace(s: string, c: char)
    ensures LineBody(s + [c]) == if LineBody(s).1 then LineBody(s) else (|s| + 1, c == '\n')
  {
    if s == "" {
      assert (s + [c])[1..] == "";
    } else {
      assert (s + [c])[1..] == s[1..] + [c];
      LineThenSpace(s[1..], c);
    }
  }

  lemma {:induction false} BlockThenSpace(s: string, c: char)
    requires c != '/'
    ensures BlockBody(s + [c]) == if BlockBody(s).1 then BlockBody(s) else (|s| + 1, false)
  {
    if s == "" {
      assert (s + [c])[1..] == "";
    } else {
      assert (s + [c])[1..] == s[1..] + [c];
      BlockThenSpace(s[1..], c);
    }
  }

  lemma {:induction false} QuoteThenSpace(s: string, c: char, q: char)
    requires c != q
    ensures QuoteBody(s + [c], q) == if QuoteBody(s, q).1 then QuoteBody(s, q) else (|s| + 1, false)
  {
    var t := s + [c];
    if s == "" {
      assert t[1..] == "";
    } else if s[0] != q {
      assert t[1..] == s[1..] + [c];
      QuoteThenSpace(s[1..], c, q);
    } else if |s| >= 2 && s[1] == q {
      assert t[2..] == s[2..] + [c];
      QuoteThenSpace(s[2..], c, q);
    }
  }

  lemma StartsWithTag(s: string, c: char, tag: string)
    requires tag != "" && tag[|tag| - 1] != c
    ensures tag <= s + [c] <==> tag <= s
  {
    var t := s + [c];
    if tag <= t {
      assert |tag| == |t| ==> tag == t;
      assert tag == t[..|tag|] == s[..|tag|];
    }
  }

  lemma {:induction false} DollarThenSpace(s: string, c: char, tag: string)
    requires tag != "" && tag[|tag| - 1] != c
    ensures DollarBody(s + [c], tag) == if DollarBody(s, tag).1 then DollarBody(s, tag) else (|s| + 1, false)
  {
    var t := s + [c];
    StartsWithTag(s, c, tag);
    if s == "" {
      assert t[1..] == "";
      assert DollarBody("", tag) == (0, false);
    } else if !(tag <= s) {
      assert t[1..] == s[1..] + [c];
      DollarThenSpace(s[1..], c, tag);
    }
  }

  lemma {:induction false} TagTailEnds(s: string)
    requires TagTail(s).Some?
    ensures s[TagTail(s).value - 1] == '$'
  {
    if s[0] != '$' {
      TagTailEnds(s[1..]);
    }
  }

  lemma {:induction false} TagTailThenSpace(s: string, c: char)
    requires IsSpace(c)
    ensures TagTail(s + [c]) == TagTail(s)
  {
    var t := s + [c];
    if s == "" {
      assert t[0] == c;
    } else {
      assert t[1..] == s[1..] + [c];
      TagTailThenSpace(s[1..], c);
    }
  }

  lemma TagLenThenSpace(s: string, c: char)
    requires IsSpace(c) && s != "" && s[0] == '$'
    ensures TagLen(s + [c]) == TagLen(s)
    ensures TagLen(s).Some? ==> s[TagLen(s).value - 1] == '$'
  {
    var t := s + [c];
    assert t[1..] == s[1..] + [c];
    TagTailThenSpace(s[1..], c);
    if TagTail(s[1..]).Some? {
      TagTailEnds(s[1..]);
    }
    if |s| == 1 {
      assert t[1] == c;
    }
  }

  /** A white-space character after the script: its first token keeps its end, or swallows the character. */
  lemma TokenThenSpace(s: string, c: char)
    requires s != "" && IsSpace(c)
    ensures var (kind, n, closed) := FirstToken(s);
            FirstToken(s + [c]) == if closed then (kind, n, true) else (kind, |s| + 1, kind == LineComment && c == '\n')
  {
    hide IsSpace;
    SpaceIsNotSyntax(c);
    var t := s + [c];
    assert t[0] == s[0] && t[1..] == s[1..] + [c];
    if |s| >= 2 {
      assert t[1] == s[1] && t[2..] == s[2..] + [c];
    }
    if |s| >= 2 && s[0] == '-' && s[1] == '-' {
      LineThenSpace(s[2..], c);
    } else if |s| >= 2 && s[0] == '/' && s[1] == '*' {
      BlockThenSpace(s[2..], c);
    } else if s[0] == '\'' || s[0] == '"' {
      QuoteThenSpace(s[1..], c, s[0]);
    } else if s[0] == '$' {
      TagLenThenSpace(s, c);
      if TagLen(s).Some? {
        var k := TagLen(s).value;
        assert t[k..] == s[k..] + [c] && t[..k] == s[..k];
        DollarThenSpace(s[k..], c, s[..k]);
      }
    }
  }

  lemma SpaceIsNotSyntax(c: char)
    requires IsSpace(c)
    ensures c !in "-/*'\"$;" && !IsTagChar(c)
  {
  }

  lemma SpaceIsPlain(c: char, s: string)
    requires IsSpace(c)
    ensures Lex([c] + s) == [Token(Plain, [c], true)] + Lex(s)
  {
    var t := [c] + s;
    assert t[..1] == [c] && t[1..] == s;
    LexStep(t, Plain, 1, true);
  }

  /** The counts the splitter's results depend on. */
  ghost predicate SameCounts(a: seq<Token>, b: seq<Token>) {
    Count(a, Semicolon) == Count(b, Semicolon) && ClosedBlocks(a) == ClosedBlocks(b)
  }

  lemma SingleCounts(t: Token)
    ensures Count([t], Semicolon) == (if t.kind == Semicolon then 1 else 0)
    ensures ClosedBlocks([t]) == if IsClosedBlock(t) then 1 else 0
    ensures Count([], Semicolon) == 0 && ClosedBlocks([]) == 0
  {
    assert [t][..0] == [];
  }

  lemma {:induction false} TrailingSpaceCounts(s: string, c: char)
    requires IsSpace(c)
    ensures SameCounts(Lex(s + [c]), Lex(s))
    decreases |s|
  {
    hide IsSpace, FirstToken, Count, ClosedBlocks;
    var t := s + [c];
    if s == "" {
      SpaceIsPlain(c, s);
      var space := Token(Plain, [c], true);
      SingleCounts(space);
      assert t == [c] + s && Lex(s) == [] && [space] + [] == [space];
    } else {
      var (kind, n, closed) := FirstToken(s);
      TokenThenSpace(s, c);
      var was := Token(kind, s[..n], closed);
      SingleCounts(was);
      CountAppend([was], Lex(s[n..]), Semicolon);
      if closed {
        assert t[..n] == s[..n] && t[n..] == s[n..] + [c];
        LexStep(t, kind, n, true);
        TrailingSpaceCounts(s[n..], c);
        CountAppend([was], Lex(t[n..]), Semicolon);
      } else {
        OpenIsWhole(s);
        OpenKind(s);
        var now := Token(kind, t, kind == LineComment && c == '\n');
        assert t[..|t|] == t && t[|t|..] == "" && s[n..] == "";
        LexStep(t, kind, |t|, now.closed);
        SingleCounts(now);
        assert Lex("") == [];
        assert [now] + [] == [now] && [was] + [] == [was];
      }
    }
  }

  lemma OpenKind(s: string)
    requires s != "" && !FirstToken(s).2
    ensures FirstToken(s).0 != Semicolon && FirstToken(s).0 != Plain
  {
  }

  lemma {:induction false} StripLeftCounts(s: string)
    ensures SameCounts(Lex(StripLeft(s)), Lex(s))
  {
    hide IsSpace, FirstToken, Count, ClosedBlocks, Lex;
    if s != "" && IsSpace(s[0]) {
      assert s == [s[0]] + s[1..];
      SpaceIsPlain(s[0], s[1..]);
      var t := Token(Plain, [s[0]], true);
      SingleCounts(t);
      CountAppend([t], Lex(s[1..]), Semicolon);
      StripLeftCounts(s[1..]);
    }
  }

  lemma {:induction false} StripRightCounts(s: string)
    ensures SameCounts(Lex(StripRight(s)), Lex(s))
  {
    hide IsSpace, FirstToken, Count, ClosedBlocks, Lex;
    if s != "" && IsSpace(s[|s| - 1]) {
      var n := |s| - 1;
      assert s == s[..n] + [s[n]];
      TrailingSpaceCounts(s[..n], s[n]);
      StripRightCounts(s[..n]);
    }
  }
}
