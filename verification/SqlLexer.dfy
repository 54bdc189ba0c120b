/** A recursive lexical grammar for migration scripts: sections 4.1.2.1 (string constants),
    4.1.2.4 (dollar quoting) and 4.1.5 (comments) of the PostgreSQL manual, without nested comments
    and without E-strings. It is independent of the splitter's loop. */
module SqlLexer {
  import opened Strings
  import opened Wrappers

  datatype Kind = LineComment | BlockComment | Quoted | Dollar | Semicolon | Plain

  /** `closed` is false only for a comment or quotation that runs into the end of the script. */
  datatype Token = Token(kind: Kind, text: string, closed: bool)

  predicate IsTagStart(c: char) {
    'A' <= c <= 'Z' || 'a' <= c <= 'z' || c == '_'
  }

  predicate IsTagChar(c: char) {
    IsTagStart(c) || '0' <= c <= '9'
  }

  /** Length of the tag characters and closing dollar at the front of s, if that is how s begins. */
  function TagTail(s: string): (r: Option<nat>)
    ensures r.Some? ==> 1 <= r.value <= |s|
  {
    if s == "" then None
    else if s[0] == '$' then Some(1)
    else if !IsTagChar(s[0]) then None
    else match TagTail(s[1..])
      case Some(n) => Some(n + 1)
      case None => None
  }

  /** Length of the dollar tag `$$` or `$name$` at the front of s. */
  function TagLen(s: string): (r: Option<nat>)
    requires s != "" && s[0] == '$'
    ensures r.Some? ==> 2 <= r.value <= |s|
  {
    if |s| >= 2 && (s[1] == '$' || IsTagStart(s[1])) then
      match TagTail(s[1..])
      case Some(n) => Some(n + 1)
      case None => None
    else None
  }

  // Lengths of token bodies; the flag says whether the terminator was found.

  function LineBody(s: string): (r: (nat, bool))
    ensures r.0 <= |s|
  {
    if s == "" then (0, false)
    else if s[0] == '\n' then (1, true)
    else var (n, closed) := LineBody(s[1..]); (n + 1, closed)
  }

  function BlockBody(s: string): (r: (nat, bool))
    ensures r.0 <= |s|
  {
    if s == "" then (0, false)
    else if |s| >= 2 && s[0] == '*' && s[1] == '/' then (2, true)
    else var (n, closed) := BlockBody(s[1..]); (n + 1, closed)
  }

  function QuoteBody(s: string, q: char): (r: (nat, bool))
    ensures r.0 <= |s|
  {
    if s == "" then (0, false)
    else if s[0] != q then var (n, closed) := QuoteBody(s[1..], q); (n + 1, closed)
    else if |s| >= 2 && s[1] == q then var (n, closed) := QuoteBody(s[2..], q); (n + 2, closed)
    else (1, true)
  }

  function DollarBody(s: string, tag: string): (r: (nat, bool))
    requires tag != ""
    ensures r.0 <= |s|
  {
    if s == "" then (0, false)
    else if tag <= s then (|tag|, true)
    else var (n, closed) := DollarBody(s[1..], tag); (n + 1, closed)
  }

  /** Kind, length and closedness of the first token of s. */
  function FirstToken(s: string): (r: (Kind, nat, bool))
    requires s != ""
    ensures 1 <= r.1 <= |s|
  {
    if |s| >= 2 && s[0] == '-' && s[1] == '-' then
      var (n, closed) := LineBody(s[2..]); (LineComment, n + 2, closed)
    else if |s| >= 2 && s[0] == '/' && s[1] == '*' then
      var (n, closed) := BlockBody(s[2..]); (BlockComment, n + 2, closed)
    else if s[0] == '\'' || s[0] == '"' then
      var (n, closed) := QuoteBody(s[1..], s[0]); (Quoted, n + 1, closed)
    else if s[0] == '$' && TagLen(s).Some? then
      var t := TagLen(s).value;
      var (n, closed) := DollarBody(s[t..], s[..t]); (Dollar, n + t, closed)
    else if s[0] == ';' then (Semicolon, 1, true)
    else (Plain, 1, true)
  }

  function Lex(s: string): seq<Token> {
    if s == "" then []
    else
      var (kind, n, closed) := FirstToken(s);
      [Token(kind, s[..n], closed)] + Lex(s[n..])
  }

  /** The characters the tokens came from. */
  function Text(ts: seq<Token>): string {
    if ts == [] then "" else Text(ts[..|ts| - 1]) + ts[|ts| - 1].text
  }

  function Count(ts: seq<Token>, kind: Kind): nat {
    if ts == [] then 0
    else Count(ts[..|ts| - 1], kind) + if ts[|ts| - 1].kind == kind then 1 else 0
  }

  predicate IsClosedBlock(t: Token) {
    t.kind == BlockComment && t.closed
  }

  /** Number of block comments that are closed by their terminator. */
  function ClosedBlocks(ts: seq<Token>): nat {
    if ts == [] then 0
    else ClosedBlocks(ts[..|ts| - 1]) + if IsClosedBlock(ts[|ts| - 1]) then 1 else 0
  }

  /** Continue a list of segments with one more token. */
  function Extend(segments: seq<seq<Token>>, t: Token): (r: seq<seq<Token>>)
    requires segments != []
    ensures r != []
  {
    var n := |segments| - 1;
    if t.kind == Semicolon then segments + [[]] else segments[..n] + [segments[n] + [t]]
  }

  /** The runs of tokens between semicolon tokens. */
  function Segments(ts: seq<Token>): (r: seq<seq<Token>>)
    ensures r != []
  {
    if ts == [] then [[]] else Extend(Segments(ts[..|ts| - 1]), ts[|ts| - 1])
  }

  // ----- lists of tokens -------------------------------------------------------------------------------

  lemma {:induction false} TextAppend(a: seq<Token>, b: seq<Token>)
    ensures Text(a + b) == Text(a) + Text(b)
  {
    if b == [] {
      assert a + b == a;
    } else {
      assert (a + b)[..|a + b| - 1] == a + b[..|b| - 1];
      TextAppend(a, b[..|b| - 1]);
    }
  }

  lemma {:induction false} CountAppend(a: seq<Token>, b: seq<Token>, kind: Kind)
    ensures Count(a + b, kind) == Count(a, kind) + Count(b, kind)
    ensures ClosedBlocks(a + b) == ClosedBlocks(a) + ClosedBlocks(b)
  {
    if b == [] {
      assert a + b == a;
    } else {
      assert (a + b)[..|a + b| - 1] == a + b[..|b| - 1];
      CountAppend(a, b[..|b| - 1], kind);
    }
  }

  /** No character is lost or invented: the tokens are the script. */
  lemma {:induction false} LexLossless(s: string)
    ensures Text(Lex(s)) == s
    decreases |s|
  {
    hide FirstToken;
    if s != "" {
      var (kind, n, closed) := FirstToken(s);
      LexLossless(s[n..]);
      var first := [Token(kind, s[..n], closed)];
      assert Text(first) == s[..n] by {
        assert first[..0] == [];
      }
      TextAppend(first, Lex(s[n..]));
      assert s[..n] + s[n..] == s;
    }
  }

  lemma ExtendAfter(a: seq<seq<Token>>, b: seq<seq<Token>>, t: Token)
    requires b != []
    ensures Extend(a + b, t) == a + Extend(b, t)
  {
    assert (a + b)[..|a + b| - 1] == a + b[..|b| - 1];
  }

  lemma ExtendSemicolon(segments: seq<seq<Token>>, t: Token)
    requires segments != [] && t.kind == Semicolon
    ensures Extend(segments, t) == segments + [[]]
  {
  }

  lemma SegmentsPush(ts: seq<Token>, t: Token)
    ensures Segments(ts + [t]) == Extend(Segments(ts), t)
  {
    assert (ts + [t])[..|ts|] == ts;
  }

  /** Segments of a list cut at a semicolon are the segments of the two halves. */
  lemma {:induction false} SegmentsAtSemicolon(a: seq<Token>, semi: Token, b: seq<Token>)
    requires semi.kind == Semicolon
    ensures Segments(a + [semi] + b) == Segments(a) + Segments(b)
  {
    hide Extend;
    if b == [] {
      SegmentsPush(a, semi);
      ExtendSemicolon(Segments(a), semi);
      assert a + [semi] + b == a + [semi];
    } else {
      var n := |b| - 1;
      SegmentsAtSemicolon(a, semi, b[..n]);
      SegmentsPush(a + [semi] + b[..n], b[n]);
      SegmentsPush(b[..n], b[n]);
      assert a + [semi] + b[..n] + [b[n]] == a + [semi] + b && b[..n] + [b[n]] == b;
      ExtendAfter(Segments(a), Segments(b[..n]), b[n]);
    }
  }

  lemma {:induction false} OneSegment(ts: seq<Token>)
    requires Count(ts, Semicolon) == 0
    ensures Segments(ts) == [ts]
  {
    if ts != [] {
      var n := |ts| - 1;
      OneSegment(ts[..n]);
      assert ts[..n] + [ts[n]] == ts;
      assert [ts[..n]][..0] == [];
    }
  }

  /** There is one more segment than there are semicolon tokens, and no segment contains one. */
  lemma {:induction false} SegmentsHaveNoSemicolon(ts: seq<Token>)
    ensures |Segments(ts)| == Count(ts, Semicolon) + 1
    ensures forall k :: 0 <= k < |Segments(ts)| ==> Count(Segments(ts)[k], Semicolon) == 0
  {
    if ts != [] {
      var n := |ts| - 1;
      SegmentsHaveNoSemicolon(ts[..n]);
      var before := Segments(ts[..n]);
      CountAppend(before[|before| - 1], [ts[n]], Semicolon);
      assert [ts[n]][..0] == [];
      var all := Segments(ts);
      assert all == Extend(before, ts[n]);
      forall k | 0 <= k < |all| ensures Count(all[k], Semicolon) == 0 {
        if k < |before| - 1 {
          assert all[k] == before[k];
        }
      }
    }
  }

  /** The segments' texts with one semicolon between neighbours. */
  function Joined(segments: seq<seq<Token>>): string
    requires segments != []
  {
    var n := |segments| - 1;
    if n == 0 then Text(segments[0]) else Joined(segments[..n]) + ";" + Text(segments[n])
  }

  lemma JoinedPush(segments: seq<seq<Token>>, segment: seq<Token>)
    requires segments != []
    ensures Joined(segments + [segment]) == Joined(segments) + ";" + Text(segment)
  {
    assert (segments + [segment])[..|segments|] == segments;
  }

  lemma JoinedGrow(segments: seq<seq<Token>>, segment: seq<Token>, t: Token)
    ensures Joined(segments + [segment + [t]]) == Joined(segments + [segment]) + t.text
  {
    assert Text(segment + [t]) == Text(segment) + t.text by {
      assert (segment + [t])[..|segment|] == segment;
    }
    if segments != [] {
      JoinedPush(segments, segment);
      JoinedPush(segments, segment + [t]);
      assert Joined(segments) + ";" + (Text(segment) + t.text) == Joined(segments) + ";" + Text(segment) + t.text;
    }
  }

  lemma JoinedExtend(segments: seq<seq<Token>>, t: Token)
    requires segments != [] && (t.kind == Semicolon ==> t.text == ";")
    ensures Joined(Extend(segments, t)) == Joined(segments) + t.text
  {
    hide Joined, Text;
    var n := |segments| - 1;
    if t.kind == Semicolon {
      JoinedPush(segments, []);
      assert Text([]) == "" by { EmptyText(); }
      assert Joined(segments) + ";" + "" == Joined(segments) + ";";
    } else {
      JoinedGrow(segments[..n], segments[n], t);
      assert segments[..n] + [segments[n]] == segments;
    }
  }

  lemma EmptyText()
    ensures Text([]) == ""
  {
  }

  ghost predicate SemicolonsAreSemicolons(ts: seq<Token>) {
    forall k :: 0 <= k < |ts| && ts[k].kind == Semicolon ==> ts[k].text == ";"
  }

  lemma {:induction false} LexSemicolons(s: string)
    ensures SemicolonsAreSemicolons(Lex(s))
    decreases |s|
  {
    if s != "" {
      var (_, n, _) := FirstToken(s);
      LexSemicolons(s[n..]);
    }
  }

  lemma {:induction false} JoinedSegments(ts: seq<Token>)
    requires SemicolonsAreSemicolons(ts)
    ensures Joined(Segments(ts)) == Text(ts)
  {
    if ts != [] {
      var n := |ts| - 1;
      JoinedSegments(ts[..n]);
      JoinedExtend(Segments(ts[..n]), ts[n]);
    }
  }

  /** The script is its segments joined by exactly the semicolons outside quotations, dollar bodies
      and comments. */
  lemma ScriptIsJoinedSegments(s: string)
    ensures Joined(Segments(Lex(s))) == s
    ensures |Segments(Lex(s))| == Count(Lex(s), Semicolon) + 1
  {
    LexLossless(s);
    LexSemicolons(s);
    JoinedSegments(Lex(s));
    SegmentsHaveNoSemicolon(Lex(s));
  }
}
