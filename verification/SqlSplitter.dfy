/** The migration splitter's loop, proved against the lexical grammar. */
module SqlSplitter {
  import opened Strings
  import opened Wrappers
  import opened SqlLexer

  // ----- what a split is ---------------------------------------------------------------------------------

  /** What the loop appends for one token. As the loop stands it drops the slash that closes a block
      comment; `keepSlash` is the loop that appends both characters. */
  function Piece(t: Token, keepSlash: bool): string {
    if IsClosedBlock(t) && !keepSlash && t.text != "" then t.text[..|t.text| - 1] else t.text
  }

  function Rendered(ts: seq<Token>, keepSlash: bool): string {
    if ts == [] then "" else Rendered(ts[..|ts| - 1], keepSlash) + Piece(ts[|ts| - 1], keepSlash)
  }

  function Emit(stmt: string): seq<string> {
    if stmt == "" then [] else [stmt]
  }

  /** The non-empty trimmed segments, in order. */
  function Statements(segments: seq<seq<Token>>, keepSlash: bool): seq<string> {
    if segments == [] then []
    else
      var n := |segments| - 1;
      Statements(segments[..n], keepSlash) + Emit(Strip(Rendered(segments[n], keepSlash)))
  }

  function Split(sql: string, keepSlash: bool): seq<string> {
    Statements(Segments(Lex(sql)), keepSlash)
  }

  // ----- the loop ----------------------------------------------------------------------------------------

  /** What has been emitted, and what is buffered, once the tokens `done` are complete. */
  function Output(done: seq<Token>, keepSlash: bool): (seq<string>, string) {
    var segments := Segments(done);
    var n := |segments| - 1;
    (Statements(segments[..n], keepSlash), Rendered(segments[n], keepSlash))
  }

  lemma OutputStep(done: seq<Token>, t: Token, keepSlash: bool)
    ensures var (statements, buf) := Output(done, keepSlash);
            Output(done + [t], keepSlash) ==
              if t.kind == Semicolon then (statements + Emit(Strip(buf)), "") else (statements, buf + Piece(t, keepSlash))
  {
    assert (done + [t])[..|done|] == done;
    var segments := Segments(done);
    var n := |segments| - 1;
    var all := Segments(done + [t]);
    if t.kind == Semicolon {
      assert all[..n + 1] == segments;
    } else {
      assert all[..n] == segments[..n];
      assert (segments[n] + [t])[..|segments[n]|] == segments[n];
    }
  }

  /** The loop's six modes. */
  datatype Mode = Normal | InLine | InBlock | InSingle | InDouble | InDollar(tag: string)

  /** Length and closedness of what is left of the current token. */
  function Remaining(mode: Mode, s: string): (nat, bool) {
    match mode
    case Normal => (0, true)
    case InLine => LineBody(s)
    case InBlock => BlockBody(s)
    case InSingle => QuoteBody(s, '\'')
    case InDouble => QuoteBody(s, '"')
    case InDollar(tag) => if tag == "" then (0, true) else DollarBody(s, tag)
  }

  function KindOf(mode: Mode): Kind {
    match mode
    case Normal => Plain
    case InLine => LineComment
    case InBlock => BlockComment
    case InSingle => Quoted
    case InDouble => Quoted
    case InDollar(_) => Dollar
  }

  /** The tokens `done` end at t and produced these statements and this pending text. */
  ghost predicate Done(sql: string, keepSlash: bool, done: seq<Token>, t: nat, statements: seq<string>, pending: string) {
    t <= |sql| && Lex(sql) == done + Lex(sql[t..]) && Output(done, keepSlash) == (statements, pending)
  }

  /** The token that starts at t has been read up to i, in this mode. */
  ghost predicate Inside(sql: string, t: nat, i: nat, mode: Mode) {
    if mode == Normal then t == i <= |sql|
    else
      && t < i <= |sql|
      && FirstToken(sql[t..]) == (KindOf(mode), i - t + Remaining(mode, sql[i..]).0, Remaining(mode, sql[i..]).1)
  }

  /** k more characters inside the current token. */
  lemma Buffered(sql: string, t: nat, i: nat, k: nat, mode: Mode)
    requires Inside(sql, t, i, mode) && mode != Normal && i + k <= |sql|
    requires Remaining(mode, sql[i..]) == (k + Remaining(mode, sql[i + k..]).0, Remaining(mode, sql[i + k..]).1)
    ensures Inside(sql, t, i + k, mode)
    ensures sql[t..i] + sql[i..i + k] == sql[t..i + k]
  {
  }

  lemma Regroup<T>(a: seq<T>, x: T, b: seq<T>)
    ensures a + ([x] + b) == a + [x] + b
  {
  }

  lemma Glue(pending: string, s: string, t: nat, i: nat, e: nat)
    requires t <= i <= e <= |s|
    ensures pending + s[t..e] == pending + s[t..i] + s[i..e]
    ensures s[t..e][..e - t - (e - i)] == s[t..i]
  {
  }

  lemma LexStep(s: string, kind: Kind, n: nat, closed: bool)
    requires s != "" && FirstToken(s) == (kind, n, closed)
    ensures Lex(s) == [Token(kind, s[..n], closed)] + Lex(s[n..])
  {
  }

  /** The token that started at t ends at e. */
  lemma Completed(sql: string, keepSlash: bool, done: seq<Token>, t: nat, e: nat, kind: Kind, closed: bool,
                  statements: seq<string>, pending: string)
    requires Done(sql, keepSlash, done, t, statements, pending)
    requires t < e <= |sql| && FirstToken(sql[t..]) == (kind, e - t, closed)
    ensures var token := Token(kind, sql[t..e], closed);
            Done(sql, keepSlash, done + [token], e,
                 if kind == Semicolon then statements + Emit(Strip(pending)) else statements,
                 if kind == Semicolon then "" else pending + Piece(token, keepSlash))
  {
    hide FirstToken, Lex, Output, Emit, Strip, Piece;
    var token := Token(kind, sql[t..e], closed);
    assert Lex(sql) == done + [token] + Lex(sql[e..]) by {
      assert sql[t..][..e - t] == sql[t..e] && sql[t..][e - t..] == sql[e..];
      LexStep(sql[t..], kind, e - t, closed);
      Regroup(done, token, Lex(sql[e..]));
    }
    OutputStep(done, token, keepSlash);
  }

  lemma AtStart(sql: string, keepSlash: bool)
    ensures Done(sql, keepSlash, [], 0, [], "")
  {
    assert sql[0..] == sql;
  }

  lemma PieceOf(sql: string, t: nat, i: nat, e: nat, kind: Kind, closed: bool, keepSlash: bool, pending: string)
    requires t < i < e <= |sql|
    ensures pending + Piece(Token(kind, sql[t..e], closed), keepSlash) ==
            pending + sql[t..i] + if kind == BlockComment && closed && !keepSlash then sql[i..e - 1] else sql[i..e]
  {
    Glue(pending, sql, t, i, e);
    Glue(pending, sql, t, i, e - 1);
    assert sql[t..e][..e - t - 1] == sql[t..e - 1];
  }

  /** The terminator (k characters) of the current token is next. */
  lemma Closed(sql: string, keepSlash: bool, done: seq<Token>, t: nat, i: nat, k: nat, mode: Mode,
               statements: seq<string>, pending: string)
    requires Done(sql, keepSlash, done, t, statements, pending) && t < i && 0 < k && i + k <= |sql|
    requires mode != Normal && FirstToken(sql[t..]) == (KindOf(mode), i + k - t, true)
    ensures Done(sql, keepSlash, done + [Token(KindOf(mode), sql[t..i + k], true)], i + k, statements,
                 pending + sql[t..i] + if mode == InBlock && !keepSlash then sql[i..i + k - 1] else sql[i..i + k])
  {
    hide FirstToken, Lex, Output;
    PieceOf(sql, t, i, i + k, KindOf(mode), true, keepSlash, pending);
    Completed(sql, keepSlash, done, t, i + k, KindOf(mode), true, statements, pending);
  }

  /** At the end of the script an unterminated token is complete too. */
  lemma AtEnd(sql: string, keepSlash: bool, done: seq<Token>, t: nat, mode: Mode, statements: seq<string>, pending: string)
    requires Done(sql, keepSlash, done, t, statements, pending) && Inside(sql, t, |sql|, mode)
    requires mode.InDollar? ==> mode.tag != ""
    ensures Split(sql, keepSlash) == statements + Emit(Strip(pending + sql[t..]))
  {
    hide FirstToken, Lex, Output, Split;
    if mode == Normal {
      assert pending + sql[t..] == pending;
      AllDone(sql, keepSlash, done, statements, pending);
    } else {
      OpenToken(sql, t, mode);
      Completed(sql, keepSlash, done, t, |sql|, KindOf(mode), false, statements, pending);
      var token := Token(KindOf(mode), sql[t..|sql|], false);
      assert pending + Piece(token, keepSlash) == pending + sql[t..];
      AllDone(sql, keepSlash, done + [token], statements, pending + Piece(token, keepSlash));
    }
  }

  lemma OpenToken(sql: string, t: nat, mode: Mode)
    requires Inside(sql, t, |sql|, mode) && mode != Normal
    requires mode.InDollar? ==> mode.tag != ""
    ensures FirstToken(sql[t..]) == (KindOf(mode), |sql| - t, false)
  {
    assert sql[|sql|..] == "";
  }

  lemma AllDone(sql: string, keepSlash: bool, done: seq<Token>, statements: seq<string>, pending: string)
    requires Done(sql, keepSlash, done, |sql|, statements, pending)
    ensures Split(sql, keepSlash) == statements + Emit(Strip(pending))
  {
    assert Lex(sql) == done by {
      assert sql[|sql|..] == "";
    }
  }

  // What one character of lookahead decides in each mode.

  lemma LineChar(sql: string, t: nat, i: nat)
    requires Inside(sql, t, i, InLine) && i < |sql|
    ensures if sql[i] == '\n' then Remaining(InLine, sql[i..]) == (1, true) else Inside(sql, t, i + 1, InLine)
  {
    hide FirstToken;
    assert sql[i..][1..] == sql[i + 1..];
    if sql[i] != '\n' {
      Buffered(sql, t, i, 1, InLine);
    }
  }

  lemma BlockChar(sql: string, t: nat, i: nat)
    requires Inside(sql, t, i, InBlock) && i < |sql|
    ensures if i + 1 < |sql| && sql[i] == '*' && sql[i + 1] == '/' then Remaining(InBlock, sql[i..]) == (2, true)
            else Inside(sql, t, i + 1, InBlock)
  {
    hide FirstToken;
    assert sql[i..][1..] == sql[i + 1..];
    if !(i + 1 < |sql| && sql[i] == '*' && sql[i + 1] == '/') {
      Buffered(sql, t, i, 1, InBlock);
    }
  }

  lemma QuoteChar(sql: string, t: nat, i: nat, mode: Mode)
    requires mode == InSingle || mode == InDouble
    requires Inside(sql, t, i, mode) && i < |sql|
    ensures var q := if mode == InSingle then '\'' else '"';
            if sql[i] != q then Inside(sql, t, i + 1, mode)
            else if i + 1 < |sql| && sql[i + 1] == q then Inside(sql, t, i + 2, mode)
            else Remaining(mode, sql[i..]) == (1, true)
  {
    hide FirstToken;
    var q := if mode == InSingle then '\'' else '"';
    assert sql[i..][1..] == sql[i + 1..];
    if sql[i] != q {
      Buffered(sql, t, i, 1, mode);
    } else if i + 1 < |sql| && sql[i + 1] == q {
      assert sql[i..][2..] == sql[i + 2..];
      Buffered(sql, t, i, 2, mode);
    }
  }

  lemma DollarChar(sql: string, t: nat, i: nat, tag: string)
    requires tag != "" && tag[0] == '$' && Inside(sql, t, i, InDollar(tag)) && i < |sql|
    ensures if sql[i] == '$' && i + |tag| <= |sql| && sql[i..i + |tag|] == tag then Remaining(InDollar(tag), sql[i..]) == (|tag|, true)
            else Inside(sql, t, i + 1, InDollar(tag))
  {
    hide FirstToken;
    var rest := sql[i..];
    assert rest[1..] == sql[i + 1..];
    assert i + |tag| <= |sql| ==> rest[..|tag|] == sql[i..i + |tag|];
    if !(sql[i] == '$' && i + |tag| <= |sql| && sql[i..i + |tag|] == tag) {
      assert !(tag <= rest);
      Buffered(sql, t, i, 1, InDollar(tag));
    }
  }

  /** What opens at a position outside every token. */
  lemma FirstChar(sql: string, i: nat)
    requires i < |sql|
    ensures var nxt := if i + 1 < |sql| then Some(sql[i + 1]) else None;
            if sql[i] == '-' && nxt == Some('-') then Inside(sql, i, i + 2, InLine)
            else if sql[i] == '/' && nxt == Some('*') then Inside(sql, i, i + 2, InBlock)
            else if sql[i] == '\'' then Inside(sql, i, i + 1, InSingle)
            else if sql[i] == '"' then Inside(sql, i, i + 1, InDouble)
            else if sql[i] == '$' && TagLen(sql[i..]).Some? then
              var e := i + TagLen(sql[i..]).value;
              e <= |sql| && sql[i..e] != "" && sql[i..e][0] == '$' && Inside(sql, i, e, InDollar(sql[i..e]))
            else FirstToken(sql[i..]) == (if sql[i] == ';' then Semicolon else Plain, 1, true)
  {
    var rest := sql[i..];
    assert rest[1..] == sql[i + 1..];
    if i + 1 < |sql| {
      assert rest[2..] == sql[i + 2..];
    }
    if sql[i] == '$' && TagLen(rest).Some? {
      var e := i + TagLen(rest).value;
      assert rest[..e - i] == sql[i..e] && rest[e - i..] == sql[e..];
    }
  }

  /** Everything before i has been read in some order of tokens, the last of them perhaps unfinished, and
      has produced these statements and this buffer. */
  ghost predicate ReadTo(sql: string, keepSlash: bool, mode: Mode, i: nat, statements: seq<string>, buf: string) {
    exists done: seq<Token>, t: nat, pending: string ::
      && Done(sql, keepSlash, done, t, statements, pending)
      && Inside(sql, t, i, mode) && t <= i <= |sql|
      && buf == pending + sql[t..i]
  }

  lemma NothingRead(sql: string, keepSlash: bool)
    ensures ReadTo(sql, keepSlash, Normal, 0, [], "")
  {
    hide Done, Inside;
    AtStart(sql, keepSlash);
    assert Inside(sql, 0, 0, Normal) by { NormalInside(sql, 0); }
    assert "" == "" + sql[0..0];
  }

  lemma NormalInside(sql: string, i: nat)
    requires i <= |sql|
    ensures Inside(sql, i, i, Normal)
  {
  }

  /** k more characters of the unfinished token. */
  lemma Grown(sql: string, keepSlash: bool, done: seq<Token>, t: nat, i: nat, k: nat, mode: Mode,
              statements: seq<string>, pending: string, buf: string)
    requires Done(sql, keepSlash, done, t, statements, pending) && Inside(sql, t, i + k, mode)
    requires t <= i && i + k <= |sql| && buf == pending + sql[t..i]
    ensures ReadTo(sql, keepSlash, mode, i + k, statements, buf + sql[i..i + k])
  {
    hide Done, Inside;
    Glue(pending, sql, t, i, i + k);
  }

  /** The k characters that end the token. */
  lemma Ended(sql: string, keepSlash: bool, done: seq<Token>, t: nat, i: nat, k: nat, mode: Mode,
              statements: seq<string>, pending: string, buf: string)
    requires Done(sql, keepSlash, done, t, statements, pending) && Inside(sql, t, i, mode) && mode != Normal
    requires 0 < k && i + k <= |sql| && Remaining(mode, sql[i..]) == (k, true) && t <= i
    requires buf == pending + sql[t..i]
    ensures ReadTo(sql, keepSlash, Normal, i + k, statements,
                   buf + if mode == InBlock && !keepSlash then sql[i..i + k - 1] else sql[i..i + k])
  {
    hide Done, FirstToken, Remaining;
    Closed(sql, keepSlash, done, t, i, k, mode, statements, pending);
    var now := buf + if mode == InBlock && !keepSlash then sql[i..i + k - 1] else sql[i..i + k];
    NormalInside(sql, i + k);
    assert now == now + sql[i + k..i + k];
  }

  lemma LineStep(sql: string, keepSlash: bool, i: nat, statements: seq<string>, buf: string)
    requires ReadTo(sql, keepSlash, InLine, i, statements, buf) && i < |sql|
    ensures ReadTo(sql, keepSlash, if sql[i] == '\n' then Normal else InLine, i + 1, statements, buf + [sql[i]])
  {
    hide Done, Inside;
    var done: seq<Token>, t: nat, pending: string :|
      Done(sql, keepSlash, done, t, statements, pending) && Inside(sql, t, i, InLine) && t <= i <= |sql| && buf == pending + sql[t..i];
    assert sql[i..i + 1] == [sql[i]];
    LineChar(sql, t, i);
    if sql[i] == '\n' {
      Ended(sql, keepSlash, done, t, i, 1, InLine, statements, pending, buf);
    } else {
      Grown(sql, keepSlash, done, t, i, 1, InLine, statements, pending, buf);
    }
  }

  lemma BlockStep(sql: string, keepSlash: bool, i: nat, statements: seq<string>, buf: string)
    requires ReadTo(sql, keepSlash, InBlock, i, statements, buf) && i < |sql|
    ensures if i + 1 < |sql| && sql[i] == '*' && sql[i + 1] == '/' then
              ReadTo(sql, keepSlash, Normal, i + 2, statements, buf + if keepSlash then "*/" else "*")
            else ReadTo(sql, keepSlash, InBlock, i + 1, statements, buf + [sql[i]])
  {
    hide Done, Inside;
    var done: seq<Token>, t: nat, pending: string :|
      Done(sql, keepSlash, done, t, statements, pending) && Inside(sql, t, i, InBlock) && t <= i <= |sql| && buf == pending + sql[t..i];
    assert sql[i..i + 1] == [sql[i]];
    BlockChar(sql, t, i);
    if i + 1 < |sql| && sql[i] == '*' && sql[i + 1] == '/' {
      assert sql[i..i + 2] == "*/" && sql[i..i + 2 - 1] == "*";
      Ended(sql, keepSlash, done, t, i, 2, InBlock, statements, pending, buf);
    } else {
      Grown(sql, keepSlash, done, t, i, 1, InBlock, statements, pending, buf);
    }
  }

  lemma QuoteStep(sql: string, keepSlash: bool, i: nat, mode: Mode, statements: seq<string>, buf: string)
    requires mode == InSingle || mode == InDouble
    requires ReadTo(sql, keepSlash, mode, i, statements, buf) && i < |sql|
    ensures var q := if mode == InSingle then '\'' else '"';
            if sql[i] == q && i + 1 < |sql| && sql[i + 1] == q then
              ReadTo(sql, keepSlash, mode, i + 2, statements, buf + [q, q])
            else
              ReadTo(sql, keepSlash, if sql[i] == q then Normal else mode, i + 1, statements, buf + [sql[i]])
  {
    hide Done, Inside;
    var done: seq<Token>, t: nat, pending: string :|
      Done(sql, keepSlash, done, t, statements, pending) && Inside(sql, t, i, mode) && t <= i <= |sql| && buf == pending + sql[t..i];
    var q := if mode == InSingle then '\'' else '"';
    assert sql[i..i + 1] == [sql[i]];
    QuoteChar(sql, t, i, mode);
    if sql[i] != q {
      Grown(sql, keepSlash, done, t, i, 1, mode, statements, pending, buf);
    } else if i + 1 < |sql| && sql[i + 1] == q {
      assert sql[i..i + 2] == [q, q];
      Grown(sql, keepSlash, done, t, i, 2, mode, statements, pending, buf);
    } else {
      Ended(sql, keepSlash, done, t, i, 1, mode, statements, pending, buf);
    }
  }

  lemma DollarStep(sql: string, keepSlash: bool, i: nat, tag: string, statements: seq<string>, buf: string)
    requires tag != "" && tag[0] == '$'
    requires ReadTo(sql, keepSlash, InDollar(tag), i, statements, buf) && i < |sql|
    ensures if sql[i] == '$' && i + |tag| <= |sql| && sql[i..i + |tag|] == tag then
              ReadTo(sql, keepSlash, Normal, i + |tag|, statements, buf + tag)
            else ReadTo(sql, keepSlash, InDollar(tag), i + 1, statements, buf + [sql[i]])
  {
    hide Done, Inside;
    var done: seq<Token>, t: nat, pending: string :|
      Done(sql, keepSlash, done, t, statements, pending) && Inside(sql, t, i, InDollar(tag)) && t <= i <= |sql| && buf == pending + sql[t..i];
    assert sql[i..i + 1] == [sql[i]];
    DollarChar(sql, t, i, tag);
    if sql[i] == '$' && i + |tag| <= |sql| && sql[i..i + |tag|] == tag {
      Ended(sql, keepSlash, done, t, i, |tag|, InDollar(tag), statements, pending, buf);
    } else {
      Grown(sql, keepSlash, done, t, i, 1, InDollar(tag), statements, pending, buf);
    }
  }

  /** A token longer than its first k characters opens. */
  lemma OpenStep(sql: string, keepSlash: bool, i: nat, k: nat, mode: Mode, statements: seq<string>, buf: string)
    requires ReadTo(sql, keepSlash, Normal, i, statements, buf) && i + k <= |sql| && Inside(sql, i, i + k, mode)
    ensures ReadTo(sql, keepSlash, mode, i + k, statements, buf + sql[i..i + k])
  {
    hide Done;
    var done: seq<Token>, t: nat, pending: string :|
      Done(sql, keepSlash, done, t, statements, pending) && Inside(sql, t, i, Normal) && t <= i <= |sql| && buf == pending + sql[t..i];
    assert t == i;
    Grown(sql, keepSlash, done, t, i, k, mode, statements, pending, buf);
  }

  /** A character that is a token by itself. */
  lemma PlainStep(sql: string, keepSlash: bool, i: nat, kind: Kind, statements: seq<string>, buf: string)
    requires kind == Semicolon || kind == Plain
    requires ReadTo(sql, keepSlash, Normal, i, statements, buf) && i < |sql| && FirstToken(sql[i..]) == (kind, 1, true)
    ensures if kind == Semicolon then ReadTo(sql, keepSlash, Normal, i + 1, statements + Emit(Strip(buf)), "")
            else ReadTo(sql, keepSlash, Normal, i + 1, statements, buf + [sql[i]])
  {
    hide Done, FirstToken, Emit, Strip;
    var done: seq<Token>, t: nat, pending: string :|
      Done(sql, keepSlash, done, t, statements, pending) && Inside(sql, t, i, Normal) && t <= i <= |sql| && buf == pending + sql[t..i];
    assert t == i && buf == pending;
    Completed(sql, keepSlash, done, i, i + 1, kind, true, statements, pending);
    var now := if kind == Semicolon then "" else buf + [sql[i]];
    assert Piece(Token(kind, sql[i..i + 1], true), keepSlash) == [sql[i]];
    NormalInside(sql, i + 1);
    assert now == now + sql[i + 1..i + 1];
  }

  lemma LastStep(sql: string, keepSlash: bool, mode: Mode, statements: seq<string>, buf: string)
    requires ReadTo(sql, keepSlash, mode, |sql|, statements, buf) && (mode.InDollar? ==> mode.tag != "")
    ensures Split(sql, keepSlash) == statements + Emit(Strip(buf))
  {
    hide Done, Inside, Split, Emit, Strip;
    var done: seq<Token>, t: nat, pending: string :|
      Done(sql, keepSlash, done, t, statements, pending) && Inside(sql, t, |sql|, mode) && t <= |sql| && buf == pending + sql[t..|sql|];
    AtEnd(sql, keepSlash, done, t, mode, statements, pending);
    assert sql[t..|sql|] == sql[t..];
  }

  // ----- the loop --------------------------------------------------------------------------------------

  function ModeOf(inSingle: bool, inDouble: bool, inLine: bool, inBlock: bool, dollarTag: Option<string>): Mode {
    if inLine then InLine else if inBlock then InBlock else if inSingle then InSingle else if inDouble then InDouble
    else match dollarTag case Some(tag) => InDollar(tag) case None => Normal
  }

  predicate OneMode(inSingle: bool, inDouble: bool, inLine: bool, inBlock: bool, dollarTag: Option<string>) {
    && (inLine ==> !inBlock && !inSingle && !inDouble && dollarTag == None)
    && (inBlock ==> !inSingle && !inDouble && dollarTag == None)
    && (inSingle ==> !inDouble && dollarTag == None)
    && (inDouble ==> dollarTag == None)
    && (dollarTag.Some? ==> dollarTag.value != "" && dollarTag.value[0] == '$')
  }

  /** split_sql_statements; keepSlash = false is the loop exactly as it is written. */
  method SplitSqlStatements(sql: string, keepSlash: bool) returns (statements: seq<string>)
    ensures statements == Split(sql, keepSlash)
  {
    hide FirstToken, Split, TagLen, Inside, ReadTo, Strip, Emit;
    statements := [];
    var buf := "";
    var inSingle, inDouble, inLine, inBlock := false, false, false, false;
    var dollarTag: Option<string> := None;
    var i: nat, n := 0, |sql|;
    NothingRead(sql, keepSlash);
    while i < n
      invariant n == |sql| && i <= n
      invariant OneMode(inSingle, inDouble, inLine, inBlock, dollarTag)
      invariant ReadTo(sql, keepSlash, ModeOf(inSingle, inDouble, inLine, inBlock, dollarTag), i, statements, buf)
    {
      var ch := sql[i];
      var nxt := if i + 1 < n then Some(sql[i + 1]) else None;
      if inLine {
        LineStep(sql, keepSlash, i, statements, buf);
        buf := buf + [ch];
        if ch == '\n' {
          inLine := false;
        }
        i := i + 1;
      } else if inBlock {
        BlockStep(sql, keepSlash, i, statements, buf);
        if ch == '*' && nxt == Some('/') {
          buf := buf + if keepSlash then "*/" else "*";
          inBlock := false;
          i := i + 2;
        } else {
          buf := buf + [ch];
          i := i + 1;
        }
      } else if inSingle {
        QuoteStep(sql, keepSlash, i, InSingle, statements, buf);
        if ch == '\'' && nxt == Some('\'') {
          buf := buf + ['\'', '\''];
          i := i + 2;
        } else {
          buf := buf + [ch];
          if ch == '\'' {
            inSingle := false;
          }
          i := i + 1;
        }
      } else if inDouble {
        QuoteStep(sql, keepSlash, i, InDouble, statements, buf);
        if ch == '"' && nxt == Some('"') {
          buf := buf + ['"', '"'];
          i := i + 2;
        } else {
          buf := buf + [ch];
          if ch == '"' {
            inDouble := false;
          }
          i := i + 1;
        }
      } else if dollarTag.Some? {
        var tag := dollarTag.value;
        DollarStep(sql, keepSlash, i, tag, statements, buf);
        if ch == '$' && i + |tag| <= n && sql[i..i + |tag|] == tag {
          buf := buf + tag;
          i := i + |tag|;
          dollarTag := None;
        } else {
          buf := buf + [ch];
          i := i + 1;
        }
      } else {
        FirstChar(sql, i);
        assert sql[i..i + 1] == [ch] && (nxt.Some? ==> sql[i..i + 2] == [ch, nxt.value]);
        if ch == '-' && nxt == Some('-') {
          OpenStep(sql, keepSlash, i, 2, InLine, statements, buf);
          inLine := true;
          buf := buf + [ch, '-'];
          i := i + 2;
        } else if ch == '/' && nxt == Some('*') {
          OpenStep(sql, keepSlash, i, 2, InBlock, statements, buf);
          inBlock := true;
          buf := buf + [ch, '*'];
          i := i + 2;
        } else if ch == '\'' {
          OpenStep(sql, keepSlash, i, 1, InSingle, statements, buf);
          inSingle := true;
          buf := buf + [ch];
          i := i + 1;
        } else if ch == '"' {
          OpenStep(sql, keepSlash, i, 1, InDouble, statements, buf);
          inDouble := true;
          buf := buf + [ch];
          i := i + 1;
        } else if ch == '$' && TagLen(sql[i..]).Some? {
          var tag := sql[i..i + TagLen(sql[i..]).value];
          OpenStep(sql, keepSlash, i, |tag|, InDollar(tag), statements, buf);
          dollarTag := Some(tag);
          buf := buf + tag;
          i := i + |tag|;
        } else if ch == ';' {
          PlainStep(sql, keepSlash, i, Semicolon, statements, buf);
          statements := statements + Emit(Strip(buf));
          buf := "";
          i := i + 1;
        } else {
          PlainStep(sql, keepSlash, i, Plain, statements, buf);
          buf := buf + [ch];
          i := i + 1;
        }
      }
    }
    LastStep(sql, keepSlash, ModeOf(inSingle, inDouble, inLine, inBlock, dollarTag), statements, buf);
    statements := statements + Emit(Strip(buf));
  }
}
