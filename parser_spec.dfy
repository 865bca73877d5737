/** The datum parser of DatumParser.cpp, as functions over an abstract token stream.

    The lexer is seen through what the parser uses of it: the current token, advance(),
    error() and the shared error log. A stream is the sequence of tokens advance()
    delivers before the end of the input; each token carries the diagnostics the lexer
    reported while scanning it, which reach the log when the token becomes current. Once
    the error limit is reached (by the lexer or by the parser's own error() calls) the
    lexer's pointer is at the end, so the next advance() yields eof. */
module ParserSpec {
  import opened Wrappers
  import opened Numbers
  import opened Tokens
  import opened Diagnostics
  import opened Ast

  /** DatumParser::MAX_NESTING. */
  const MAX_NESTING: nat := 1024

  const TOO_DEEP: string := "too many nested expressions"
  const UNEXPECTED: string := "unexpected token"
  const TERMINATOR_EXPECTED: string := "list terminator expected"
  const UNTERMINATED: string := "unterminated list"

  /** One token as advance() leaves it in lex_.token, with the errors scanning it reported. */
  datatype Lexeme = Lexeme(kind: TokenKind, start: int, end: int, ident: seq<byte>, number: Number, errs: seq<Diag>)

  /** The tokens before the end of the input, the location of the eof token, and the
      error limit of the shared log. */
  datatype Stream = Stream(toks: seq<Lexeme>, eofAt: int, limit: nat)

  /** The parser's view of its state: the index of lex_.token in the stream, whether the
      lexer has been forced to the end, the error log, and DatumParser::fatal_. */
  datatype PState = PState(pos: nat, forced: bool, msgs: seq<Diag>, fatal: bool)

  /** The tokens not yet consumed, the current one included. */
  function Rem(inp: Stream, s: PState): nat
  {
    if s.pos < |inp.toks| then |inp.toks| - s.pos else 0
  }

  /** lex_.token.getKind(). */
  function Cur(inp: Stream, s: PState): TokenKind
  {
    if s.pos < |inp.toks| then inp.toks[s.pos].kind else Eof
  }

  /** lex_.token itself; only called on a token before the end. */
  function Token(inp: Stream, s: PState): Lexeme
    requires s.pos < |inp.toks|
  {
    inp.toks[s.pos]
  }

  /** The current token becomes visible: the errors reported while scanning it are
      logged, and reaching the limit by them forces the end. */
  function Arrive(inp: Stream, s: PState): (r: PState)
    requires s.pos < |inp.toks|
    ensures r.pos == s.pos && r.fatal == s.fatal && r.msgs == s.msgs + inp.toks[s.pos].errs
  {
    var e := inp.toks[s.pos].errs;
    var m := s.msgs + e;
    s.(msgs := m, forced := s.forced || (e != [] && LimitReachedBy(inp.limit, m)))
  }

  /** lex_.advance(): at the end it stays at eof; when forced it moves to the end;
      otherwise the next token becomes current. */
  function Advance(inp: Stream, s: PState): (r: PState)
    ensures s.pos < |inp.toks| ==> Rem(inp, r) < Rem(inp, s)
    ensures s.pos >= |inp.toks| ==> r == s
    ensures s.msgs <= r.msgs && r.fatal == s.fatal
    ensures !s.forced && s.pos < |inp.toks| ==> r.pos == s.pos + 1
  {
    if s.pos >= |inp.toks| then s
    else if s.forced then s.(pos := |inp.toks|)
    else if s.pos + 1 < |inp.toks| then Arrive(inp, s.(pos := s.pos + 1))
    else s.(pos := s.pos + 1)
  }

  /** lex_.error(msg): report at the current token's range; once the limit is reached,
      forceEOF(). */
  function Report(inp: Stream, s: PState, msg: string): (r: PState)
    ensures r.pos == s.pos && r.fatal == s.fatal
    ensures r.msgs == s.msgs + [Diag(TokStart(inp, s), TokEnd(inp, s), msg)]
    ensures r.forced == (s.forced || LimitReachedBy(inp.limit, r.msgs))
  {
    var m := s.msgs + [Diag(TokStart(inp, s), TokEnd(inp, s), msg)];
    s.(msgs := m, forced := s.forced || LimitReachedBy(inp.limit, m))
  }

  function TokStart(inp: Stream, s: PState): int
  {
    if s.pos < |inp.toks| then inp.toks[s.pos].start else inp.eofAt
  }

  function TokEnd(inp: Stream, s: PState): int
  {
    if s.pos < |inp.toks| then inp.toks[s.pos].end else inp.eofAt
  }

  /** The state after the DatumParser constructor's first lex_.advance(). */
  function Start(inp: Stream, msgs0: seq<Diag>): (r: PState)
    ensures r.pos == 0 && !r.fatal && msgs0 <= r.msgs
  {
    var s := PState(0, false, msgs0, false);
    if |inp.toks| > 0 then Arrive(inp, s) else s
  }

  /** The result of parseDatum or parseList: the new state and the datum, None standing
      for nullptr. */
  datatype Parsed = Parsed(s: PState, node: Option<Node>)

  /** The result of skipDatumComments (stop is its return value) and of the loop that
      skips to the list's closer (stop when a datum in it failed). */
  datatype Skipped = Skipped(s: PState, stop: bool)

  /** Every step of the parser never un-consumes tokens, and a datum it returns
      consumed at least one. */
  predicate Keeps(inp: Stream, s: PState, r: PState)
  {
    Rem(inp, r) <= Rem(inp, s)
  }

  predicate Yields(inp: Stream, s: PState, r: Parsed)
  {
    Keeps(inp, s, r.s) && (r.node.Some? ==> Rem(inp, r.s) < Rem(inp, s))
  }

  /** CHECK_NESTING's failure: report, set fatal_ and return nullptr. */
  function TooDeep(inp: Stream, s: PState): (r: Parsed)
    ensures Yields(inp, s, r) && r.node.None? && r.s.fatal
  {
    Parsed(Report(inp, s, TOO_DEEP).(fatal := true), None)
  }

  /** The reportUnterminated label: the first time only, set fatal_ and report. */
  function Unterminated(inp: Stream, s: PState): (r: Parsed)
    ensures Yields(inp, s, r) && r.node.None? && r.s.fatal
    ensures s.fatal ==> r.s == s
  {
    if !s.fatal then Parsed(Report(inp, s.(fatal := true), UNTERMINATED), None)
    else Parsed(s, None)
  }

  /** parseDatum() called with nesting_ == n. CHECK_NESTING increments nesting_ first and
      fails when the new value reaches MAX_NESTING. */
  function ParseDatum(inp: Stream, s: PState, n: nat): (r: Parsed)
    ensures Yields(inp, s, r)
    decreases Rem(inp, s), 3
  {
    if n + 1 >= MAX_NESTING then TooDeep(inp, s)
    else DatumLoop(inp, s, n + 1)
  }

  /** The for(;;) loop of parseDatum, at nesting_ == n. */
  function DatumLoop(inp: Stream, s: PState, n: nat): (r: Parsed)
    ensures Yields(inp, s, r)
    decreases Rem(inp, s), 2
  {
    match Cur(inp, s)
    case Eof => Parsed(s, None)
    case DatumComment =>
      var c := ParseDatum(inp, Advance(inp, s), n);
      if c.node.None? then Parsed(c.s, None) else DatumLoop(inp, c.s, n)
    case NumLit => Parsed(Advance(inp, s), Some(Num(Token(inp, s).number)))
    case Ident => Parsed(Advance(inp, s), Some(Symbol(Token(inp, s).ident)))
    case LParen => ParseList(inp, s, n, RParen)
    case LSquare => ParseList(inp, s, n, RSquare)
    case _ => DatumLoop(inp, Advance(inp, Report(inp, s, UNEXPECTED)), n)
  }

  /** parseList(closing) called with nesting_ == n, at the opening token. */
  function ParseList(inp: Stream, s: PState, n: nat, closing: TokenKind): (r: Parsed)
    requires s.pos < |inp.toks|
    ensures Yields(inp, s, r)
    decreases Rem(inp, s), 1
  {
    if n + 1 >= MAX_NESTING then TooDeep(inp, s)
    else
      var m := n + 1;
      var s1 := Advance(inp, s);
      if Cur(inp, s1) == closing then Parsed(Advance(inp, s1), Some(Null))
      else
        var d := ParseDatum(inp, s1, m);
        if d.node.None? then Unterminated(inp, d.s)
        else
          var c := SkipComments(inp, d.s, m);
          if c.stop then Parsed(c.s, None)
          else ListLoop(inp, c.s, m, closing, [d.node.value])
  }

  /** skipDatumComments at nesting_ == n. */
  function SkipComments(inp: Stream, s: PState, n: nat): (r: Skipped)
    ensures Keeps(inp, s, r.s)
    decreases Rem(inp, s), 0
  {
    if Cur(inp, s) != DatumComment then Skipped(s, false)
    else
      var d := ParseDatum(inp, Advance(inp, s), n);
      if d.node.None? then Skipped(d.s, d.s.fatal) else SkipComments(inp, d.s, n)
  }

  /** The while loop of parseList after its first element, which has collected `items`
      so far; the dotted branch ends it. */
  function ListLoop(inp: Stream, s: PState, n: nat, closing: TokenKind, items: seq<Node>): (r: Parsed)
    ensures Keeps(inp, s, r.s)
    decreases Rem(inp, s), 4
  {
    if Cur(inp, s) == closing then Parsed(Advance(inp, s), Some(ListWithTail(items, Null)))
    else if Cur(inp, s) == Period then DottedTail(inp, s, n, closing, items)
    else
      var d := ParseDatum(inp, s, n);
      if d.node.None? then Unterminated(inp, d.s)
      else
        var c := SkipComments(inp, d.s, n);
        if c.stop then Parsed(c.s, None)
        else ListLoop(inp, c.s, n, closing, items + [d.node.value])
  }

  /** The period branch of parseList's loop: the datum after the period becomes the last
      cdr; anything but the closer after it is reported and skipped. */
  function DottedTail(inp: Stream, s: PState, n: nat, closing: TokenKind, items: seq<Node>): (r: Parsed)
    requires Cur(inp, s) == Period
    ensures Keeps(inp, s, r.s)
    decreases Rem(inp, s), 0
  {
    var d := ParseDatum(inp, Advance(inp, s), n);
    if d.node.None? then Unterminated(inp, d.s)
    else
      var c := SkipComments(inp, d.s, n);
      if c.stop then Parsed(c.s, None)
      else if Cur(inp, c.s) == closing then
        Parsed(Advance(inp, c.s), Some(ListWithTail(items, d.node.value)))
      else
        var k := SkipToClose(inp, Report(inp, c.s, TERMINATOR_EXPECTED), n, closing);
        if k.stop then Parsed(k.s, None)
        else Parsed(Advance(inp, k.s), Some(ListWithTail(items, d.node.value)))
  }

  /** After "list terminator expected": parse and drop datums until eof or the closer. */
  function SkipToClose(inp: Stream, s: PState, n: nat, closing: TokenKind): (r: Skipped)
    ensures Keeps(inp, s, r.s)
    ensures !r.stop ==> Cur(inp, r.s) == Eof || Cur(inp, r.s) == closing
    decreases Rem(inp, s), 4
  {
    if Cur(inp, s) == Eof || Cur(inp, s) == closing then Skipped(s, false)
    else
      var d := ParseDatum(inp, s, n);
      if d.node.None? then Skipped(d.s, true) else SkipToClose(inp, d.s, n, closing)
  }

  /** The top-level loop of parse(): the datums read until parseDatum returns nullptr. */
  datatype Top = Top(s: PState, items: seq<Node>)

  function TopLoop(inp: Stream, s: PState, items: seq<Node>): (r: Top)
    ensures Keeps(inp, s, r.s) && items <= r.items
    decreases Rem(inp, s)
  {
    var d := ParseDatum(inp, s, 0);
    if d.node.None? then Top(d.s, items) else TopLoop(inp, d.s, items + [d.node.value])
  }

  /** The parser only appends to the error log and never clears fatal_. */
  predicate Extends(s: PState, r: PState)
  {
    s.msgs <= r.msgs && (s.fatal ==> r.fatal)
  }

  /** Extends, and fatal_ is unchanged when a datum was returned. */
  predicate Logged(s: PState, r: Parsed)
  {
    Extends(s, r.s) && (r.node.Some? ==> r.s.fatal == s.fatal)
  }

  /** Extends, and fatal_ is unchanged when the skipping did not stop. */
  predicate Skips(s: PState, r: Skipped)
  {
    Extends(s, r.s) && (!r.stop ==> r.s.fatal == s.fatal)
  }

  /** parseDatum extends the log; when it returns a datum, fatal_ is as it was. */
  lemma {:induction false} ParseDatumLog(inp: Stream, s: PState, n: nat)
    ensures Logged(s, ParseDatum(inp, s, n))
    decreases Rem(inp, s), 3
  {
    if n + 1 < MAX_NESTING {
      DatumLoopLog(inp, s, n + 1);
    }
  }

  lemma {:induction false} DatumLoopLog(inp: Stream, s: PState, n: nat)
    ensures Logged(s, DatumLoop(inp, s, n))
    decreases Rem(inp, s), 2
  {
    var k := Cur(inp, s);
    if k == DatumComment {
      DatumCommentLog(inp, s, n);
    } else if k == LParen {
      ParseListLog(inp, s, n, RParen);
    } else if k == LSquare {
      ParseListLog(inp, s, n, RSquare);
    } else if k != Eof && k != NumLit && k != Ident {
      DatumLoopLog(inp, Advance(inp, Report(inp, s, UNEXPECTED)), n);
    }
  }

  /** The datum-comment branch of parseDatum's loop. */
  lemma {:induction false} DatumCommentLog(inp: Stream, s: PState, n: nat)
    requires Cur(inp, s) == DatumComment
    ensures Logged(s, DatumLoop(inp, s, n))
    decreases Rem(inp, s), 1
  {
    var a := Advance(inp, s);
    ParseDatumLog(inp, a, n);
    var c := ParseDatum(inp, a, n);
    if c.node.Some? {
      DatumLoopLog(inp, c.s, n);
    }
  }

  lemma {:induction false} ParseListLog(inp: Stream, s: PState, n: nat, closing: TokenKind)
    requires s.pos < |inp.toks|
    ensures Logged(s, ParseList(inp, s, n, closing))
    decreases Rem(inp, s), 1
  {
    if n + 1 < MAX_NESTING {
      var m := n + 1;
      var s1 := Advance(inp, s);
      if Cur(inp, s1) != closing {
        ParseDatumLog(inp, s1, m);
        var d := ParseDatum(inp, s1, m);
        if d.node.Some? {
          SkipCommentsLog(inp, d.s, m);
          var c := SkipComments(inp, d.s, m);
          if !c.stop {
            ListLoopLog(inp, c.s, m, closing, [d.node.value]);
            assert ParseList(inp, s, n, closing) == ListLoop(inp, c.s, m, closing, [d.node.value]);
          }
        }
      }
    }
  }

  lemma {:induction false} SkipCommentsLog(inp: Stream, s: PState, n: nat)
    ensures Skips(s, SkipComments(inp, s, n))
    decreases Rem(inp, s), 0
  {
    if Cur(inp, s) == DatumComment {
      var a := Advance(inp, s);
      ParseDatumLog(inp, a, n);
      var d := ParseDatum(inp, a, n);
      if d.node.Some? {
        SkipCommentsLog(inp, d.s, n);
      }
    }
  }

  lemma {:induction false} ListLoopLog(inp: Stream, s: PState, n: nat, closing: TokenKind, items: seq<Node>)
    ensures Logged(s, ListLoop(inp, s, n, closing, items))
    decreases Rem(inp, s), 4
  {
    if Cur(inp, s) == closing {
    } else if Cur(inp, s) == Period {
      DottedTailLog(inp, s, n, closing, items);
    } else {
      ParseDatumLog(inp, s, n);
      var d := ParseDatum(inp, s, n);
      if d.node.Some? {
        SkipCommentsLog(inp, d.s, n);
        var c := SkipComments(inp, d.s, n);
        if !c.stop {
          ListLoopLog(inp, c.s, n, closing, items + [d.node.value]);
        }
      }
    }
  }

  lemma {:induction false} DottedTailLog(inp: Stream, s: PState, n: nat, closing: TokenKind, items: seq<Node>)
    requires Cur(inp, s) == Period
    ensures Logged(s, DottedTail(inp, s, n, closing, items))
    decreases Rem(inp, s), 0
  {
    var a := Advance(inp, s);
    ParseDatumLog(inp, a, n);
    var d := ParseDatum(inp, a, n);
    if d.node.Some? {
      SkipCommentsLog(inp, d.s, n);
      var c := SkipComments(inp, d.s, n);
      if !c.stop && Cur(inp, c.s) != closing {
        var e := Report(inp, c.s, TERMINATOR_EXPECTED);
        SkipToCloseLog(inp, e, n, closing);
        var k := SkipToClose(inp, e, n, closing);
        assert DottedTail(inp, s, n, closing, items).s == (if k.stop then k.s else Advance(inp, k.s));
      }
    }
  }

  lemma {:induction false} SkipToCloseLog(inp: Stream, s: PState, n: nat, closing: TokenKind)
    ensures Skips(s, SkipToClose(inp, s, n, closing))
    decreases Rem(inp, s), 4
  {
    if Cur(inp, s) != Eof && Cur(inp, s) != closing {
      ParseDatumLog(inp, s, n);
      var d := ParseDatum(inp, s, n);
      if d.node.Some? {
        SkipToCloseLog(inp, d.s, n, closing);
      }
    }
  }

  lemma {:induction false} TopLoopLog(inp: Stream, s: PState, items: seq<Node>)
    ensures Extends(s, TopLoop(inp, s, items).s)
    decreases Rem(inp, s)
  {
    ParseDatumLog(inp, s, 0);
    var d := ParseDatum(inp, s, 0);
    if d.node.Some? {
      TopLoopLog(inp, d.s, items + [d.node.value]);
    }
  }

  /** What parseDatums leaves behind: the error log and the result. */
  datatype Outcome = Outcome(msgs: seq<Diag>, result: Option<Node>)

  /** parseDatums as written: the error count is taken inside parse(), after the
      constructor has already scanned the first token. */
  function ParseAsWritten(inp: Stream, msgs0: seq<Diag>): (o: Outcome)
    ensures var s0 := Start(inp, msgs0);
      o.result.Some? <==> !LimitReachedBy(inp.limit, s0.msgs) && o.msgs == s0.msgs
  {
    var s0 := Start(inp, msgs0);
    if LimitReachedBy(inp.limit, s0.msgs) then Outcome(s0.msgs, None)
    else
      var t := TopLoop(inp, s0, []);
      TopLoopLog(inp, s0, []);
      if |t.s.msgs| != |s0.msgs| then Outcome(t.s.msgs, None)
      else Outcome(t.s.msgs, Some(List(t.items)))
  }

  /** parseDatums with the error count taken before the first token is scanned: a
      result only when no error at all was reported while reading the input. */
  function Parse(inp: Stream, msgs0: seq<Diag>): (o: Outcome)
    ensures msgs0 <= o.msgs
    ensures o.result.Some? <==> !LimitReachedBy(inp.limit, msgs0) && o.msgs == msgs0
    ensures o.result.Some? ==> Proper(o.result.value)
  {
    var s0 := Start(inp, msgs0);
    if LimitReachedBy(inp.limit, s0.msgs) then Outcome(s0.msgs, None)
    else
      var t := TopLoop(inp, s0, []);
      TopLoopLog(inp, s0, []);
      if |t.s.msgs| != |msgs0| then Outcome(t.s.msgs, None)
      else
        ListContents(t.items);
        Outcome(t.s.msgs, Some(List(t.items)))
  }

  /** When the first token carries no diagnostic, the corrected count and the count as
      written agree: the two differ only on an error reported with the first token. */
  lemma ParseAgreesWithoutFirstTokenErrors(inp: Stream, msgs0: seq<Diag>)
    requires |inp.toks| == 0 || inp.toks[0].errs == []
    ensures Parse(inp, msgs0) == ParseAsWritten(inp, msgs0)
  {
    assert Start(inp, msgs0).msgs == msgs0;
  }

  /** An error on the first token makes the corrected parse return no result. */
  lemma FirstTokenErrorFails(inp: Stream, msgs0: seq<Diag>)
    requires |inp.toks| > 0 && inp.toks[0].errs != []
    ensures Parse(inp, msgs0).result.None?
  {
    var s0 := Start(inp, msgs0);
    assert |s0.msgs| > |msgs0|;
    TopLoopLog(inp, s0, []);
  }
}
