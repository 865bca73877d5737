/** What parseDatum, parseList and parse promise on inputs that go wrong: the error
    reports, how many there are, and where parsing resumes. */
module ParserProps {
  import opened Wrappers
  import opened Numbers
  import opened Tokens
  import opened Diagnostics
  import opened Ast
  import opened ParserSpec
  import opened ParserSyntax
  import opened ParserSteps

  /** "unterminated list" is reported only when fatal_ is still clear, and sets it, so a
      second report never follows the first. */
  lemma UnterminatedOnce(inp: Stream, s: PState)
    ensures |Unterminated(inp, s).s.msgs| == |s.msgs| + (if s.fatal then 0 else 1)
    ensures !s.fatal ==> Unterminated(inp, s).s.msgs[|s.msgs|].msg == UNTERMINATED
    ensures Unterminated(inp, Unterminated(inp, s).s) == Unterminated(inp, s)
  {
  }

  /** All tokens from s on are openers "(". */
  predicate OpenersFrom(inp: Stream, s: PState)
  {
    forall i :: s.pos <= i < |inp.toks| ==> inp.toks[i].kind == LParen
  }

  /** An opener whose first element fails fatally fails the same way: the guarded
      "unterminated list" adds nothing. */
  lemma OpenerFails(inp: Stream, s: PState, n: nat, d: Parsed)
    requires Clean(inp) && !s.forced && s.pos < |inp.toks| && Cur(inp, s) == LParen && n + 2 < MAX_NESTING
    requires Cur(inp, Skip(s, 1)) != RParen && ParseDatum(inp, Skip(s, 1), n + 2) == d
    requires d.node.None? && d.s.fatal
    ensures ParseDatum(inp, s, n) == d
  {
    ParseDatumForm(inp, s, n, RParen);
    AdvanceClean(inp, s);
    ListFirstFails(inp, s, n + 1, RParen, Skip(s, 1), d);
  }

  /** However many lists are left open at the end of the input, parseDatum reports
      "unterminated list" once, at eof, and returns nullptr. */
  lemma {:induction false} UnclosedLists(inp: Stream, s: PState, n: nat)
    requires Clean(inp) && !s.forced && !s.fatal && s.pos < |inp.toks| && OpenersFrom(inp, s)
    requires n + 2 * (|inp.toks| - s.pos) + 1 < MAX_NESTING
    ensures ParseDatum(inp, s, n) == Unterminated(inp, s.(pos := |inp.toks|))
    decreases |inp.toks| - s.pos
  {
    var s1 := Skip(s, 1);
    if s1.pos == |inp.toks| {
      ParseDatumEof(inp, s1, n + 2);
      ParseDatumForm(inp, s, n, RParen);
      AdvanceClean(inp, s);
      ListFirstFails(inp, s, n + 1, RParen, s1, Parsed(s1, None));
    } else {
      UnclosedLists(inp, s1, n + 2);
      OpenerFails(inp, s, n, ParseDatum(inp, s1, n + 2));
    }
  }

  /** Only openers, without errors: one "unterminated list" at eof and no result. */
  lemma OnlyOpeners(inp: Stream, msgs0: seq<Diag>)
    requires Clean(inp) && 0 < |inp.toks| && OpenersFrom(inp, PState(0, false, msgs0, false))
    requires 2 * |inp.toks| + 1 < MAX_NESTING && !LimitReachedBy(inp.limit, msgs0)
    ensures Parse(inp, msgs0) == Outcome(msgs0 + [Diag(inp.eofAt, inp.eofAt, UNTERMINATED)], None)
  {
    var s0 := PState(0, false, msgs0, false);
    assert inp.toks[0].errs == [] && msgs0 + [] == msgs0;
    assert Start(inp, msgs0) == s0;
    UnclosedLists(inp, s0, 0);
    TopTurn(inp, s0, [], ParseDatum(inp, s0, 0));
  }

  /** The number of openers parseDatum at nesting_ == n goes through before a
      CHECK_NESTING fails: each opener costs two levels, one in parseDatum and one in
      parseList. */
  function OpenersToFail(n: nat): nat
  {
    if n + 1 >= MAX_NESTING then 0 else (MAX_NESTING - 1 - n) / 2
  }

  /** Too many openers: "too many nested expressions" is reported at the opener where
      the limit is reached, once, with fatal_ set; the enclosing lists add nothing. */
  lemma {:induction false} TooManyOpeners(inp: Stream, s: PState, n: nat)
    requires Clean(inp) && !s.forced && s.pos + OpenersToFail(n) < |inp.toks|
    requires forall i :: s.pos <= i <= s.pos + OpenersToFail(n) ==> inp.toks[i].kind == LParen
    ensures ParseDatum(inp, s, n) == TooDeep(inp, Skip(s, OpenersToFail(n)))
    decreases MAX_NESTING - n
  {
    if n + 1 >= MAX_NESTING {
      DatumTooDeep(inp, s, n);
    } else if n + 2 >= MAX_NESTING {
      ParseDatumForm(inp, s, n, RParen);
      ListTooDeep(inp, s, n + 1, RParen);
    } else {
      var s1 := Skip(s, 1);
      assert OpenersToFail(n + 2) + 1 == OpenersToFail(n);
      assert inp.toks[s.pos].kind == LParen && inp.toks[s1.pos].kind == LParen;
      TooManyOpeners(inp, s1, n + 2);
      OpenerFails(inp, s, n, ParseDatum(inp, s1, n + 2));
    }
  }

  /** 512 openers at the start of an input without lexical errors: parse() reports
      "too many nested expressions" at the 512th and nothing else, and returns None. */
  lemma NestingLimit(inp: Stream, msgs0: seq<Diag>)
    requires Clean(inp) && 512 <= |inp.toks| && !LimitReachedBy(inp.limit, msgs0)
    requires forall i :: 0 <= i < 512 ==> inp.toks[i].kind == LParen
    ensures Parse(inp, msgs0) == Outcome(msgs0 + [Diag(inp.toks[511].start, inp.toks[511].end, TOO_DEEP)], None)
  {
    var s0 := PState(0, false, msgs0, false);
    assert inp.toks[0].errs == [] && msgs0 + [] == msgs0;
    assert Start(inp, msgs0) == s0;
    assert OpenersToFail(0) == 511;
    TooManyOpeners(inp, s0, 0);
    TopTurn(inp, s0, [], ParseDatum(inp, s0, 0));
  }

  /** An unexpected token is reported, skipped, and parseDatum goes on to the datum
      after it. */
  lemma UnexpectedSkipped(inp: Stream, s: PState, n: nat, x: Syn, d: nat)
    requires Clean(inp) && !s.forced && Unexpected(Cur(inp, s))
    requires !LimitReachedBy(inp.limit, Report(inp, s, UNEXPECTED).msgs)
    requires WellFormed(x) && DepthAtMost(x, d) && n + 2 * d + 2 < MAX_NESTING
    requires At(inp, Skip(s, 1), Lexemes(x))
    ensures ParseDatum(inp, s, n) == Parsed(Skip(Report(inp, s, UNEXPECTED), 1 + |Lexemes(x)|), Some(Datum(x)))
  {
    var e := Report(inp, s, UNEXPECTED);
    var s1 := Skip(e, 1);
    AdvanceClean(inp, e);
    UnexpectedThenDatum(inp, s, n, s1);
    ParseDatumSyn(inp, s1, n, x, d);
  }

  /** A datum comment "#;" discards exactly the datum after it: parseDatum continues
      as if it began after that datum. */
  lemma DatumCommentSkipped(inp: Stream, s: PState, n: nat, x: Syn, d: nat)
    requires Clean(inp) && !s.forced && Cur(inp, s) == DatumComment
    requires WellFormed(x) && DepthAtMost(x, d) && n + 2 * d + 2 < MAX_NESTING
    requires At(inp, Skip(s, 1), Lexemes(x))
    ensures ParseDatum(inp, s, n) == ParseDatum(inp, Skip(s, 1 + |Lexemes(x)|), n)
  {
    var s1 := Skip(s, 1);
    var s2 := Skip(s1, |Lexemes(x)|);
    assert s2 == Skip(s, 1 + |Lexemes(x)|);
    AdvanceClean(inp, s);
    ParseDatumSyn(inp, s1, n + 1, x, d);
    CommentThenDatum(inp, s, n, s1, Parsed(s2, Some(Datum(x))));
  }

  /** skipDatumComments drops a datum comment and its datum the same way. */
  lemma CommentSkipped(inp: Stream, s: PState, n: nat, x: Syn, d: nat)
    requires Clean(inp) && !s.forced && Cur(inp, s) == DatumComment
    requires WellFormed(x) && DepthAtMost(x, d) && n + 2 * d + 1 < MAX_NESTING
    requires At(inp, Skip(s, 1), Lexemes(x))
    ensures SkipComments(inp, s, n) == SkipComments(inp, Skip(s, 1 + |Lexemes(x)|), n)
  {
    var s1 := Skip(s, 1);
    var s2 := Skip(s1, |Lexemes(x)|);
    assert s2 == Skip(s, 1 + |Lexemes(x)|);
    AdvanceClean(inp, s);
    ParseDatumSyn(inp, s1, n, x, d);
    CommentsStep(inp, s, n, s1, Parsed(s2, Some(Datum(x))));
  }

  /** A token of kind k at byte offset `at`, one byte long, without errors. */
  function Tok(k: TokenKind, at: int, name: seq<byte>): Lexeme
  {
    Lexeme(k, at, at + 1, name, DefaultNumber(), [])
  }

  /** The tokens of "(a . b c)". */
  function DottedTwo(): Stream
  {
    Stream([Tok(LParen, 0, []), Tok(Ident, 1, [97]), Tok(Period, 3, []), Tok(Ident, 5, [98]),
            Tok(Ident, 7, [99]), Tok(RParen, 8, [])], 9, 0)
  }

  /** In "(a . b c)": b is read after the period, and no datum comment follows it. */
  lemma DottedTwoLast()
    ensures Advance(DottedTwo(), PState(2, false, [], false)) == PState(3, false, [], false)
    ensures ParseDatum(DottedTwo(), PState(3, false, [], false), 2) == Parsed(PState(4, false, [], false), Some(Symbol([98])))
    ensures SkipComments(DottedTwo(), PState(4, false, [], false), 2) == Skipped(PState(4, false, [], false), false)
  {
    var inp := DottedTwo();
    var s3 := PState(3, false, [], false);
    DatumEnter(inp, s3, 2);
    LoopLeaf(inp, s3, 3, Symbol([98]));
    CommentsEnd(inp, PState(4, false, [], false), 2);
  }

  /** In "(a . b c)": "list terminator expected" is reported at c, and c is parsed and
      dropped up to the closer. */
  lemma DottedTwoSkip()
    ensures Report(DottedTwo(), PState(4, false, [], false), TERMINATOR_EXPECTED)
      == PState(4, false, [Diag(7, 8, TERMINATOR_EXPECTED)], false)
    ensures SkipToClose(DottedTwo(), PState(4, false, [Diag(7, 8, TERMINATOR_EXPECTED)], false), 2, RParen)
      == Skipped(PState(5, false, [Diag(7, 8, TERMINATOR_EXPECTED)], false), false)
  {
    var inp := DottedTwo();
    var e := [Diag(7, 8, TERMINATOR_EXPECTED)];
    var e4 := PState(4, false, e, false);
    var e5 := PState(5, false, e, false);
    DatumEnter(inp, e4, 2);
    LoopLeaf(inp, e4, 3, Symbol([99]));
    CloseStep(inp, e4, 2, RParen, Parsed(e5, Some(Symbol([99]))));
    CloseEnd(inp, e5, 2, RParen);
  }

  /** The period branch in "(a . b c)". */
  lemma DottedTwoTail()
    ensures DottedTail(DottedTwo(), PState(2, false, [], false), 2, RParen, [Symbol([97])])
      == Parsed(PState(6, false, [Diag(7, 8, TERMINATOR_EXPECTED)], false), Some(Cons(Symbol([97]), Symbol([98]))))
  {
    var inp := DottedTwo();
    var e := [Diag(7, 8, TERMINATOR_EXPECTED)];
    var s4 := PState(4, false, [], false);
    DottedTwoLast();
    DottedTwoSkip();
    DottedSkip(inp, PState(2, false, [], false), 2, RParen, [Symbol([97])], PState(3, false, [], false),
      Parsed(s4, Some(Symbol([98]))), Skipped(s4, false), PState(4, false, e, false), Skipped(PState(5, false, e, false), false));
  }

  /** In "(a . b c)": the opener, then a, and no datum comment after it. */
  lemma DottedTwoFirst()
    ensures Advance(DottedTwo(), PState(0, false, [], false)) == PState(1, false, [], false)
    ensures ParseDatum(DottedTwo(), PState(1, false, [], false), 2) == Parsed(PState(2, false, [], false), Some(Symbol([97])))
    ensures SkipComments(DottedTwo(), PState(2, false, [], false), 2) == Skipped(PState(2, false, [], false), false)
  {
    var inp := DottedTwo();
    var s1 := PState(1, false, [], false);
    DatumEnter(inp, s1, 2);
    LoopLeaf(inp, s1, 3, Symbol([97]));
    CommentsEnd(inp, PState(2, false, [], false), 2);
  }

  /** "(a . b c)": "list terminator expected" is reported at c, c is skipped, and the
      list read is (a . b). */
  lemma DottedTwoDatum()
    ensures ParseDatum(DottedTwo(), PState(0, false, [], false), 0)
      == Parsed(PState(6, false, [Diag(7, 8, TERMINATOR_EXPECTED)], false), Some(Cons(Symbol([97]), Symbol([98]))))
  {
    var inp := DottedTwo();
    var s0 := PState(0, false, [], false);
    var s1 := PState(1, false, [], false);
    var s2 := PState(2, false, [], false);
    DottedTwoFirst();
    DottedTwoTail();
    DatumEnter(inp, s0, 0);
    LoopList(inp, s0, 1, RParen);
    ListFirst(inp, s0, 1, RParen, s1, Parsed(s2, Some(Symbol([97]))), Skipped(s2, false));
    LoopDotted(inp, s2, 2, RParen, [Symbol([97])]);
  }

  /** "(a . b c)": the report makes parse() return None. */
  lemma TerminatorExpected()
    ensures Parse(DottedTwo(), []) == Outcome([Diag(7, 8, TERMINATOR_EXPECTED)], None)
  {
    var inp := DottedTwo();
    var s0 := PState(0, false, [], false);
    var e6 := PState(6, false, [Diag(7, 8, TERMINATOR_EXPECTED)], false);
    var l := Parsed(e6, Some(Cons(Symbol([97]), Symbol([98]))));
    DottedTwoDatum();
    assert Start(inp, []) == s0;
    TopTurn(inp, s0, [], l);
    DatumEnter(inp, e6, 0);
    LoopEof(inp, e6, 1);
    TopTurn(inp, e6, [l.node.value], Parsed(e6, None));
  }

  /** The tokens of "(]". */
  function Mismatched(): Stream
  {
    Stream([Tok(LParen, 0, []), Tok(RSquare, 1, [])], 2, 0)
  }

  /** "(" is closed only by ")": in "(]" the "]" is an unexpected token, and the list
      is then unterminated. */
  lemma MismatchedCloser()
    ensures Parse(Mismatched(), [])
      == Outcome([Diag(1, 2, UNEXPECTED), Diag(2, 2, UNTERMINATED)], None)
  {
    var inp := Mismatched();
    var u := [Diag(1, 2, UNEXPECTED)];
    var s0 := PState(0, false, [], false);
    var s1 := PState(1, false, [], false);
    var u1 := PState(1, false, u, false);
    var u2 := PState(2, false, u, false);
    var f := PState(2, false, u + [Diag(2, 2, UNTERMINATED)], true);
    assert Advance(inp, s0) == s1;
    assert Report(inp, s1, UNEXPECTED) == u1 && Advance(inp, u1) == u2;
    DatumEnter(inp, s0, 0);
    LoopList(inp, s0, 1, RParen);
    DatumEnter(inp, s1, 2);
    LoopUnexpected(inp, s1, 3, u2);
    LoopEof(inp, u2, 3);
    ListFirstFails(inp, s0, 1, RParen, s1, Parsed(u2, None));
    assert Unterminated(inp, u2) == Parsed(f, None);
    assert Start(inp, []) == s0;
    TopTurn(inp, s0, [], Parsed(f, None));
  }

  /** A one-token input whose token the lexer reported an error for, such as "1e"
      with "invalid number: missing exponent". */
  function BadFirstToken(d: Diag, v: Number): Stream
  {
    Stream([Lexeme(NumLit, 0, 2, [], v, [d])], 2, 0)
  }

  /** As written, parseDatums returns the list although the lexer reported an error:
      the error was logged by the constructor's advance(), before parse() counted. With
      the count taken first, the result is None. */
  lemma FirstTokenErrorIgnored(d: Diag, v: Number)
    ensures ParseAsWritten(BadFirstToken(d, v), []) == Outcome([d], Some(List([Num(v)])))
    ensures Parse(BadFirstToken(d, v), []) == Outcome([d], None)
  {
    var inp := BadFirstToken(d, v);
    var s0 := PState(0, false, [d], false);
    var s1 := PState(1, false, [d], false);
    assert Start(inp, []) == s0;
    DatumEnter(inp, s0, 0);
    LoopLeaf(inp, s0, 1, Num(v));
    TopTurn(inp, s0, [], Parsed(s1, Some(Num(v))));
    DatumEnter(inp, s1, 0);
    LoopEof(inp, s1, 1);
    TopTurn(inp, s1, [Num(v)], Parsed(s1, None));
  }
}
