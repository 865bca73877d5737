/** What advance() guarantees, and what it does on the inputs it does not expect. */
module LexerProps {
  import opened Wrappers
  import opened Numbers
  import opened CharClass
  import opened Tokens
  import opened Diagnostics
  import opened LexerSpec

  /** The generated table has the shape the lexer relies on. */
  lemma CharTableShape()
    ensures TableShape(CharTable())
  {
    assert CharFlags(0) == 0;
  }

  /** The cursor never moves back and reported errors are never taken back. */
  predicate Moves(s: LexState, r: LexState)
  {
    s.cur <= r.cur && s.msgs <= r.msgs
  }

  /** A token is scanned: it lies between `from` and the new cursor, it has a kind
      the lexer produces, an identifier's text is its source range, and the end of
      input is only ever reported at the terminator. */
  predicate Sound(inp: Input, from: int, r: LexState)
    requires WellFormed(inp)
  {
    r.status == Running ==>
      0 <= from <= r.tok.start <= r.tok.end <= r.cur <= End(inp)
      && r.tok.kind != NoKind && r.tok.kind != DatumComment
      && (r.tok.kind == Ident ==> r.tok.ident == inp.buf[r.tok.start..r.tok.end])
      && (r.tok.kind == Eof ==> r.tok.start == r.cur == End(inp))
  }

  /** skipUntilDelimiter leaves the token alone, stops at a delimiter or the end of the
      input, and reports at most one error: exactly when it did not start at either. */
  lemma SkipFacts(inp: Input, s: LexState)
    requires WellFormed(inp) && 0 <= s.cur <= End(inp)
    ensures var r := SkipUntilDelimiter(inp, s);
      r.tok == s.tok && Moves(s, r) && (r.status == s.status || r.status == Overrun)
      && (r.status != Overrun ==> r.cur <= End(inp) && (r.cur == End(inp) || TestDelimiter(inp.tab[inp.buf[r.cur]])))
      && (r.msgs == s.msgs <==> TestDelimiter(inp.tab[inp.buf[s.cur]]) || s.cur == End(inp))
      && |r.msgs| <= |s.msgs| + 1
  {
  }

  lemma FinishIdentifierSound(inp: Input, s: LexState, end: int)
    requires WellFormed(inp) && 0 <= s.cur <= end <= End(inp) && s.tok.start == s.cur
    ensures Moves(s, FinishIdentifier(inp, s, end)) && Sound(inp, s.cur, FinishIdentifier(inp, s, end))
  {
    var s1 := s.(cur := end, tok := s.tok.(end := end, kind := Ident, ident := inp.buf[s.cur..end]));
    SkipFacts(inp, s1);
  }

  lemma NumberSound(inp: Input, s: LexState, start: int, exact: Option<bool>, sign: int)
    requires WellFormed(inp) && 0 <= s.cur <= s.tok.start <= start <= End(inp) && sign != 0
    ensures var r := ParseNumberDigits(inp, s, start, exact, sign);
      Moves(s, r) && Sound(inp, s.cur, r) && (r.status == Running ==> r.tok.kind == NumLit)
  {
    match ScanNumber(inp.buf, inp.tab, start)
    case MissingExponent(q) =>
      var s1 := s.(cur := q, tok := s.tok.(end := q, kind := NumLit, number := MakeInexact(0)));
      var s2 := LexerSpec.Error(inp, s1, Diag(s1.tok.start, q, MISSING_EXPONENT));
      SkipFacts(inp, s2);
    case Scanned(p, isReal) =>
      FinishNumberSound(inp, s, start, p, isReal, exact, sign);
  }

  lemma FinishNumberSound(inp: Input, s: LexState, start: int, p: int, isReal: bool, exact: Option<bool>, sign: int)
    requires WellFormed(inp) && 0 <= s.cur <= s.tok.start <= start <= p <= End(inp) && sign != 0
    requires ScanNumber(inp.buf, inp.tab, start) == Scanned(p, isReal)
    ensures var r := FinishNumber(inp, s, start, p, isReal, exact, sign);
      Moves(s, r) && Sound(inp, s.cur, r) && (r.status == Running ==> r.tok.kind == NumLit)
  {
    var s1 := s.(cur := p, tok := s.tok.(end := p));
    var isExact := if exact.Some? then exact.value else !isReal;
    var str := inp.buf[start..p];
    var (s2, n) :=
      if isReal && isExact then
        (LexerSpec.Error(inp, s1, Diag(s1.tok.start, p, REAL_NOT_EXACT)), MakeExact(0))
      else if !isExact then
        (s1, MakeInexact(InexactResult(inp.toDouble(str), sign)))
      else
        var v := RunValue(inp.buf, inp.tab, start);
        (if v < TWO_64 then s1 else LexerSpec.Error(inp, s1, Diag(s1.tok.start, p, EXACT_OVERFLOW)),
         Number(ExactKind, ExactResult(v, sign)));
    assert p <= s2.cur <= End(inp) && s.msgs <= s2.msgs;
    SkipFacts(inp, s2.(tok := s2.tok.(kind := NumLit, number := n)));
  }

  lemma PeculiarSound(inp: Input, s: LexState)
    requires WellFormed(inp) && 0 <= s.cur < End(inp)
    ensures var r := PeculiarCase(inp, s);
      Moves(s, r) && Sound(inp, s.cur, r)
  {
    var buf := inp.buf;
    var cur := s.cur;
    var s1 := s.(tok := s.tok.(start := cur));
    var e := cur + 1;
    if buf[cur] as char == '.' {
      if !TestDotSubsequent(inp.tab[buf[e]]) {
        if IsDigitByte(buf[e]) {
          NumberSound(inp, s1, cur, Some(false), 1);
        }
      } else {
        FinishIdentifierSound(inp, s1, RunEnd(buf, inp.tab, e + 1, Subsequents));
      }
    } else {
      SignSound(inp, s1);
    }
  }

  lemma SignSound(inp: Input, s: LexState)
    requires WellFormed(inp) && 0 <= s.cur < End(inp) && s.tok.start == s.cur
    ensures var r := SignCase(inp, s);
      Moves(s, r) && Sound(inp, s.cur, r)
  {
    var buf := inp.buf;
    var cur := s.cur;
    var e := cur + 1;
    if buf[e] as char == '.' {
      var e2 := e + 1;
      if !TestDotSubsequent(inp.tab[buf[e2]]) {
        if IsDigitByte(buf[e2]) {
          NumberSound(inp, s, cur + 1, Some(false), SignOf(buf[cur]));
        } else {
          FinishIdentifierSound(inp, s, e2);
        }
      } else {
        FinishIdentifierSound(inp, s, RunEnd(buf, inp.tab, e2 + 1, Subsequents));
      }
    } else if TestSignSubsequent(inp.tab[buf[e]]) {
      FinishIdentifierSound(inp, s, RunEnd(buf, inp.tab, e + 1, Subsequents));
    } else if IsDigitByte(buf[e]) {
      NumberSound(inp, s, e, None, SignOf(buf[cur]));
    } else {
      FinishIdentifierSound(inp, s, e);
    }
  }

  lemma InitialSound(inp: Input, s: LexState)
    requires WellFormed(inp) && 0 <= s.cur < End(inp)
    ensures Moves(s, InitialCase(inp, s)) && Sound(inp, s.cur, InitialCase(inp, s))
  {
    FinishIdentifierSound(inp, s.(tok := s.tok.(start := s.cur)), RunEnd(inp.buf, inp.tab, s.cur + 1, Subsequents));
  }

  lemma OtherSound(inp: Input, s: LexState, flags: bv8)
    requires WellFormed(inp) && 0 <= s.cur < |inp.buf| && FlagsFor(inp.buf, inp.tab, s.cur, flags)
    requires !(1 <= GetClass(flags) <= 5) && s.status == Running
    ensures match OtherStep(inp, s, flags)
      case Done(r) => Moves(s, r) && Sound(inp, s.cur, r)
      case Continue(next, _) => Moves(s, next) && next.status == Running
  {
  }

  /** What one iteration leaves: a sound token, or a later position to go on from. */
  lemma StepSound(inp: Input, s: LexState, flags: bv8)
    requires WellFormed(inp) && 0 <= s.cur < |inp.buf| && FlagsFor(inp.buf, inp.tab, s.cur, flags)
    requires s.status == Running
    ensures match Step(inp, s, flags)
      case Done(r) => Moves(s, r) && Sound(inp, s.cur, r)
      case Continue(next, _) => Moves(s, next) && next.status == Running
  {
    FlagsClass(inp.buf, inp.tab, s.cur, flags);
    var c := GetClass(flags);
    if c == InitialClass {
      InitialSound(inp, s);
    } else if c == PeculiarIdentClass {
      PeculiarSound(inp, s);
    } else if c == DigitClass {
      NumberSound(inp, s.(tok := s.tok.(start := s.cur)), s.cur, None, 1);
    } else if !(1 <= c <= 5) {
      OtherSound(inp, s, flags);
    }
  }

  /** The loop ends in a sound token or stops the model. */
  lemma {:induction false} LoopSound(inp: Input, s: LexState, flags: bv8)
    requires WellFormed(inp) && 0 <= s.cur && FlagsFor(inp.buf, inp.tab, s.cur, flags)
    requires s.status == Running
    ensures Moves(s, Loop(inp, s, flags)) && Sound(inp, s.cur, Loop(inp, s, flags))
    decreases |inp.buf| - s.cur
  {
    if s.cur < |inp.buf| {
      StepSound(inp, s, flags);
      match Step(inp, s, flags)
      case Done(r) =>
      case Continue(next, f) =>
        LoopSound(inp, next, f);
    }
  }

  /** advance() never moves the cursor back nor takes back an error, and when it
      completes it leaves a sound token that begins at or after the old cursor. */
  lemma AdvanceSound(inp: Input, s: LexState)
    requires WellFormed(inp) && 0 <= s.cur <= End(inp) && s.status == Running
    ensures Moves(s, Advance(inp, s)) && Sound(inp, s.cur, Advance(inp, s))
  {
    LoopSound(inp, s, inp.tab[inp.buf[s.cur]]);
  }
}
