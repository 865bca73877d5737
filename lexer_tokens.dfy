/** The token advance() produces for each kind of input, with the generated character
    table, including the inputs on which the lexer as written overruns its buffer or
    stops making progress. */
module LexerTokens {
  import opened Wrappers
  import opened Numbers
  import opened CharClass
  import opened Tokens
  import opened Diagnostics
  import opened LexerSpec

  /** The bytes of class 0 that the `default:` arm handles by itself. */
  predicate HandledOther(b: byte)
  {
    PunctKind(b).Some? || b as char == ',' || b == 0 || b as char == ';'
  }

  /** The single-character tokens, ',' and ';' have no class in the generated table. */
  lemma OtherClass(b: byte)
    requires PunctKind(b).Some? || b as char == ',' || b as char == ';'
    ensures GetClass(CharTable()[b]) == 0
  {
    FlagsDecode(b);
  }

  /** At the terminator, advance() produces the end-of-input token there. */
  lemma AtEnd(inp: Input, s: LexState)
    requires WellFormed(inp) && s.cur == End(inp)
    ensures Advance(inp, s) == s.(tok := s.tok.(start := End(inp), end := End(inp), kind := Eof))
  {
    assert GetClass(inp.tab[inp.buf[s.cur]]) == 0;
  }

  /** Once at the end, every further advance() produces the same end-of-input token. */
  lemma EofRepeats(inp: Input, s: LexState)
    requires WellFormed(inp) && s.cur == End(inp)
    ensures Advance(inp, Advance(inp, s)) == Advance(inp, s)
  {
    AtEnd(inp, s);
    AtEnd(inp, Advance(inp, s));
  }

  /** Whitespace is skipped: advance() from a whitespace byte is advance() from the
      byte after it. */
  lemma WhitespaceSkipped(inp: Input, s: LexState)
    requires WellFormed(inp) && 0 <= s.cur <= End(inp)
    requires GetClass(inp.tab[inp.buf[s.cur]]) == WhitespaceClass
    ensures s.cur < End(inp)
    ensures Advance(inp, s) == Advance(inp, s.(cur := s.cur + 1))
  {
    var buf, tab := inp.buf, inp.tab;
    assert s.cur != End(inp) by {
      assert GetClass(tab[0]) == 0;
    }
    var e := s.cur + 1;
    if GetClass(tab[buf[e]]) == WhitespaceClass {
      assert RunEnd(buf, tab, e, Spaces) == RunEnd(buf, tab, e + 1, Spaces);
    }
  }

  /** A single-character token: ( ) [ ] { } ' and `. */
  lemma PunctToken(inp: Input, s: LexState)
    requires WellFormed(inp) && 0 <= s.cur <= End(inp) && GetClass(inp.tab[inp.buf[s.cur]]) == 0
    requires PunctKind(inp.buf[s.cur]).Some?
    ensures Advance(inp, s) == s.(cur := s.cur + 1, tok := s.tok.(start := s.cur, end := s.cur + 1,
                                                                  kind := PunctKind(inp.buf[s.cur]).value))
  {
  }

  /** ',' is a comma token, or a comma-at token when an '@' follows. */
  lemma CommaTokens(inp: Input, s: LexState)
    requires WellFormed(inp) && 0 <= s.cur <= End(inp) && GetClass(inp.tab[inp.buf[s.cur]]) == 0
    requires inp.buf[s.cur] as char == ','
    ensures s.cur < End(inp)
    ensures var n := if inp.buf[s.cur + 1] as char == '@' then 2 else 1;
      Advance(inp, s) == s.(cur := s.cur + n, tok := s.tok.(start := s.cur, end := s.cur + n,
                                                             kind := if n == 2 then CommaAt else Comma))
  {
  }

  /** advance() at a byte of class 2 to 4 is the case of the class switch for it. */
  lemma AdvanceDispatch(inp: Input, s: LexState)
    requires WellFormed(inp) && 0 <= s.cur <= End(inp)
    ensures var c := GetClass(inp.tab[inp.buf[s.cur]]);
      (c == InitialClass ==> s.cur < End(inp) && Advance(inp, s) == InitialCase(inp, s))
      && (c == PeculiarIdentClass ==> s.cur < End(inp) && Advance(inp, s) == PeculiarCase(inp, s))
      && (c == DigitClass ==>
            s.cur < End(inp) && Advance(inp, s) == ParseNumberDigits(inp, s.(tok := s.tok.(start := s.cur)), s.cur, None, 1))
  {
    FlagsClass(inp.buf, inp.tab, s.cur, inp.tab[inp.buf[s.cur]]);
  }

  /** An identifier runs from its initial byte over the subsequent bytes. When a
      delimiter (or the end) follows, that is the token; otherwise one "delimiter
      expected" is reported and, without an error limit, the lexer resumes at the next
      delimiter. */
  lemma IdentifierToken(inp: Input, s: LexState)
    requires WellFormed(inp) && 0 <= s.cur <= End(inp)
    requires GetClass(inp.tab[inp.buf[s.cur]]) == InitialClass
    ensures s.cur < End(inp)
    ensures var q := RunEnd(inp.buf, inp.tab, s.cur + 1, Subsequents);
      var r := Advance(inp, s);
      r.tok == s.tok.(start := s.cur, end := q, kind := Ident, ident := inp.buf[s.cur..q])
      && (TestDelimiter(inp.tab[inp.buf[q]]) || q == End(inp) ==> r == s.(cur := q, tok := r.tok))
      && (!TestDelimiter(inp.tab[inp.buf[q]]) && q < End(inp) ==>
            r.msgs == s.msgs + [Diag(q, q, DELIMITER_EXPECTED)]
            && (inp.limit == 0 ==> r.status == s.status && r.cur == DelimiterScan(inp.buf, inp.tab, q + 1)))
  {
    AdvanceDispatch(inp, s);
  }

  /** The end of numbers the lexer accepts: a delimiter or the end of the input. */
  predicate DelimitedAt(inp: Input, p: int)
    requires WellFormed(inp) && 0 <= p <= End(inp)
  {
    TestDelimiter(inp.tab[inp.buf[p]]) || p == End(inp)
  }

  /** A run of digits at `start`, not followed by '.' or an exponent marker, read with
      the exactness left open: an exact number whose payload is the value's low 64 bits,
      negated for a '-', and an overflow error when the value needs more than 64 bits. */
  lemma ExactDigits(inp: Input, s: LexState, start: int, sign: int)
    requires WellFormed(inp) && 0 <= s.cur <= s.tok.start <= start <= End(inp) && sign != 0
    requires var p := RunEnd(inp.buf, inp.tab, start, Digits);
      inp.buf[p] as char != '.' && !IsExponentMarker(inp.buf[p]) && DelimitedAt(inp, p)
    ensures var p := RunEnd(inp.buf, inp.tab, start, Digits);
      var v := RunValue(inp.buf, inp.tab, start);
      var r := ParseNumberDigits(inp, s, start, None, sign);
      r.tok == s.tok.(end := p, kind := NumLit, number := Number(ExactKind, ExactResult(v, sign)))
      && r.msgs == (if v < TWO_64 then s.msgs else s.msgs + [Diag(s.tok.start, p, EXACT_OVERFLOW)])
      && (v < TWO_64 ==> r.cur == p && r.status == s.status)
  {
    var p := RunEnd(inp.buf, inp.tab, start, Digits);
    assert ScanNumber(inp.buf, inp.tab, start) == Scanned(p, false);
  }

  /** A run of decimal digits not followed by '.' or an exponent marker is an exact
      number: the value itself below 2^63; values in [2^63, 2^64) are taken without an
      error as the negative number with the same 64 bits; larger values are reported
      and keep their low 64 bits. */
  lemma DecimalToken(inp: Input, s: LexState)
    requires WellFormed(inp) && 0 <= s.cur <= End(inp)
    requires GetClass(inp.tab[inp.buf[s.cur]]) == DigitClass
    requires var p := RunEnd(inp.buf, inp.tab, s.cur, Digits);
      inp.buf[p] as char != '.' && !IsExponentMarker(inp.buf[p]) && DelimitedAt(inp, p)
    ensures var p := RunEnd(inp.buf, inp.tab, s.cur, Digits);
      var v := RunValue(inp.buf, inp.tab, s.cur);
      var r := Advance(inp, s);
      r.tok.start == s.cur && r.tok.end == p && r.tok.kind == NumLit
      && r.tok.number == Number(ExactKind, v % TWO_64)
      && (v < TWO_63 ==> r == s.(cur := p, tok := r.tok) && r.tok.number == MakeExact(v))
      && (TWO_63 <= v < TWO_64 ==> r == s.(cur := p, tok := r.tok) && GetExact(r.tok.number) == v - TWO_64)
      && (TWO_64 <= v ==> r.msgs == s.msgs + [Diag(s.cur, p, EXACT_OVERFLOW)])
  {
    var s1 := s.(tok := s.tok.(start := s.cur));
    AdvanceDispatch(inp, s);
    var r := Advance(inp, s);
    assert r == ParseNumberDigits(inp, s1, s.cur, None, 1);
    ExactDigits(inp, s1, s.cur, 1);
    var v := RunValue(inp.buf, inp.tab, s.cur);
    ExactValue(v);
    assert r.tok.number == Number(ExactKind, v % TWO_64);
  }

  /** The payload of an unsigned value v read as exact: v below 2^63, a negative int64 up
      to 2^64, its low 64 bits beyond. */
  lemma ExactValue(v: nat)
    ensures ExactResult(v, 1) == v % TWO_64
    ensures v < TWO_63 ==> Number(ExactKind, ExactResult(v, 1)) == MakeExact(v)
    ensures TWO_63 <= v < TWO_64 ==> BitsValue(ExactResult(v, 1)) == v - TWO_64
  {
    if v < TWO_63 {
      BitsValueOfExactBits(v);
    }
  }

  /** A '-' followed by digits is the negated exact number, down to -2^63. */
  lemma NegativeDecimal(inp: Input, s: LexState)
    requires WellFormed(inp) && 0 <= s.cur < End(inp)
    requires GetClass(inp.tab[inp.buf[s.cur]]) == PeculiarIdentClass && inp.buf[s.cur] as char == '-'
    requires IsDigitByte(inp.buf[s.cur + 1]) && !TestSignSubsequent(inp.tab[inp.buf[s.cur + 1]])
    requires var p := RunEnd(inp.buf, inp.tab, s.cur + 1, Digits);
      inp.buf[p] as char != '.' && !IsExponentMarker(inp.buf[p]) && DelimitedAt(inp, p)
    ensures var p := RunEnd(inp.buf, inp.tab, s.cur + 1, Digits);
      var v := RunValue(inp.buf, inp.tab, s.cur + 1);
      var r := Advance(inp, s);
      r.tok.start == s.cur && r.tok.end == p && r.tok.kind == NumLit && IsExact(r.tok.number)
      && (v <= TWO_63 ==> r == s.(cur := p, tok := r.tok) && GetExact(r.tok.number) == -(v as int))
  {
    SignedDigits(inp, s);
    ExactDigits(inp, s.(tok := s.tok.(start := s.cur)), s.cur + 1, -1);
  }

  /** advance() at a '-' followed by a digit reads a number with the sign -1. */
  lemma SignedDigits(inp: Input, s: LexState)
    requires WellFormed(inp) && 0 <= s.cur < End(inp)
    requires GetClass(inp.tab[inp.buf[s.cur]]) == PeculiarIdentClass && inp.buf[s.cur] as char == '-'
    requires IsDigitByte(inp.buf[s.cur + 1]) && !TestSignSubsequent(inp.tab[inp.buf[s.cur + 1]])
    ensures Advance(inp, s) == ParseNumberDigits(inp, s.(tok := s.tok.(start := s.cur)), s.cur + 1, None, -1)
  {
    AdvanceDispatch(inp, s);
  }

  /** Digits with a fraction and no exponent make an inexact number: the double that the
      text of digits, dot and fraction denotes. */
  lemma RealToken(inp: Input, s: LexState)
    requires WellFormed(inp) && 0 <= s.cur <= End(inp)
    requires GetClass(inp.tab[inp.buf[s.cur]]) == DigitClass
    requires var p := RunEnd(inp.buf, inp.tab, s.cur, Digits);
      inp.buf[p] as char == '.'
      && var f := RunEnd(inp.buf, inp.tab, p + 1, Digits);
      !IsExponentMarker(inp.buf[f]) && DelimitedAt(inp, f)
    ensures var p := RunEnd(inp.buf, inp.tab, s.cur, Digits);
      var f := RunEnd(inp.buf, inp.tab, p + 1, Digits);
      Advance(inp, s) == s.(cur := f, tok := s.tok.(start := s.cur, end := f, kind := NumLit,
                                                     number := MakeInexact(inp.toDouble(inp.buf[s.cur..f]))))
  {
    AdvanceDispatch(inp, s);
    var p := RunEnd(inp.buf, inp.tab, s.cur, Digits);
    var f := RunEnd(inp.buf, inp.tab, p + 1, Digits);
    assert ScanNumber(inp.buf, inp.tab, s.cur) == Scanned(f, true);
  }

  /** An exponent marker after the digits with no exponent digits: the token ends
      after the marker, holds inexact 0.0 and "invalid number: missing exponent" is
      reported for it. */
  lemma MissingExponentToken(inp: Input, s: LexState)
    requires WellFormed(inp) && 0 <= s.cur <= End(inp)
    requires GetClass(inp.tab[inp.buf[s.cur]]) == DigitClass
    requires var p := RunEnd(inp.buf, inp.tab, s.cur, Digits);
      IsExponentMarker(inp.buf[p]) && !IsDigitByte(inp.buf[p + 1])
      && inp.buf[p + 1] as char != '+' && inp.buf[p + 1] as char != '-'
    ensures var p := RunEnd(inp.buf, inp.tab, s.cur, Digits);
      var r := Advance(inp, s);
      r.tok == s.tok.(start := s.cur, end := p + 1, kind := NumLit, number := MakeInexact(0))
      && |r.msgs| > |s.msgs| && r.msgs[|s.msgs|] == Diag(s.cur, p + 1, MISSING_EXPONENT)
  {
    AdvanceDispatch(inp, s);
    var s1 := s.(tok := s.tok.(start := s.cur));
    var p := RunEnd(inp.buf, inp.tab, s.cur, Digits);
    assert ScanNumber(inp.buf, inp.tab, s.cur) == MissingExponent(p + 1);
    var s2 := s1.(cur := p + 1, tok := s1.tok.(end := p + 1, kind := NumLit, number := MakeInexact(0)));
    var s3 := LexerSpec.Error(inp, s2, Diag(s.cur, p + 1, MISSING_EXPONENT));
    assert s3.msgs[|s.msgs|] == Diag(s.cur, p + 1, MISSING_EXPONENT);
    SkipKeeps(inp, s3);
  }

  /** skipUntilDelimiter keeps the token and only appends to the log. */
  lemma SkipKeeps(inp: Input, s: LexState)
    requires WellFormed(inp) && 0 <= s.cur <= End(inp)
    ensures SkipUntilDelimiter(inp, s).tok == s.tok && s.msgs <= SkipUntilDelimiter(inp, s).msgs
  {
  }

  /** A comment that ends in a newline is skipped: advance() goes on after it. */
  lemma CommentSkipped(inp: Input, s: LexState)
    requires WellFormed(inp) && 0 <= s.cur <= End(inp) && GetClass(inp.tab[inp.buf[s.cur]]) == 0
    requires inp.buf[s.cur] as char == ';' && CommentEnd(inp.buf, s.cur, s.cur + 1) < |inp.buf|
    ensures Advance(inp, s) == Advance(inp, s.(cur := CommentEnd(inp.buf, s.cur, s.cur + 1)))
  {
  }

  /** Without a CR or LF after p, the comment loop of a ';' that is not at the end runs
      past the terminator. */
  lemma {:induction false} CommentRunsOff(buf: seq<byte>, cur: int, p: int)
    requires 0 <= p <= |buf| && cur != |buf| - 1
    requires forall k :: p <= k < |buf| ==> buf[k] as char != '\r' && buf[k] as char != '\n'
    ensures CommentEnd(buf, cur, p) == |buf|
    decreases |buf| - p
  {
    if p < |buf| {
      CommentRunsOff(buf, cur, p + 1);
    }
  }

  /** As written, a comment that the input ends without a newline makes the lexer read
      past the terminator: skipLineComment stops at a NUL only when the comment's ';' is
      itself at the end of the buffer. */
  lemma CommentWithoutNewlineOverruns(inp: Input, s: LexState)
    requires WellFormed(inp) && 0 <= s.cur <= End(inp) && GetClass(inp.tab[inp.buf[s.cur]]) == 0
    requires inp.buf[s.cur] as char == ';'
    requires forall k :: s.cur < k < |inp.buf| ==> inp.buf[k] as char != '\r' && inp.buf[k] as char != '\n'
    ensures Advance(inp, s).status == Overrun
  {
    CommentRunsOff(inp.buf, s.cur, s.cur + 1);
  }

  /** When a CR or LF follows before the terminator, the loop as written and as intended
      end at the same place: the two differ only on a last comment without a newline. */
  lemma {:induction false} CommentEndAgrees(buf: seq<byte>, cur: int, p: int)
    requires 0 <= p < |buf| && buf[|buf| - 1] == 0 && cur != |buf| - 1
    requires exists k :: p <= k < |buf| && IsLineEnd(buf[k])
    ensures CommentEnd(buf, cur, p) == CommentEndIntended(buf, p)
    decreases |buf| - p
  {
    if !IsLineEnd(buf[p]) {
      var k :| p <= k < |buf| && IsLineEnd(buf[k]);
      assert k != p && k != |buf| - 1;
      CommentEndAgrees(buf, cur, p + 1);
    }
  }

  /** Without a CR or LF, the loop as written runs past the terminator, while the
      intended loop stops at it. */
  lemma CommentEndDiverges(buf: seq<byte>, cur: int, p: int)
    requires 0 <= p < |buf| && buf[|buf| - 1] == 0 && cur != |buf| - 1
    requires forall k :: p <= k < |buf| ==> !IsLineEnd(buf[k])
    ensures CommentEnd(buf, cur, p) == |buf| && CommentEndIntended(buf, p) == |buf| - 1
  {
    CommentRunsOff(buf, cur, p);
  }

  /** The buffer `;a` and its NUL: the comment loop as written ends at 3, past the
      terminator at 2; the intended loop ends at 2. */
  lemma CommentOverrunExample()
    ensures var buf: seq<byte> := [';' as int as byte, 'a' as int as byte, 0];
      CommentEnd(buf, 0, 1) == 3 && CommentEndIntended(buf, 1) == 2
  {
    var buf: seq<byte> := [';' as int as byte, 'a' as int as byte, 0];
    CommentEndDiverges(buf, 0, 1);
  }

  /** With flags of the UTF-8 class the loop never reloads them, so it reports every
      further byte as unsupported and runs past the terminator. */
  lemma {:induction false} StaleUtf8Flags(inp: Input, s: LexState, flags: bv8)
    requires WellFormed(inp) && 0 <= s.cur && GetClass(flags) == UTF8Class
    ensures Loop(inp, s, flags).status == Overrun
    decreases |inp.buf| - s.cur
  {
    if s.cur < |inp.buf| {
      match Step(inp, s, flags)
      case Done(r) =>
      case Continue(next, f) =>
        StaleUtf8Flags(inp, next, f);
    }
  }

  /** As written, any byte of the UTF-8 class (128 or more) makes the lexer read past the terminator. */
  lemma Utf8Overruns(inp: Input, s: LexState)
    requires WellFormed(inp) && 0 <= s.cur <= End(inp) && GetClass(inp.tab[inp.buf[s.cur]]) == UTF8Class
    ensures Advance(inp, s).status == Overrun
  {
    StaleUtf8Flags(inp, s, inp.tab[inp.buf[s.cur]]);
  }

  /** A byte of class 0 that the `default:` arm does not handle changes nothing, so the
      source's loop never ends. */
  lemma UnhandledByteHangs(inp: Input, s: LexState)
    requires WellFormed(inp) && 0 <= s.cur <= End(inp)
    requires GetClass(inp.tab[inp.buf[s.cur]]) == 0 && !HandledOther(inp.buf[s.cur])
    ensures Advance(inp, s) == s.(status := Hung)
  {
  }

  /** With the generated table, '"', '#', '|' and '\' are such bytes. */
  lemma UnhandledBytes(b: byte)
    requires b as char in "\"#|\\"
    ensures GetClass(CharTable()[b]) == 0 && !HandledOther(b)
  {
    FlagsDecode(b);
  }

  /** As written, a NUL before the end is reported, but the flags stay those of the NUL,
      so a following byte the `default:` arm does not handle (a letter, say) is not
      lexed and the loop never ends. */
  lemma StrayNulHangs(inp: Input, s: LexState)
    requires WellFormed(inp) && 0 <= s.cur < End(inp) && inp.limit == 0
    requires inp.buf[s.cur] == 0 && !HandledOther(inp.buf[s.cur + 1])
    ensures Advance(inp, s) == s.(cur := s.cur + 1, status := Hung, msgs := s.msgs + [Diag(s.cur, s.cur, UNSUPPORTED)])
  {
    var s1 := s.(cur := s.cur + 1, msgs := s.msgs + [Diag(s.cur, s.cur, UNSUPPORTED)]);
    assert Step(inp, s, 0) == Continue(s1, 0);
    assert Loop(inp, s1, 0) == s1.(status := Hung);
  }

  /** As written, when the error of skipUntilDelimiter reaches the error limit,
      forceEOF() moves the cursor to the terminator and the skip then steps past it. */
  lemma SkipAtLimitOverruns(inp: Input, s: LexState)
    requires WellFormed(inp) && 0 <= s.cur < End(inp) && !TestDelimiter(inp.tab[inp.buf[s.cur]])
    requires LimitReachedBy(inp.limit, s.msgs + [Diag(s.cur, s.cur, DELIMITER_EXPECTED)])
    ensures SkipUntilDelimiter(inp, s).status == Overrun
  {
  }
}
