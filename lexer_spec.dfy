/** What Lexer::advance() computes, stated on values.

    The lexer reads a byte buffer whose last byte is the terminating NUL (the position
    bufferEnd_). The functions below follow Lexer.cpp branch by branch, including what it
    does with input it does not expect: a read beyond the terminating NUL ends the model
    in status Overrun, and an iteration of advance()'s outer loop that changes nothing
    (so the source loops forever) ends it in status Hung. */
module LexerSpec {
  import opened Wrappers
  import opened Numbers
  import opened CharClass
  import opened Format
  import opened Tokens
  import opened Diagnostics

  datatype Status = Running | Overrun | Hung

  /** The fields of a Token: kind, source range, identifier text and number. */
  datatype Tok = Tok(kind: TokenKind, start: int, end: int, ident: seq<byte>, number: Number)

  /** Everything advance() changes: the cursor, the token and the error log. */
  datatype LexState = LexState(cur: int, status: Status, tok: Tok, msgs: seq<Diag>)

  /** What the lexer reads and never changes: the buffer, the character table s_charTab
      (the contents of CharTab.inc), the error limit of the error sink (0 for none) and
      StringRef::getAsDouble, as a map from the number's text to the bit pattern of the
      double it yields. */
  datatype Input = Input(buf: seq<byte>, tab: seq<bv8>, limit: nat, toDouble: seq<byte> -> uint64)

  const UNSUPPORTED := "unsupported character"
  const DELIMITER_EXPECTED := "delimiter expected"
  const MISSING_EXPONENT := "invalid number: missing exponent"
  const REAL_NOT_EXACT := "real number cannot be represented as exact"
  const EXACT_OVERFLOW := "number overflows exact range"

  /** All the lexer relies on in the character table: it covers every byte, and the NUL
      byte has no class and no flag. */
  predicate TableShape(tab: seq<bv8>)
  {
    |tab| == 256 && tab[0] == 0
  }

  /** The buffer ends in its terminating NUL and the table has its shape. */
  predicate WellFormed(inp: Input)
  {
    |inp.buf| > 0 && inp.buf[|inp.buf| - 1] == 0 && TableShape(inp.tab)
  }

  /** The offset of the terminating NUL. */
  function End(inp: Input): int
  {
    |inp.buf| - 1
  }

  /** The bytes as characters (the lexer's tokens are ASCII text). */
  function Text(bs: seq<byte>): (s: string)
    ensures |s| == |bs| && forall i :: 0 <= i < |bs| ==> s[i] as int == bs[i]
  {
    seq(|bs|, i requires 0 <= i < |bs| => bs[i] as char)
  }

  /** The runs of bytes the lexer's scanning loops skip. */
  datatype Run = Digits | Spaces | Utf8Bytes | Subsequents

  predicate InRun(tab: seq<bv8>, run: Run, b: byte)
    requires |tab| == 256
  {
    match run
    case Digits => IsDigitByte(b)
    case Spaces => GetClass(tab[b]) == WhitespaceClass
    case Utf8Bytes => GetClass(tab[b]) == UTF8Class
    case Subsequents => TestSubsequent(tab[b])
  }

  /** An 'e' or an 'E'. */
  predicate IsExponentMarker(b: byte)
  {
    b as char == 'e' || b as char == 'E'
  }

  /** The source's test (*ptr | 32) == 'e' accepts exactly the two exponent markers. */
  lemma ExponentMarkerByCase(b: byte)
    ensures IsExponentMarker(b) <==> (b as bv8 | 32) == 'e' as bv8
  {
  }

  /** The end of the run that starts at p: the scanning loops of the lexer. The
      terminating NUL belongs to no run. */
  function RunEnd(buf: seq<byte>, tab: seq<bv8>, p: int, run: Run): (q: int)
    requires 0 <= p < |buf| && buf[|buf| - 1] == 0 && TableShape(tab)
    ensures p <= q < |buf| && !InRun(tab, run, buf[q])
    ensures forall k {:trigger InRun(tab, run, buf[k])} :: p <= k < q ==> InRun(tab, run, buf[k])
    decreases |buf| - p
  {
    if InRun(tab, run, buf[p]) then RunEnd(buf, tab, p + 1, run) else p
  }

  /** The loop of _skipUntilDelimiterSlowPath: the first delimiter at or after p, or the
      terminating NUL. */
  function DelimiterScan(buf: seq<byte>, tab: seq<bv8>, p: int): (q: int)
    requires 0 <= p < |buf| && buf[|buf| - 1] == 0 && |tab| == 256
    ensures p <= q < |buf| && (q == |buf| - 1 || TestDelimiter(tab[buf[q]]))
    ensures forall k {:trigger TestDelimiter(tab[buf[k]])} :: p <= k < q ==> !TestDelimiter(tab[buf[k]])
    decreases |buf| - p
  {
    if TestDelimiter(tab[buf[p]]) then p
    else if buf[p] == 0 && p == |buf| - 1 then p
    else DelimiterScan(buf, tab, p + 1)
  }

  /** The loop of skipLineComment, started at p for the comment whose ';' is at `cur`:
      the position after the first CR or LF. It stops at a NUL only when `cur` is the
      end of the buffer; a result of |buf| means the loop read past the terminator. */
  function CommentEnd(buf: seq<byte>, cur: int, p: int): (q: int)
    requires 0 <= p <= |buf|
    ensures p <= q <= |buf|
    decreases |buf| - p
  {
    if p == |buf| then p
    else if buf[p] as char == '\r' || buf[p] as char == '\n' then p + 1
    else if buf[p] == 0 && cur == |buf| - 1 then p
    else CommentEnd(buf, cur, p + 1)
  }

  /** A byte that ends a line comment. */
  predicate IsLineEnd(b: byte)
  {
    b as char == '\r' || b as char == '\n'
  }

  /** The loop of skipLineComment as evidently intended: the NUL test compares the scan
      position with the end of the buffer, so the loop ends just past the first CR or LF,
      or at the terminating NUL, and never reads past it. */
  function CommentEndIntended(buf: seq<byte>, p: int): (q: int)
    requires 0 <= p < |buf| && buf[|buf| - 1] == 0
    ensures p <= q < |buf|
    ensures (p < q && IsLineEnd(buf[q - 1]) && forall k :: p <= k < q - 1 ==> !IsLineEnd(buf[k]))
      || (q == |buf| - 1 && forall k :: p <= k < q ==> !IsLineEnd(buf[k]))
    decreases |buf| - p
  {
    if IsLineEnd(buf[p]) then p + 1
    else if buf[p] == 0 && p == |buf| - 1 then p
    else CommentEndIntended(buf, p + 1)
  }

  /** Lexer::error: append the diagnostic; once the limit is reached, forceEOF(). */
  function Error(inp: Input, s: LexState, d: Diag): (r: LexState)
    ensures r.msgs == s.msgs + [d] && r.tok == s.tok && r.status == s.status
    ensures r.cur == if LimitReachedBy(inp.limit, r.msgs) then End(inp) else s.cur
  {
    var s1 := s.(msgs := s.msgs + [d]);
    if LimitReachedBy(inp.limit, s1.msgs) then s1.(cur := End(inp)) else s1
  }

  /** Lexer::skipUntilDelimiter. */
  function SkipUntilDelimiter(inp: Input, s: LexState): (r: LexState)
    requires WellFormed(inp) && 0 <= s.cur <= End(inp)
  {
    var buf := inp.buf;
    if TestDelimiter(inp.tab[buf[s.cur]]) then s
    else if buf[s.cur] == 0 && s.cur == End(inp) then s
    else
      var s1 := Error(inp, s, Diag(s.cur, s.cur, DELIMITER_EXPECTED));
      if s1.cur + 1 == |buf| then s1.(cur := |buf|, status := Overrun)
      else s1.(cur := DelimiterScan(buf, inp.tab, s1.cur + 1))
  }

  /** How the digits of a number end: at `end`, with `isReal` saying whether a fraction
      or an exponent was seen, or with an exponent marker not followed by digits. */
  datatype NumberScan = Scanned(end: int, isReal: bool) | MissingExponent(at: int)

  /** The scanning part of parseNumberDigits for radix 10. */
  function ScanNumber(buf: seq<byte>, tab: seq<bv8>, start: int): (r: NumberScan)
    requires 0 <= start < |buf| && buf[|buf| - 1] == 0 && TableShape(tab)
    ensures r.Scanned? ==> start <= r.end < |buf|
    ensures r.MissingExponent? ==> start < r.at < |buf|
    ensures r.Scanned? && !r.isReal ==> r.end == RunEnd(buf, tab, start, Digits)
  {
    var p := RunEnd(buf, tab, start, Digits);
    if buf[p] as char == '.' then
      var f := RunEnd(buf, tab, p + 1, Digits);
      if IsExponentMarker(buf[f]) then ScanExponent(buf, tab, f + 1) else Scanned(f, true)
    else if IsExponentMarker(buf[p]) then ScanExponent(buf, tab, p + 1)
    else Scanned(p, false)
  }

  /** The `exponent:` label of parseNumberDigits, at q just after the 'e'. */
  function ScanExponent(buf: seq<byte>, tab: seq<bv8>, q: int): (r: NumberScan)
    requires 0 < q < |buf| && buf[|buf| - 1] == 0 && TableShape(tab)
    ensures r.Scanned? ==> q < r.end < |buf| && r.isReal
    ensures r.MissingExponent? ==> q <= r.at < |buf|
  {
    var q1 := if buf[q] as char == '+' || buf[q] as char == '-' then q + 1 else q;
    if IsDigitByte(buf[q1]) then Scanned(RunEnd(buf, tab, q1 + 1, Digits), true)
    else MissingExponent(q1)
  }

  /** getAsInteger's value of a string of decimal digits. */
  function DecimalValue(str: seq<byte>): nat
    requires forall k :: 0 <= k < |str| ==> IsDigitByte(str[k])
  {
    var t := Text(str);
    assert forall i :: 0 <= i < |t| ==> '0' <= t[i] <= '9' by {
      forall i | 0 <= i < |t| ensures '0' <= t[i] <= '9' {
        assert IsDigitByte(str[i]);
      }
    }
    DigitsValue(t)
  }

  /** The value of the run of decimal digits at `start`. */
  function RunValue(buf: seq<byte>, tab: seq<bv8>, start: int): nat
    requires 0 <= start < |buf| && buf[|buf| - 1] == 0 && TableShape(tab)
  {
    var q := RunEnd(buf, tab, start, Digits);
    assert forall k :: 0 <= k < q - start ==> IsDigitByte(buf[start..q][k]) by {
      forall k | 0 <= k < q - start ensures IsDigitByte(buf[start..q][k]) {
        assert InRun(tab, Digits, buf[start + k]);
      }
    }
    DecimalValue(buf[start..q])
  }

  /** The exact payload: the low 64 bits of the value (getLoBits(64) on overflow),
      negated in two's complement for a '-' sign. */
  function ExactResult(v: nat, sign: int): (bits: uint64)
    ensures sign >= 0 && v < TWO_63 ==> BitsValue(bits) == v
    ensures sign < 0 && v <= TWO_63 ==> BitsValue(bits) == -(v as int)
  {
    var b := v % TWO_64;
    if sign < 0 then WrapNegate(b) else b
  }

  /** The inexact payload: the double is negated for a '-' sign. */
  function InexactResult(bits: uint64, sign: int): uint64
  {
    if sign < 0 then FlipSign(bits) else bits
  }

  /** Lexer::parseNumberDigits(start, exact, 10, sign). */
  function ParseNumberDigits(inp: Input, s: LexState, start: int, exact: Option<bool>, sign: int): (r: LexState)
    requires WellFormed(inp) && 0 <= start <= End(inp) && sign != 0
  {
    match ScanNumber(inp.buf, inp.tab, start)
    case MissingExponent(q) => MissingExponentCase(inp, s, q)
    case Scanned(p, isReal) => FinishNumber(inp, s, start, p, isReal, exact, sign)
  }

  /** An exponent marker without digits: the token ends at q and holds inexact 0.0. */
  function MissingExponentCase(inp: Input, s: LexState, q: int): (r: LexState)
    requires WellFormed(inp) && 0 <= q <= End(inp)
  {
    var s1 := s.(cur := q, tok := s.tok.(end := q, kind := NumLit, number := MakeInexact(0)));
    SkipUntilDelimiter(inp, Error(inp, s1, Diag(s1.tok.start, q, MISSING_EXPONENT)))
  }

  /** The `end:` label of parseNumberDigits: the number's text is [start, p). */
  function FinishNumber(inp: Input, s: LexState, start: int, p: int, isReal: bool, exact: Option<bool>, sign: int): (r: LexState)
    requires WellFormed(inp) && 0 <= start <= p <= End(inp) && sign != 0
    requires ScanNumber(inp.buf, inp.tab, start) == Scanned(p, isReal)
  {
    var buf := inp.buf;
    var s1 := s.(cur := p, tok := s.tok.(end := p));
    var isExact := if exact.Some? then exact.value else !isReal;
    var str := buf[start..p];
    var (s2, n) :=
      if isReal && isExact then
        (Error(inp, s1, Diag(s1.tok.start, p, REAL_NOT_EXACT)), MakeExact(0))
      else if !isExact then
        (s1, MakeInexact(InexactResult(inp.toDouble(str), sign)))
      else
        var v := RunValue(buf, inp.tab, start);
        (if v < TWO_64 then s1 else Error(inp, s1, Diag(s1.tok.start, p, EXACT_OVERFLOW)),
         Number(ExactKind, ExactResult(v, sign)));
    SkipUntilDelimiter(inp, s2.(tok := s2.tok.(kind := NumLit, number := n)))
  }

  /** The end of an identifier: record it and skip to the next delimiter. */
  function FinishIdentifier(inp: Input, s: LexState, end: int): (r: LexState)
    requires WellFormed(inp) && 0 <= s.cur <= end <= End(inp)
  {
    var s1 := s.(cur := end, tok := s.tok.(end := end, kind := Ident, ident := inp.buf[s.cur..end]));
    SkipUntilDelimiter(inp, s1)
  }

  /** case CC::InitialClass. */
  function InitialCase(inp: Input, s: LexState): (r: LexState)
    requires WellFormed(inp) && 0 <= s.cur < End(inp)
  {
    var s1 := s.(tok := s.tok.(start := s.cur));
    FinishIdentifier(inp, s1, RunEnd(inp.buf, inp.tab, s.cur + 1, Subsequents))
  }

  /** The sign of a '+' or '-'. */
  function SignOf(b: byte): int
  {
    if b as char == '+' then 1 else -1
  }

  /** case CC::PeculiarIdentClass: '.', '+' or '-'. */
  function PeculiarCase(inp: Input, s: LexState): (r: LexState)
    requires WellFormed(inp) && 0 <= s.cur < End(inp)
  {
    var s1 := s.(tok := s.tok.(start := s.cur));
    if inp.buf[s.cur] as char == '.' then DotCase(inp, s1) else SignCase(inp, s1)
  }

  /** A '.': the period token, a number such as .5, or an identifier such as ... */
  function DotCase(inp: Input, s: LexState): (r: LexState)
    requires WellFormed(inp) && 0 <= s.cur < End(inp)
  {
    var buf := inp.buf;
    var e := s.cur + 1;
    if !TestDotSubsequent(inp.tab[buf[e]]) then
      if IsDigitByte(buf[e]) then ParseNumberDigits(inp, s, s.cur, Some(false), 1)
      else s.(cur := e, tok := s.tok.(end := e, kind := Period))
    else FinishIdentifier(inp, s, RunEnd(buf, inp.tab, e + 1, Subsequents))
  }

  /** A '+' or '-': a signed number, or an identifier such as + or -> or +.x */
  function SignCase(inp: Input, s: LexState): (r: LexState)
    requires WellFormed(inp) && 0 <= s.cur < End(inp)
  {
    var buf := inp.buf;
    var cur := s.cur;
    var e := cur + 1;
    if buf[e] as char == '.' then SignDotCase(inp, s)
    else if TestSignSubsequent(inp.tab[buf[e]]) then
      FinishIdentifier(inp, s, RunEnd(buf, inp.tab, e + 1, Subsequents))
    else if IsDigitByte(buf[e]) then
      ParseNumberDigits(inp, s, e, None, SignOf(buf[cur]))
    else FinishIdentifier(inp, s, e)
  }

  /** A sign followed by a '.': a number such as -.5, or an identifier such as +. or -.x */
  function SignDotCase(inp: Input, s: LexState): (r: LexState)
    requires WellFormed(inp) && 0 <= s.cur < End(inp) && inp.buf[s.cur + 1] as char == '.'
  {
    var buf := inp.buf;
    var cur := s.cur;
    var e2 := cur + 2;
    if !TestDotSubsequent(inp.tab[buf[e2]]) then
      if IsDigitByte(buf[e2]) then ParseNumberDigits(inp, s, cur + 1, Some(false), SignOf(buf[cur]))
      else FinishIdentifier(inp, s, e2)
    else FinishIdentifier(inp, s, RunEnd(buf, inp.tab, e2 + 1, Subsequents))
  }

  /** The single-character tokens of CHTOK. */
  function PunctKind(b: byte): Option<TokenKind>
  {
    match b as char
    case '(' => Some(LParen)
    case ')' => Some(RParen)
    case '[' => Some(LSquare)
    case ']' => Some(RSquare)
    case '{' => Some(LBrace)
    case '}' => Some(RBrace)
    case '\'' => Some(Apostrophe)
    case '`' => Some(Backtick)
    case _ => None
  }

  /** The flag bytes advance() may hold for the byte at `cur`: the flags of that byte,
      or flags left over from an earlier byte, which are those of a NUL or have the
      UTF-8 class. */
  predicate FlagsFor(buf: seq<byte>, tab: seq<bv8>, cur: int, flags: bv8)
    requires |tab| == 256
  {
    flags == 0 || GetClass(flags) == UTF8Class || (0 <= cur < |buf| && flags == tab[buf[cur]])
  }

  /** A class from 1 to 4 is never left over: it belongs to the byte at `cur`, which is
      then not the terminator. */
  lemma FlagsClass(buf: seq<byte>, tab: seq<bv8>, cur: int, flags: bv8)
    requires |buf| > 0 && buf[|buf| - 1] == 0 && TableShape(tab) && FlagsFor(buf, tab, cur, flags)
    ensures 1 <= GetClass(flags) <= 4 ==> 0 <= cur < |buf| - 1 && flags == tab[buf[cur]]
  {
    assert GetClass(0) == 0;
  }

  /** How one iteration of advance()'s loop ends: the token is complete (or the model
      stops), or the loop goes on at a later position with the given chFlags. */
  datatype Iteration = Done(r: LexState) | Continue(next: LexState, flags: bv8)

  /** One iteration of the for (;;) loop of advance(), with `flags` the value of chFlags. */
  function Step(inp: Input, s: LexState, flags: bv8): (it: Iteration)
    requires WellFormed(inp) && 0 <= s.cur < |inp.buf| && FlagsFor(inp.buf, inp.tab, s.cur, flags)
    ensures it.Continue? ==> s.cur < it.next.cur <= |inp.buf| && FlagsFor(inp.buf, inp.tab, it.next.cur, it.flags)
  {
    FlagsClass(inp.buf, inp.tab, s.cur, flags);
    var buf := inp.buf;
    var cur := s.cur;
    var c := GetClass(flags);
    if c == WhitespaceClass then
      var q := RunEnd(buf, inp.tab, cur + 1, Spaces);
      Continue(s.(cur := q), inp.tab[buf[q]])
    else if c == InitialClass then Done(InitialCase(inp, s))
    else if c == PeculiarIdentClass then Done(PeculiarCase(inp, s))
    else if c == DigitClass then
      Done(ParseNumberDigits(inp, s.(tok := s.tok.(start := cur)), cur, None, 1))
    else if c == UTF8Class then
      var s1 := Error(inp, s, Diag(cur, cur, UNSUPPORTED));
      if s1.cur + 1 == |buf| then Done(s1.(cur := |buf|, status := Overrun))
      else Continue(s1.(cur := RunEnd(buf, inp.tab, s1.cur + 1, Utf8Bytes)), flags)
    else OtherStep(inp, s, flags)
  }

  /** The `default:` arm of the class switch, which switches on the byte itself. */
  function OtherStep(inp: Input, s: LexState, flags: bv8): (it: Iteration)
    requires WellFormed(inp) && 0 <= s.cur < |inp.buf| && FlagsFor(inp.buf, inp.tab, s.cur, flags)
    requires !(1 <= GetClass(flags) <= 5)
    ensures it.Continue? ==> s.cur < it.next.cur <= |inp.buf| && FlagsFor(inp.buf, inp.tab, it.next.cur, it.flags)
  {
    var buf := inp.buf;
    var cur := s.cur;
    var b := buf[cur];
    if PunctKind(b).Some? then
      Done(s.(cur := cur + 1, tok := s.tok.(start := cur, end := cur + 1, kind := PunctKind(b).value)))
    else if b as char == ',' then
      if buf[cur + 1] as char == '@' then
        Done(s.(cur := cur + 2, tok := s.tok.(start := cur, end := cur + 2, kind := CommaAt)))
      else Done(s.(cur := cur + 1, tok := s.tok.(start := cur, end := cur + 1, kind := Comma)))
    else if b == 0 then
      if cur == End(inp) then Done(s.(tok := s.tok.(start := cur, end := cur, kind := Eof)))
      else
        var s1 := Error(inp, s, Diag(cur, cur, UNSUPPORTED));
        Continue(s1.(cur := s1.cur + 1), flags)
    else if b as char == ';' then
      var q := CommentEnd(buf, cur, cur + 1);
      if q == |buf| then Done(s.(cur := q, status := Overrun))
      else Continue(s.(cur := q), inp.tab[buf[q]])
    else Done(s.(status := Hung))
  }

  /** The for (;;) loop of advance(); its assertion that the cursor is within the
      buffer fails once the cursor has passed the terminator. */
  function Loop(inp: Input, s: LexState, flags: bv8): (r: LexState)
    requires WellFormed(inp) && 0 <= s.cur && FlagsFor(inp.buf, inp.tab, s.cur, flags)
    decreases |inp.buf| - s.cur
  {
    if s.cur >= |inp.buf| then s.(status := Overrun)
    else
      match Step(inp, s, flags)
      case Done(r) => r
      case Continue(next, f) => Loop(inp, next, f)
  }

  /** Lexer::advance(). */
  function Advance(inp: Input, s: LexState): LexState
    requires WellFormed(inp) && 0 <= s.cur <= End(inp)
  {
    Loop(inp, s, inp.tab[inp.buf[s.cur]])
  }
}
