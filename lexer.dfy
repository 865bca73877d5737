/** The Token and Lexer classes of Lexer.h and Lexer.cpp. Each method is proved to
    change the lexer's state as the corresponding function of LexerSpec says. */
module Lexer {
  import opened Wrappers
  import opened Numbers
  import opened CharClass
  import opened Tokens
  import opened Diagnostics
  import opened LexerSpec

  /** The last scanned token. The identifier and the number share storage in the source
      (a union); here they are two fields, and only the one the kind names is meant. */
  class Token {
    var kind: TokenKind
    var start: int
    var end: int
    var ident: seq<byte>
    var number: Number

    constructor()
      ensures Value() == Tok(NoKind, 0, 0, [], DefaultNumber())
    {
      kind := NoKind;
      start := 0;
      end := 0;
      ident := [];
      number := DefaultNumber();
    }

    ghost function Value(): Tok
      reads this
    {
      Tok(kind, start, end, ident, number)
    }

    /** The text of the token's source range. */
    function InputStr(buf: seq<byte>): (r: seq<byte>)
      reads this
      requires 0 <= start <= end <= |buf|
      ensures |r| == end - start && forall i :: 0 <= i < |r| ==> r[i] == buf[start + i]
    {
      buf[start..end]
    }

    function GetNumber(): (n: Number)
      reads this
      requires kind == NumLit
      ensures n == Value().number
    {
      number
    }

    function GetIdentifier(): (id: seq<byte>)
      reads this
      requires kind == Ident
      ensures id == Value().ident
    {
      ident
    }

    method SetStart(p: int)
      modifies this
      ensures Value() == old(Value()).(start := p)
    {
      start := p;
    }

    method SetEnd(p: int)
      modifies this
      ensures Value() == old(Value()).(end := p)
    {
      end := p;
    }

    method SetIdentifier(id: seq<byte>)
      modifies this
      ensures Value() == old(Value()).(kind := Ident, ident := id)
    {
      kind := Ident;
      ident := id;
    }

    method SetNumber(n: Number)
      modifies this
      ensures Value() == old(Value()).(kind := NumLit, number := n)
    {
      kind := NumLit;
      number := n;
    }

    method SetKind(k: TokenKind)
      modifies this
      ensures Value() == old(Value()).(kind := k)
    {
      kind := k;
    }
  }

  class Lexer {
    /** The input, from bufferStart_ to its terminating NUL at bufferEnd_ inclusive. */
    const buf: seq<byte>
    /** s_charTab: the flags of every byte. */
    const tab: seq<bv8>
    /** StringRef::getAsDouble, on the bit pattern of the result. */
    const toDouble: seq<byte> -> uint64
    const token: Token
    /** The error sink of the AST context, shared with the parser. */
    const log: DiagnosticLog
    var cur: int
    var status: Status

    ghost function Inp(): Input
    {
      Input(buf, tab, log.limit, toDouble)
    }

    ghost function State(): LexState
      reads this, token, log
    {
      LexState(cur, status, token.Value(), log.messages)
    }

    /** The state advance() may be called in: the cursor within the buffer. */
    ghost predicate Ready()
      reads this
    {
      WellFormed(Inp()) && 0 <= cur <= |buf| - 1 && status == Running
    }

    constructor(log: DiagnosticLog, buf: seq<byte>, tab: seq<bv8>, toDouble: seq<byte> -> uint64)
      requires |buf| > 0 && buf[|buf| - 1] == 0 && TableShape(tab)
      ensures this.log == log && this.buf == buf && this.tab == tab && this.toDouble == toDouble
      ensures fresh(token)
      ensures Ready() && State() == LexState(0, Running, Tok(NoKind, 0, 0, [], DefaultNumber()), log.messages)
    {
      this.log := log;
      this.buf := buf;
      this.tab := tab;
      this.toDouble := toDouble;
      token := new Token();
      cur := 0;
      status := Running;
    }

    /** forceEOF: the next token is the end of the input. */
    method ForceEOF()
      modifies this
      ensures State() == old(State()).(cur := |buf| - 1)
    {
      cur := |buf| - 1;
    }

    /** error: report, and force EOF once the error limit is reached. */
    method Error(d: Diag) returns (ok: bool)
      modifies this, log
      ensures State() == LexerSpec.Error(Inp(), old(State()), d)
      ensures ok == !LimitReachedBy(log.limit, log.messages)
    {
      log.Report(d);
      if !log.LimitReached() {
        return true;
      }
      ForceEOF();
      return false;
    }

    /** The end of the run from p. */
    method ScanRun(p: int, run: Run) returns (q: int)
      requires WellFormed(Inp()) && 0 <= p < |buf|
      ensures q == RunEnd(buf, tab, p, run)
    {
      q := p;
      while InRun(tab, run, buf[q])
        invariant p <= q < |buf| && RunEnd(buf, tab, q, run) == RunEnd(buf, tab, p, run)
        decreases |buf| - q
      {
        q := q + 1;
      }
    }

    method SkipUntilDelimiter()
      requires WellFormed(Inp()) && 0 <= cur <= |buf| - 1
      modifies this, log
      ensures State() == LexerSpec.SkipUntilDelimiter(Inp(), old(State()))
    {
      if TestDelimiter(tab[buf[cur]]) {
        return;
      }
      SkipUntilDelimiterSlowPath();
    }

    method SkipUntilDelimiterSlowPath()
      requires WellFormed(Inp()) && 0 <= cur <= |buf| - 1 && !TestDelimiter(tab[buf[cur]])
      modifies this, log
      ensures State() == LexerSpec.SkipUntilDelimiter(Inp(), old(State()))
    {
      if buf[cur] == 0 && cur == |buf| - 1 {
        return;
      }
      var _ := Error(Diag(cur, cur, DELIMITER_EXPECTED));
      ghost var reported := State();
      cur := cur + 1;
      if cur == |buf| {
        // The loop below would read the byte after the terminator.
        status := Overrun;
        return;
      }
      ghost var from := cur;
      while !TestDelimiter(tab[buf[cur]])
        invariant from <= cur < |buf| && DelimiterScan(buf, tab, cur) == DelimiterScan(buf, tab, from)
        invariant State() == reported.(cur := cur)
        decreases |buf| - cur
      {
        if buf[cur] == 0 && cur == |buf| - 1 {
          break;
        }
        cur := cur + 1;
      }
      assert cur == DelimiterScan(buf, tab, cur);
    }

    /** The scanning part of parseNumberDigits for radix 10, up to its `end:` label. */
    method ScanNumberDigits(start: int) returns (r: NumberScan)
      requires WellFormed(Inp()) && 0 <= start <= |buf| - 1
      ensures r == ScanNumber(buf, tab, start)
    {
      var ptr := ScanRun(start, Digits);
      if buf[ptr] as char == '.' {
        // fraction:
        ptr := ScanRun(ptr + 1, Digits);
        if IsExponentMarker(buf[ptr]) {
          r := ScanExponentDigits(ptr + 1);
        } else {
          r := Scanned(ptr, true);
        }
      } else if IsExponentMarker(buf[ptr]) {
        r := ScanExponentDigits(ptr + 1);
      } else {
        r := Scanned(ptr, false);
      }
    }

    /** The `exponent:` label, with ptr just after the 'e'. */
    method ScanExponentDigits(ptr: int) returns (r: NumberScan)
      requires WellFormed(Inp()) && 0 < ptr <= |buf| - 1
      ensures r == ScanExponent(buf, tab, ptr)
    {
      var p := ptr;
      if buf[p] as char == '+' || buf[p] as char == '-' {
        p := p + 1;
      }
      if IsDigitByte(buf[p]) {
        p := ScanRun(p + 1, Digits);
        return Scanned(p, true);
      }
      return MissingExponent(p);
    }

    /** parseNumberDigits for radix 10, the only radix advance() passes. */
    method ParseNumberDigits(start: int, exact: Option<bool>, sign: int)
      requires WellFormed(Inp()) && 0 <= start <= |buf| - 1 && sign != 0
      modifies this, token, log
      ensures State() == LexerSpec.ParseNumberDigits(Inp(), old(State()), start, exact, sign)
    {
      var scan := ScanNumberDigits(start);
      match scan
      case MissingExponent(ptr) =>
        cur := ptr;
        token.SetEnd(ptr);
        token.SetNumber(MakeInexact(0));
        var _ := Error(Diag(token.start, token.end, MISSING_EXPONENT));
        SkipUntilDelimiter();
      case Scanned(ptr, isReal) =>
        FinishNumber(start, ptr, isReal, exact, sign);
    }

    /** The `end:` label of parseNumberDigits: the number's text is [start, ptr). */
    method FinishNumber(start: int, ptr: int, isReal: bool, exact: Option<bool>, sign: int)
      requires WellFormed(Inp()) && 0 <= start <= ptr <= |buf| - 1 && sign != 0
      requires ScanNumber(buf, tab, start) == Scanned(ptr, isReal)
      modifies this, token, log
      ensures State() == LexerSpec.FinishNumber(Inp(), old(State()), start, ptr, isReal, exact, sign)
    {
      var str := buf[start..ptr];
      cur := ptr;
      token.SetEnd(ptr);
      var isExact := if exact.Some? then exact.value else !isReal;
      var number;
      if isReal && isExact {
        var _ := Error(Diag(token.start, token.end, REAL_NOT_EXACT));
        number := MakeExact(0);
      } else if !isExact {
        number := MakeInexact(InexactResult(toDouble(str), sign));
      } else {
        var v := RunValue(buf, tab, start);
        if v >= TWO_64 {
          var _ := Error(Diag(token.start, token.end, EXACT_OVERFLOW));
        }
        number := Number(ExactKind, ExactResult(v, sign));
      }
      token.SetNumber(number);
      SkipUntilDelimiter();
    }

    /** skipLineComment(start), called with start at the ';' under the cursor. */
    method SkipLineComment(start: int)
      requires 0 <= start < |buf| && buf[start] as char == ';' && buf[|buf| - 1] == 0
      modifies this
      ensures var q := CommentEnd(buf, old(cur), start + 1);
        State() == old(State()).(cur := q, status := if q == |buf| then Overrun else old(status))
    {
      var p := start + 1;
      while true
        invariant start + 1 <= p <= |buf| && CommentEnd(buf, cur, p) == CommentEnd(buf, cur, start + 1)
        invariant cur == old(cur) && status == old(status)
        decreases |buf| - p
      {
        if p == |buf| {
          // The byte after the terminator would be read.
          cur := p;
          status := Overrun;
          return;
        }
        if buf[p] as char == '\r' || buf[p] as char == '\n' {
          p := p + 1;
          break;
        }
        if buf[p] == 0 && cur == |buf| - 1 {
          break;
        }
        p := p + 1;
      }
      cur := p;
    }

    /** The identifier [cur, end) is complete. */
    method FinishIdentifier(end: int)
      requires WellFormed(Inp()) && 0 <= cur <= end <= |buf| - 1
      modifies this, token, log
      ensures State() == LexerSpec.FinishIdentifier(Inp(), old(State()), end)
    {
      token.SetEnd(end);
      token.SetIdentifier(buf[cur..end]);
      cur := end;
      SkipUntilDelimiter();
    }

    /** case CC::InitialClass. */
    method LexInitial()
      requires WellFormed(Inp()) && 0 <= cur < |buf| - 1
      modifies this, token, log
      ensures State() == InitialCase(Inp(), old(State()))
    {
      token.SetStart(cur);
      var end := ScanRun(cur + 1, Subsequents);
      FinishIdentifier(end);
    }

    /** case CC::PeculiarIdentClass. */
    method LexPeculiar()
      requires WellFormed(Inp()) && 0 <= cur < |buf| - 1
      modifies this, token, log
      ensures State() == PeculiarCase(Inp(), old(State()))
    {
      token.SetStart(cur);
      if buf[cur] as char == '.' {
        LexDot();
      } else {
        LexSign();
      }
    }

    /** A '.' whose token start is set. */
    method LexDot()
      requires WellFormed(Inp()) && 0 <= cur < |buf| - 1 && buf[cur] as char == '.'
      modifies this, token, log
      ensures State() == DotCase(Inp(), old(State()))
    {
      var end := cur + 1;
      if !TestDotSubsequent(tab[buf[end]]) {
        if IsDigitByte(buf[end]) {
          ParseNumberDigits(cur, Some(false), 1);
        } else {
          token.SetEnd(end);
          token.SetKind(Period);
          cur := end;
        }
        return;
      }
      end := ScanRun(end + 1, Subsequents);
      FinishIdentifier(end);
    }

    /** A '+' or '-' whose token start is set. */
    method LexSign()
      requires WellFormed(Inp()) && 0 <= cur < |buf| - 1
      modifies this, token, log
      ensures State() == SignCase(Inp(), old(State()))
    {
      var end := cur + 1;
      if buf[end] as char == '.' {
        LexSignDot();
        return;
      } else if TestSignSubsequent(tab[buf[end]]) {
        end := ScanRun(end + 1, Subsequents);
      } else if IsDigitByte(buf[end]) {
        ParseNumberDigits(end, None, SignOf(buf[cur]));
        return;
      }
      FinishIdentifier(end);
    }

    /** A sign whose token start is set, followed by a '.'. */
    method LexSignDot()
      requires WellFormed(Inp()) && 0 <= cur < |buf| - 1 && buf[cur + 1] as char == '.'
      modifies this, token, log
      ensures State() == SignDotCase(Inp(), old(State()))
    {
      var end := cur + 2;
      if !TestDotSubsequent(tab[buf[end]]) {
        if IsDigitByte(buf[end]) {
          ParseNumberDigits(cur + 1, Some(false), SignOf(buf[cur]));
          return;
        }
      } else {
        end := ScanRun(end + 1, Subsequents);
      }
      FinishIdentifier(end);
    }

    /** case CC::WhitespaceClass: skip the run of whitespace after the current byte;
        the result is the new chFlags. */
    method SkipWhitespace() returns (next: bv8)
      requires WellFormed(Inp()) && 0 <= cur < |buf| - 1
      modifies this
      ensures var q := RunEnd(buf, tab, old(cur) + 1, Spaces);
        State() == old(State()).(cur := q) && next == tab[buf[q]]
    {
      ghost var from := cur + 1;
      cur := cur + 1;
      next := tab[buf[cur]];
      while GetClass(next) == WhitespaceClass
        invariant from <= cur < |buf| && next == tab[buf[cur]]
        invariant State() == old(State()).(cur := cur)
        invariant RunEnd(buf, tab, cur, Spaces) == RunEnd(buf, tab, from, Spaces)
        decreases |buf| - cur
      {
        cur := cur + 1;
        next := tab[buf[cur]];
      }
      assert cur == RunEnd(buf, tab, cur, Spaces);
    }

    /** case CC::UTF8Class: report the byte and skip the UTF-8 bytes after it; `done`
        when that skip reads past the terminator. chFlags is left as it was. */
    method SkipUtf8() returns (done: bool)
      requires WellFormed(Inp()) && 0 <= cur < |buf|
      modifies this, log
      ensures var s1 := LexerSpec.Error(Inp(), old(State()), Diag(old(cur), old(cur), UNSUPPORTED));
        done == (s1.cur + 1 == |buf|)
        && State() == if done then s1.(cur := |buf|, status := Overrun)
                      else s1.(cur := RunEnd(buf, tab, s1.cur + 1, Utf8Bytes))
    {
      var _ := Error(Diag(cur, cur, UNSUPPORTED));
      cur := cur + 1;
      if cur == |buf| {
        // The byte after the terminator would be read.
        status := Overrun;
        return true;
      }
      cur := ScanRun(cur, Utf8Bytes);
      return false;
    }

    /** One iteration of advance()'s loop, `flags` being chFlags. */
    method Iterate(flags: bv8) returns (done: bool, next: bv8)
      requires WellFormed(Inp()) && 0 <= cur < |buf| && FlagsFor(buf, tab, cur, flags)
      modifies this, token, log
      ensures var it := Step(Inp(), old(State()), flags);
        done == it.Done? && (if done then State() == it.r else State() == it.next && next == it.flags)
    {
      FlagsClass(buf, tab, cur, flags);
      var c := GetClass(flags);
      if c == WhitespaceClass {
        next := SkipWhitespace();
        return false, next;
      } else if c == InitialClass {
        LexInitial();
        return true, flags;
      } else if c == PeculiarIdentClass {
        LexPeculiar();
        return true, flags;
      } else if c == DigitClass {
        token.SetStart(cur);
        ParseNumberDigits(cur, None, 1);
        return true, flags;
      } else if c == UTF8Class {
        done := SkipUtf8();
        return done, flags;
      }
      done, next := IterateOther(flags);
    }

    /** The `default:` arm of advance()'s class switch. */
    method IterateOther(flags: bv8) returns (done: bool, next: bv8)
      requires WellFormed(Inp()) && 0 <= cur < |buf| && FlagsFor(buf, tab, cur, flags)
      requires !(1 <= GetClass(flags) <= 5)
      modifies this, token, log
      ensures var it := OtherStep(Inp(), old(State()), flags);
        done == it.Done? && (if done then State() == it.r else State() == it.next && next == it.flags)
    {
      var b := buf[cur];
      var punct := PunctKind(b);
      if punct.Some? {
        token.SetStart(cur);
        cur := cur + 1;
        token.SetEnd(cur);
        token.SetKind(punct.value);
        return true, flags;
      } else if b as char == ',' {
        token.SetStart(cur);
        cur := cur + 1;
        if buf[cur] as char == '@' {
          cur := cur + 1;
          token.SetKind(CommaAt);
        } else {
          token.SetKind(Comma);
        }
        token.SetEnd(cur);
        return true, flags;
      } else if b == 0 {
        if cur == |buf| - 1 {
          token.SetStart(cur);
          token.SetEnd(cur);
          token.SetKind(Eof);
          return true, flags;
        }
        var _ := Error(Diag(cur, cur, UNSUPPORTED));
        cur := cur + 1;
        // chFlags is not refreshed here either.
        return false, flags;
      } else if b as char == ';' {
        SkipLineComment(cur);
        if cur == |buf| {
          return true, flags;
        }
        return false, tab[buf[cur]];
      }
      // No case of the byte switch matches: the loop repeats with nothing changed.
      status := Hung;
      return true, flags;
    }

    /** advance(): consume the current token and scan the next one. */
    method Advance()
      requires Ready()
      modifies this, token, log
      ensures State() == LexerSpec.Advance(Inp(), old(State()))
    {
      var chFlags := tab[buf[cur]];
      while true
        invariant WellFormed(Inp()) && 0 <= cur && FlagsFor(buf, tab, cur, chFlags)
        invariant Loop(Inp(), State(), chFlags) == LexerSpec.Advance(Inp(), old(State()))
        decreases |buf| - cur
      {
        if cur >= |buf| {
          status := Overrun;
          return;
        }
        var done;
        done, chFlags := Iterate(chFlags);
        if done {
          return;
        }
      }
    }
  }
}
