/** The AST printer of AST.cpp: dump and its per-kind helpers, written as functions
    that return the text the printer sends to its stream.

    Three pieces of the printer call code that is not part of this model: the printing of
    a double, LLVM's write_escaped for string contents and the character names of
    Characters.def. They are the fields of a Printers value. */
module AstDump {
  import opened Wrappers
  import opened Numbers
  import opened Format
  import opened Ast

  datatype Printers = Printers(
    double: uint64 -> string,
    escaped: seq<byte> -> string,
    charName: nat -> Option<string>)

  /** Bytes written to the stream one by one. */
  function Text(s: seq<byte>): (t: string)
    ensures |t| == |s| && forall i :: 0 <= i < |s| ==> t[i] as int == s[i] as int
  {
    seq(|s|, i requires 0 <= i < |s| => s[i] as char)
  }

  /** The bytes of a string whose characters all fit in a byte. */
  function Bytes(t: string): (s: seq<byte>)
    requires forall i :: 0 <= i < |t| ==> t[i] as int < 256
    ensures Text(s) == t
  {
    seq(|t|, i requires 0 <= i < |t| => t[i] as int as byte)
  }

  /** operator<< of an int64: an optional minus sign and the decimal digits. */
  function SignedDecimal(v: int): (t: string)
    ensures |t| > 0 && (v < 0 <==> t[0] == '-')
    ensures var d := if v < 0 then t[1..] else t;
      (forall i :: 0 <= i < |d| ==> '0' <= d[i] <= '9') && DigitsValue(d) == if v < 0 then -v else v
  {
    DecimalRoundTrip(if v < 0 then -v else v);
    if v < 0 then "-" + Decimal(-v) else Decimal(v)
  }

  /** dumpNumber, through Number's operator<<: an exact number prints as its signed
      decimal digits, which read back as its value. */
  function DumpNumber(p: Printers, n: Number): (t: string)
    ensures IsExact(n) ==> |t| > 0 && (GetExact(n) < 0 <==> t[0] == '-')
    ensures IsExact(n) ==> var v: int := GetExact(n); var d := if v < 0 then t[1..] else t;
      (forall i :: 0 <= i < |d| ==> '0' <= d[i] <= '9') && DigitsValue(d) == if v < 0 then -v else v
    ensures !IsExact(n) ==> t == p.double(GetInexact(n))
  {
    if IsExact(n) then SignedDecimal(GetExact(n)) else p.double(GetInexact(n))
  }

  /** dumpBoolean. */
  function DumpBoolean(b: bool): (t: string)
    ensures |t| == 2 && t[0] == '#' && (t[1] == 't' <==> b) && (t[1] == 'f' <==> !b)
  {
    if b then "#t" else "#f"
  }

  /** dumpNull. */
  function DumpNull(): (t: string)
    ensures t == "()"
  {
    "()"
  }

  /** dumpCharacter: its name when it has one, the character itself when it is printable
      and not a space, its code in hexadecimal otherwise. */
  function DumpCharacter(p: Printers, ch: nat): (t: string)
    ensures |t| >= 2 && t[..2] == "#\\"
    ensures p.charName(ch).Some? ==> t[2..] == p.charName(ch).value
    ensures p.charName(ch).None? && 32 < ch < 127 ==> |t| == 3 && t[2] as int == ch
    ensures p.charName(ch).None? && !(32 < ch < 127) ==> |t| > 4 && t[2..4] == "0x"
  {
    "#\\" + (match p.charName(ch)
             case Some(name) => name
             case None => if 32 < ch < 127 then [ch as char] else "0x" + Hex(ch))
  }

  /** dumpString. */
  function DumpString(p: Printers, s: seq<byte>): (t: string)
    ensures |t| >= 2 && t[0] == '"' && t[|t| - 1] == '"' && t[1..|t| - 1] == p.escaped(s)
  {
    "\"" + p.escaped(s) + "\""
  }

  // ---------------------------------------------------------------- symbols

  /** A byte that makes dumpSymbol bar-quote the whole symbol. */
  predicate NeedsEscape(b: byte)
    ensures NeedsEscape(b) <==> !(33 <= b <= 126) || b == 124 || b == 92
  {
    b <= 32 || b >= 127 || b == '|' as int || b == '\\' as int
  }

  predicate NeedsBars(s: seq<byte>)
    ensures !NeedsBars(s) <==> forall i :: 0 <= i < |s| ==> 33 <= s[i] <= 126 && s[i] != 124 && s[i] != 92
  {
    exists i :: 0 <= i < |s| && NeedsEscape(s[i])
  }

  /** The value of a plain `char` on a target where char is signed (x86-64). */
  function SignedChar(b: byte): (c: int)
    ensures -128 <= c < 128 && (c < 0 <==> b >= 128)
  {
    if b < 128 then b as int else b as int - 256
  }

  /** The test of dumpSymbol's first loop, on a signed char: it picks exactly the bytes of
      NeedsEscape, since every byte above 127 reads as a negative char. */
  lemma SignedTestIsNeedsEscape(b: byte)
    ensures (var c := SignedChar(b); c <= 32 || c >= 127 || c == '|' as int || c == '\\' as int)
      <==> NeedsEscape(b)
  {
  }

  /** The first loop of dumpSymbol: does any byte need escaping? */
  method ScanEscaping(s: seq<byte>) returns (escaping: bool)
    ensures escaping == NeedsBars(s)
  {
    escaping := false;
    var i := 0;
    while i < |s|
      invariant 0 <= i <= |s|
      invariant forall k :: 0 <= k < i ==> !NeedsEscape(s[k])
    {
      if NeedsEscape(s[i]) {
        escaping := true;
        return;
      }
      i := i + 1;
    }
  }

  /** The named escapes dumpSymbol writes inside bars. */
  function NamedEscape(b: byte): Option<char>
  {
    if b == 7 then Some('a')
    else if b == 8 then Some('b')
    else if b == 9 then Some('t')
    else if b == 10 then Some('n')
    else if b == 13 then Some('r')
    else if b == '|' as int then Some('|')
    else if b == '\\' as int then Some('\\')
    else None
  }

  /** The byte a named escape stands for. */
  function EscapedByte(e: char): Option<byte>
  {
    if e == 'a' then Some(7)
    else if e == 'b' then Some(8)
    else if e == 't' then Some(9)
    else if e == 'n' then Some(10)
    else if e == 'r' then Some(13)
    else if e == '|' then Some('|' as int as byte)
    else if e == '\\' then Some('\\' as int as byte)
    else None
  }

  /** How the source writes one byte inside the bars: `%x` of a signed char is the
      32-bit two's complement pattern of the promoted int, and no backslash precedes it. */
  function EscapeByteAsWritten(b: byte): string
  {
    var c := SignedChar(b);
    match NamedEscape(b)
    case Some(e) => ['\\', e]
    case None =>
      if 32 <= c < 127 then [b as char]
      else "0x" + Hex(if c < 0 then c + 0x1_0000_0000 else c) + ";"
  }

  function EscapedAsWritten(s: seq<byte>): (t: string)
    ensures |t| >= |s| && (t == [] <==> s == [])
  {
    if s == [] then "" else EscapeByteAsWritten(s[0]) + EscapedAsWritten(s[1..])
  }

  /** dumpSymbol as written: the bytes themselves when none needs escaping, otherwise
      the escaped bytes between bars. */
  function DumpSymbolAsWritten(s: seq<byte>): (t: string)
    ensures !NeedsBars(s) ==> t == Text(s)
    ensures NeedsBars(s) ==> |t| >= 2 + |s| && t[0] == '|' && t[|t| - 1] == '|'
  {
    if NeedsBars(s) then "|" + EscapedAsWritten(s) + "|" else Text(s)
  }

  /** The byte 1 inside the bars. */
  lemma EscapeOneAsWritten()
    ensures EscapeByteAsWritten(1) == "0x1;"
  {
    assert Hex(1) == "1";
  }

  lemma DumpOneOneAsWritten()
    ensures DumpSymbolAsWritten([1, 1]) == "|0x1;0x1;|"
  {
    var a: seq<byte> := [1, 1];
    assert NeedsEscape(a[0]);
    EscapeOneAsWritten();
    assert EscapedAsWritten(a[1..]) == "0x1;";
    assert EscapedAsWritten(a) == "0x1;" + "0x1;";
  }

  lemma DumpSpelledOneAsWritten()
    ensures DumpSymbolAsWritten(['0' as int as byte, 'x' as int as byte, '1' as int as byte, ';' as int as byte, 1])
      == "|0x1;0x1;|"
  {
    var b: seq<byte> := ['0' as int as byte, 'x' as int as byte, '1' as int as byte, ';' as int as byte, 1];
    assert NeedsEscape(b[4]);
    EscapeOneAsWritten();
    assert EscapedAsWritten(b[4..]) == "0x1;";
    assert EscapedAsWritten(b[3..]) == ";0x1;";
    assert EscapedAsWritten(b[2..]) == "1;0x1;";
    assert EscapedAsWritten(b[1..]) == "x1;0x1;";
  }

  /** Two different symbols print alike: the hexadecimal escape lacks its backslash, so
      the byte 1 and the four characters `0x1;` are indistinguishable inside the bars. */
  lemma AsWrittenCollides()
    ensures var a: seq<byte> := [1, 1];
      var b: seq<byte> := ['0' as int as byte, 'x' as int as byte, '1' as int as byte, ';' as int as byte, 1];
      a != b && DumpSymbolAsWritten(a) == DumpSymbolAsWritten(b) == "|0x1;0x1;|"
  {
    DumpOneOneAsWritten();
    DumpSpelledOneAsWritten();
  }

  /** %x of the int -128 promoted to unsigned. */
  lemma HexOfMinus128()
    ensures Hex(0xffff_ff80) == "ffffff80"
  {
    assert Hex(0xf) == "f";
    assert Hex(0xff) == "ff";
    assert Hex(0xfff) == "fff";
    assert Hex(0xffff) == "ffff";
    assert Hex(0xf_ffff) == "fffff";
    assert Hex(0xff_ffff) == "ffffff";
    assert Hex(0xfff_fff8) == "ffffff8";
  }

  lemma EscapeHighAsWritten()
    ensures EscapeByteAsWritten(0x80) == "0xffffff80;"
  {
    HexOfMinus128();
  }

  /** A byte above 127 prints as a sign-extended 32-bit pattern. */
  lemma AsWrittenSignExtends()
    ensures DumpSymbolAsWritten([0x80]) == "|0xffffff80;|"
  {
    var s: seq<byte> := [0x80];
    assert NeedsEscape(s[0]);
    EscapeHighAsWritten();
    assert EscapedAsWritten(s) == "0xffffff80;" + "";
  }

  /** One byte inside the bars, as R7RS writes it: `\x<hex>;` for non-printables, with
      the byte read as unsigned. */
  function EscapeByte(b: byte): (t: string)
    ensures |t| > 0 && t[0] != '|'
  {
    match NamedEscape(b)
    case Some(e) => ['\\', e]
    case None =>
      if 32 <= b < 127 then [b as char]
      else "\\x" + Hex(b as nat) + ";"
  }

  function Escaped(s: seq<byte>): (t: string)
    ensures |t| >= |s| && (s != [] ==> t[0] != '|') && (t == [] <==> s == [])
  {
    if s == [] then "" else EscapeByte(s[0]) + Escaped(s[1..])
  }

  /** dumpSymbol, with the hexadecimal escape R7RS defines. */
  function DumpSymbol(s: seq<byte>): (t: string)
    ensures !NeedsBars(s) ==> t == Text(s)
    ensures NeedsBars(s) ==> |t| >= 2 + |s| && t[0] == '|' && t[|t| - 1] == '|'
  {
    if NeedsBars(s) then "|" + Escaped(s) + "|" else Text(s)
  }

  /** The value of a string of lower-case hexadecimal digits, most significant first. */
  function HexValue(t: string): nat
    decreases |t|
  {
    if t == [] then 0 else HexValue(t[..|t| - 1]) * 16 + HexDigitValue(t[|t| - 1])
  }

  function HexDigitValue(c: char): nat
  {
    if '0' <= c <= '9' then c as int - '0' as int
    else if 'a' <= c <= 'f' then c as int - 'a' as int + 10
    else 0
  }

  predicate IsHexDigits(t: string)
  {
    forall i :: 0 <= i < |t| ==> '0' <= t[i] <= '9' || 'a' <= t[i] <= 'f'
  }

  /** %x reads back as its value and holds only digits. */
  lemma {:induction false} HexRoundTrip(n: nat)
    ensures IsHexDigits(Hex(n)) && HexValue(Hex(n)) == n
    decreases n
  {
    if n >= 16 {
      HexRoundTrip(n / 16);
      var t := Hex(n);
      assert t[..|t| - 1] == Hex(n / 16);
    }
  }

  /** The index of the first `c` in t, or |t|. */
  function FirstIndex(t: string, c: char): (j: nat)
    ensures j <= |t| && (j < |t| ==> t[j] == c)
    ensures forall k :: 0 <= k < j ==> t[k] != c
    decreases |t|
  {
    if t == [] then 0 else if t[0] == c then 0 else 1 + FirstIndex(t[1..], c)
  }

  /** Reads the inside of a bar-quoted symbol up to and including its closing bar, which
      must end the text. */
  function ReadBody(t: string): (r: Option<seq<byte>>)
    ensures r.Some? ==> |r.value| < |t| && t[|t| - 1] == '|'
    decreases |t|
  {
    if t == [] then None
    else if t[0] == '|' then (if |t| == 1 then Some([]) else None)
    else if t[0] == '\\' then
      if |t| < 2 then None
      else if t[1] == 'x' then
        var j := FirstIndex(t[2..], ';');
        var v := HexValue(t[2..2 + j]);
        if j == |t| - 2 || v >= 256 then None
        else Prepend(v as byte, ReadBody(t[2 + j + 1..]))
      else match EscapedByte(t[1])
        case None => None
        case Some(b) => Prepend(b, ReadBody(t[2..]))
    else if t[0] as int < 256 then Prepend(t[0] as int as byte, ReadBody(t[1..]))
    else None
  }

  function Prepend(b: byte, r: Option<seq<byte>>): (q: Option<seq<byte>>)
    ensures q.Some? <==> r.Some?
    ensures q.Some? ==> q.value == [b] + r.value
  {
    if r.Some? then Some([b] + r.value) else None
  }

  /** Reads a symbol back from what DumpSymbol prints: a text without a leading bar is
      read byte for byte. */
  function ReadSymbol(t: string): (r: Option<seq<byte>>)
    ensures (t == [] || t[0] != '|') ==> (r.Some? <==> forall i :: 0 <= i < |t| ==> t[i] as int < 256)
    ensures (t == [] || t[0] != '|') && r.Some? ==> Text(r.value) == t
  {
    if |t| > 0 && t[0] == '|' then ReadBody(t[1..])
    else if forall i :: 0 <= i < |t| ==> t[i] as int < 256 then Some(Bytes(t))
    else None
  }

  lemma ReadHexEscape(b: byte, rest: string)
    requires NamedEscape(b).None? && !(32 <= b < 127)
    ensures ReadBody(EscapeByte(b) + rest) == Prepend(b, ReadBody(rest))
  {
    var h := Hex(b as nat);
    var t := "\\x" + h + ";" + rest;
    assert EscapeByte(b) + rest == t;
    HexRoundTrip(b as nat);
    assert t[2..] == h + ";" + rest;
    var j := FirstIndex(t[2..], ';');
    assert j == |h| by {
      assert (h + ";" + rest)[|h|] == ';';
    }
    assert t[2..2 + j] == h;
    assert t[2 + j + 1..] == rest;
  }

  lemma ReadNamedEscape(b: byte, rest: string)
    requires NamedEscape(b).Some?
    ensures ReadBody(EscapeByte(b) + rest) == Prepend(b, ReadBody(rest))
  {
    var t := ['\\', NamedEscape(b).value] + rest;
    assert EscapeByte(b) + rest == t;
    assert t[2..] == rest;
  }

  lemma ReadPlainByte(b: byte, rest: string)
    requires NamedEscape(b).None? && 32 <= b < 127
    ensures ReadBody(EscapeByte(b) + rest) == Prepend(b, ReadBody(rest))
  {
    var t := [b as char] + rest;
    assert EscapeByte(b) + rest == t;
    assert t[1..] == rest;
  }

  /** Reading one escaped byte consumes exactly what EscapeByte wrote. */
  lemma ReadEscapeByte(b: byte, rest: string)
    ensures ReadBody(EscapeByte(b) + rest) == Prepend(b, ReadBody(rest))
  {
    if NamedEscape(b).Some? {
      ReadNamedEscape(b, rest);
    } else if 32 <= b < 127 {
      ReadPlainByte(b, rest);
    } else {
      ReadHexEscape(b, rest);
    }
  }

  lemma {:induction false} ReadEscaped(s: seq<byte>)
    ensures ReadBody(Escaped(s) + "|") == Some(s)
    decreases |s|
  {
    if s == [] {
    } else {
      ReadEscaped(s[1..]);
      assert Escaped(s) + "|" == EscapeByte(s[0]) + (Escaped(s[1..]) + "|");
      ReadEscapeByte(s[0], Escaped(s[1..]) + "|");
      assert [s[0]] + s[1..] == s;
    }
  }

  /** What DumpSymbol prints reads back as the symbol, so distinct symbols print
      differently. */
  lemma DumpSymbolRoundTrip(s: seq<byte>)
    ensures ReadSymbol(DumpSymbol(s)) == Some(s)
  {
    if NeedsBars(s) {
      ReadEscaped(s);
      assert ("|" + Escaped(s) + "|")[1..] == Escaped(s) + "|";
    } else {
      var t := Text(s);
      assert Bytes(t) == s;
    }
  }

  lemma DumpSymbolInjective(a: seq<byte>, b: seq<byte>)
    ensures DumpSymbol(a) == DumpSymbol(b) <==> a == b
  {
    DumpSymbolRoundTrip(a);
    DumpSymbolRoundTrip(b);
  }

  /** A byte that the hexadecimal escape prints: neither named nor printable. */
  predicate HexEscaped(b: byte)
  {
    NamedEscape(b).None? && !(32 <= b < 127)
  }

  /** The two escapes write one byte alike exactly when it is not hex-escaped. */
  lemma EscapeByteAgrees(b: byte)
    ensures EscapeByte(b) == EscapeByteAsWritten(b) <==> !HexEscaped(b)
  {
    if HexEscaped(b) {
      var t := EscapeByteAsWritten(b);
      assert t[0] == '0' && EscapeByte(b)[0] == '\\';
    }
  }

  lemma {:induction false} EscapedAgrees(s: seq<byte>)
    requires forall i :: 0 <= i < |s| ==> !HexEscaped(s[i])
    ensures Escaped(s) == EscapedAsWritten(s)
    decreases |s|
  {
    if s != [] {
      EscapeByteAgrees(s[0]);
      EscapedAgrees(s[1..]);
    }
  }

  /** dumpSymbol as written and with the R7RS escape print a symbol alike unless one of
      its bytes is hex-escaped, and then they differ: the two printers part exactly on
      the bytes of the two findings at AST.cpp:174. */
  lemma SymbolPrintersAgree(s: seq<byte>)
    ensures DumpSymbolAsWritten(s) == DumpSymbol(s) <==> forall i :: 0 <= i < |s| ==> !HexEscaped(s[i])
  {
    if forall i :: 0 <= i < |s| ==> !HexEscaped(s[i]) {
      if NeedsBars(s) {
        EscapedAgrees(s);
      }
    } else {
      var i :| 0 <= i < |s| && HexEscaped(s[i]);
      assert NeedsBars(s) by {
        assert NeedsEscape(s[i]);
      }
      EscapedDiffer(s, i);
      var a, b := DumpSymbolAsWritten(s), DumpSymbol(s);
      assert a[1..|a| - 1] == EscapedAsWritten(s);
      assert b[1..|b| - 1] == Escaped(s);
    }
  }

  /** A hex-escaped byte makes the escaped texts differ. */
  lemma {:induction false} EscapedDiffer(s: seq<byte>, i: nat)
    requires i < |s| && HexEscaped(s[i])
    ensures Escaped(s) != EscapedAsWritten(s)
    decreases |s|
  {
    var x, y := Escaped(s), EscapedAsWritten(s);
    if HexEscaped(s[0]) {
      assert x[0] == '\\' && y[0] == '0';
    } else {
      EscapeByteAgrees(s[0]);
      var e := EscapeByte(s[0]);
      EscapedDiffer(s[1..], i - 1);
      assert x[|e|..] == Escaped(s[1..]);
      assert y[|e|..] == EscapedAsWritten(s[1..]);
    }
  }

  // ---------------------------------------------------------------- nodes

  function Indent(n: nat): (t: string)
    ensures |t| == 4 * n
  {
    Spaces(4 * n)
  }

  /** dump(OS, node, indent), dispatching on the kind of the node. Symbols print through
      dumpSymbol as written. */
  function DumpNode(p: Printers, n: Node, indent: nat): (t: string)
    ensures n.Symbol? ==> t == DumpSymbolAsWritten(n.name)
    ensures n.Null? ==> t == "()"
    decreases n, 1
  {
    match n
    case Boolean(b) => DumpBoolean(b)
    case Character(ch) => DumpCharacter(p, ch)
    case Str(s) => DumpString(p, s)
    case Symbol(name) => DumpSymbolAsWritten(name)
    case Num(x) => DumpNumber(p, x)
    case Null => DumpNull()
    case Pair(_, _) => DumpPair(p, n, indent)
  }

  /** dumpPair: "(" and the car, then the rest of the spine. */
  function DumpPair(p: Printers, n: Node, indent: nat): string
    requires n.Pair?
    decreases n, 0
  {
    "(" + DumpNode(p, n.car, indent + 1) + DumpRest(p, n.cdr, indent) + ")"
  }

  /** The loop of dumpPair over the cdrs, and the dotted tail after it. */
  function DumpRest(p: Printers, t: Node, indent: nat): string
    decreases t, 2
  {
    if t.Pair? then "\n" + Indent(indent + 1) + DumpNode(p, t.car, indent + 1) + DumpRest(p, t.cdr, indent)
    else if t.Null? then ""
    else " . " + DumpNode(p, t, indent + 1)
  }

  /** Each of the elements on a line of its own, indented. */
  function Lines(p: Printers, xs: seq<Node>, indent: nat): string
    decreases |xs|
  {
    if xs == [] then "" else "\n" + Indent(indent) + DumpNode(p, xs[0], indent) + Lines(p, xs[1..], indent)
  }

  /** The dotted tail: nothing for Null, " . x" otherwise. */
  function TailText(p: Printers, t: Node, indent: nat): string
  {
    if t.Null? then "" else " . " + DumpNode(p, t, indent)
  }

  lemma {:induction false} DumpRestLayout(p: Printers, t: Node, indent: nat)
    ensures DumpRest(p, t, indent) == Lines(p, Elements(t), indent + 1) + TailText(p, LastCdr(t), indent + 1)
  {
    if t.Pair? {
      DumpRestLayout(p, t.cdr, indent);
      assert Elements(t)[1..] == Elements(t.cdr);
    }
  }

  /** dumpPair prints the first element after "(", every further element on a new line
      indented by 4*(indent+1) spaces, " . x" for an improper tail x, and ")". */
  lemma DumpPairLayout(p: Printers, n: Node, indent: nat)
    requires n.Pair?
    ensures DumpPair(p, n, indent) ==
      "(" + DumpNode(p, Elements(n)[0], indent + 1) + Lines(p, Elements(n)[1..], indent + 1)
      + TailText(p, LastCdr(n), indent + 1) + ")"
  {
    DumpRestLayout(p, n.cdr, indent);
    assert Elements(n)[1..] == Elements(n.cdr);
  }

  /** A list printed on one line per element: the layout for a proper list. */
  lemma ProperListLayout(p: Printers, xs: seq<Node>, indent: nat)
    requires xs != []
    ensures DumpNode(p, List(xs), indent) ==
      "(" + DumpNode(p, xs[0], indent + 1) + Lines(p, xs[1..], indent + 1) + ")"
  {
    ListContents(xs);
    DumpPairLayout(p, List(xs), indent);
  }

  /** A list prints between parentheses; after the car comes nothing for a Null cdr, a
      newline for a further pair and " . " for an improper tail. */
  lemma DumpListShape(p: Printers, n: Node, indent: nat)
    requires n.Pair?
    ensures var t := DumpNode(p, n, indent); |t| >= 2 && t[0] == '(' && t[|t| - 1] == ')'
    ensures var r := DumpRest(p, n.cdr, indent);
      (r == [] <==> n.cdr.Null?)
      && (n.cdr.Pair? ==> r[0] == '\n')
      && (!n.cdr.Pair? && !n.cdr.Null? ==> |r| >= 3 && r[..3] == " . ")
  {
  }

  /** dump(OS, node): the node at indentation 0 and a newline. */
  function Dump(p: Printers, n: Node): (t: string)
    ensures |t| > 0 && t[|t| - 1] == '\n' && t[..|t| - 1] == DumpNode(p, n, 0)
  {
    DumpNode(p, n, 0) + "\n"
  }
}
