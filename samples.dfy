/** The datums of the parser's smoke and print tests (DatumParserTest.cpp), and what
    the printer writes for them. */
module Samples {
  import opened Wrappers
  import opened Numbers
  import opened Format
  import opened Ast
  import opened AstDump

  /** A character of a plain symbol: printable, not a space, not '|' or '\'. */
  predicate PlainChar(c: char)
  {
    32 < c as int < 127 && c != '|' && c != '\\'
  }

  predicate PlainName(t: string)
  {
    forall i :: 0 <= i < |t| ==> PlainChar(t[i])
  }

  /** The symbol spelled t, each character taken as a byte. */
  function Sym(t: string): (n: Node)
    ensures n.Symbol? && |n.name| == |t|
  {
    Symbol(seq(|t|, i requires 0 <= i < |t| => (t[i] as int % 256) as byte))
  }

  /** The exact number v. */
  function N(v: int64): (n: Node)
    ensures n.Num? && IsExact(n.number) && GetExact(n.number) == v
  {
    BitsValueOfExactBits(v);
    Num(MakeExact(v))
  }

  /** A plain symbol prints as its own spelling. */
  lemma DumpPlain(p: Printers, t: string, indent: nat)
    requires PlainName(t)
    ensures DumpNode(p, Sym(t), indent) == t
  {
    var s := Sym(t).name;
    forall i | 0 <= i < |s|
      ensures !NeedsEscape(s[i]) && Text(s)[i] == t[i]
    {
      assert PlainChar(t[i]);
    }
  }

  /** An exact number prints as its signed decimal value. */
  lemma DumpExact(p: Printers, v: int64, indent: nat)
    ensures DumpNode(p, N(v), indent) == SignedDecimal(v)
  {
  }

  /** The datums of the smoke test, built as the test builds them. */
  function SmokeItems(): seq<Node>
  {
    [Sym("hello"), N(10), ListForm(), Dotted(), Improper(), Tens(), IfForm()]
  }

  /** (list -10 more) */
  function ListForm(): Node
  {
    Cons(Sym("list"), Cons(N(-10), Cons(Sym("more"), Null)))
  }

  /** (a . b) */
  function Dotted(): Node
  {
    Cons(Sym("a"), Sym("b"))
  }

  /** (1 2 3 . 4) */
  function Improper(): Node
  {
    Cons(N(1), Cons(N(2), Cons(N(3), N(4))))
  }

  /** (10 20 30), which the smoke input writes as (10 . (20 . (30 . ()))) */
  function Tens(): Node
  {
    Cons(N(10), Cons(N(20), Cons(N(30), Null)))
  }

  /** (if [> a 10] (display 1) (display a)) */
  function IfForm(): Node
  {
    Cons(Sym("if"),
      Cons(Cons(Sym(">"), Cons(Sym("a"), Cons(N(10), Null))),
        Cons(Cons(Sym("display"), Cons(N(1), Null)),
          Cons(Cons(Sym("display"), Cons(Sym("a"), Null)), Null))))
  }

  /** The tree the smoke test compares the parse with: the list of its datums. */
  function SmokeTree(): Node
  {
    List(SmokeItems())
  }

  lemma Decimals()
    ensures SignedDecimal(1) == "1" && SignedDecimal(2) == "2" && SignedDecimal(3) == "3"
    ensures SignedDecimal(4) == "4" && SignedDecimal(10) == "10" && SignedDecimal(20) == "20"
    ensures SignedDecimal(30) == "30" && SignedDecimal(-10) == "-10"
  {
    assert Decimal(10) == "10" by { assert Decimal(1) == "1"; }
    assert Decimal(20) == "20" by { assert Decimal(2) == "2"; }
    assert Decimal(30) == "30" by { assert Decimal(3) == "3"; }
  }

  lemma Indents()
    ensures Indent(1) == "    " && Indent(2) == "        "
  {
  }

  lemma Assoc(x: string, y: string, z: string)
    ensures x + (y + z) == x + y + z
  {
  }

  /** Appending a new line with its indentation and an element. */
  lemma LineAssoc(x: string, i: string, e: string)
    ensures x + ("\n" + i + e) == x + "\n" + i + e
  {
  }

  lemma TwoLayout(p: Printers, a: Node, b: Node, k: nat)
    ensures DumpNode(p, Cons(a, Cons(b, Null)), k)
      == "(" + DumpNode(p, a, k + 1) + "\n" + Indent(k + 1) + DumpNode(p, b, k + 1) + ")"
  {
    var x := "(" + DumpNode(p, a, k + 1);
    var lb := "\n" + Indent(k + 1) + DumpNode(p, b, k + 1);
    assert DumpRest(p, Cons(b, Null), k) == lb + "";
    assert lb + "" == lb;
    LineAssoc(x, Indent(k + 1), DumpNode(p, b, k + 1));
  }

  lemma ThreeLayout(p: Printers, a: Node, b: Node, c: Node, k: nat)
    ensures DumpNode(p, Cons(a, Cons(b, Cons(c, Null))), k)
      == "(" + DumpNode(p, a, k + 1) + "\n" + Indent(k + 1) + DumpNode(p, b, k + 1)
         + "\n" + Indent(k + 1) + DumpNode(p, c, k + 1) + ")"
  {
    var i := Indent(k + 1);
    var x := "(" + DumpNode(p, a, k + 1);
    var lb := "\n" + i + DumpNode(p, b, k + 1);
    var lc := "\n" + i + DumpNode(p, c, k + 1);
    assert DumpRest(p, Cons(c, Null), k) == lc + "";
    assert lc + "" == lc;
    assert DumpRest(p, Cons(b, Cons(c, Null)), k) == lb + lc;
    Assoc(x, lb, lc);
    LineAssoc(x, i, DumpNode(p, b, k + 1));
    LineAssoc(x + lb, i, DumpNode(p, c, k + 1));
  }

  lemma FourLayout(p: Printers, a: Node, b: Node, c: Node, d: Node, k: nat)
    ensures DumpNode(p, Cons(a, Cons(b, Cons(c, Cons(d, Null)))), k)
      == "(" + DumpNode(p, a, k + 1) + "\n" + Indent(k + 1) + DumpNode(p, b, k + 1)
         + "\n" + Indent(k + 1) + DumpNode(p, c, k + 1)
         + "\n" + Indent(k + 1) + DumpNode(p, d, k + 1) + ")"
  {
    var i := Indent(k + 1);
    var x := "(" + DumpNode(p, a, k + 1);
    var lb := "\n" + i + DumpNode(p, b, k + 1);
    var lc := "\n" + i + DumpNode(p, c, k + 1);
    var ld := "\n" + i + DumpNode(p, d, k + 1);
    assert DumpRest(p, Cons(d, Null), k) == ld + "";
    assert ld + "" == ld;
    assert DumpRest(p, Cons(c, Cons(d, Null)), k) == lc + ld;
    assert DumpRest(p, Cons(b, Cons(c, Cons(d, Null))), k) == lb + (lc + ld);
    Assoc(x, lb, lc + ld);
    Assoc(x + lb, lc, ld);
    LineAssoc(x, i, DumpNode(p, b, k + 1));
    LineAssoc(x + lb, i, DumpNode(p, c, k + 1));
    LineAssoc(x + lb + lc, i, DumpNode(p, d, k + 1));
  }

  lemma DottedLayout(p: Printers, a: Node, b: Node, k: nat)
    requires !b.Pair? && !b.Null?
    ensures DumpNode(p, Cons(a, b), k) == "(" + DumpNode(p, a, k + 1) + " . " + DumpNode(p, b, k + 1) + ")"
  {
    assert DumpRest(p, b, k) == " . " + DumpNode(p, b, k + 1);
    Assoc("(" + DumpNode(p, a, k + 1), " . ", DumpNode(p, b, k + 1));
  }

  lemma ImproperLayout(p: Printers, a: Node, b: Node, c: Node, d: Node, k: nat)
    requires !d.Pair? && !d.Null?
    ensures DumpNode(p, Cons(a, Cons(b, Cons(c, d))), k)
      == "(" + DumpNode(p, a, k + 1) + "\n" + Indent(k + 1) + DumpNode(p, b, k + 1)
         + "\n" + Indent(k + 1) + DumpNode(p, c, k + 1) + " . " + DumpNode(p, d, k + 1) + ")"
  {
    var i := Indent(k + 1);
    var x := "(" + DumpNode(p, a, k + 1);
    var lb := "\n" + i + DumpNode(p, b, k + 1);
    var lc := "\n" + i + DumpNode(p, c, k + 1);
    var t := " . " + DumpNode(p, d, k + 1);
    assert DumpNode(p, Cons(a, Cons(b, Cons(c, d))), k) == x + DumpRest(p, Cons(b, Cons(c, d)), k) + ")";
    ImproperRest(p, b, c, d, k);
    Assoc(x, lb, lc + t);
    Assoc(x + lb, lc, t);
    LineAssoc(x, i, DumpNode(p, b, k + 1));
    LineAssoc(x + lb, i, DumpNode(p, c, k + 1));
    Assoc(x + lb + lc, " . ", DumpNode(p, d, k + 1));
  }

  /** The spine after the first element of a three-element dotted list. */
  lemma ImproperRest(p: Printers, b: Node, c: Node, d: Node, k: nat)
    requires !d.Pair? && !d.Null?
    ensures DumpRest(p, Cons(b, Cons(c, d)), k)
      == ("\n" + Indent(k + 1) + DumpNode(p, b, k + 1))
         + (("\n" + Indent(k + 1) + DumpNode(p, c, k + 1)) + (" . " + DumpNode(p, d, k + 1)))
  {
    var i := Indent(k + 1);
    assert DumpRest(p, d, k) == " . " + DumpNode(p, d, k + 1);
    assert DumpRest(p, Cons(c, d), k) == ("\n" + i + DumpNode(p, c, k + 1)) + DumpRest(p, d, k);
    assert DumpRest(p, Cons(b, Cons(c, d)), k) == ("\n" + i + DumpNode(p, b, k + 1)) + DumpRest(p, Cons(c, d), k);
  }

  /** The text of (list -10 more) at the top level, piece by piece. */
  lemma ListFormText()
    ensures "(" + "list" + "\n" + "    " + "-10" + "\n" + "    " + "more" + ")" + "\n"
      == "(list\n    -10\n    more)\n"
  {
    assert "(" + "list" == "(list";
    assert "(list" + "\n" == "(list\n";
    assert "(list\n" + "    " == "(list\n    ";
    assert "(list\n    " + "-10" == "(list\n    -10";
    assert "(list\n    -10" + "\n" == "(list\n    -10\n";
    assert "(list\n    -10\n" + "    " == "(list\n    -10\n    ";
    assert "(list\n    -10\n    " + "more" == "(list\n    -10\n    more";
    assert "(list\n    -10\n    more" + ")" == "(list\n    -10\n    more)";
    assert "(list\n    -10\n    more)" + "\n" == "(list\n    -10\n    more)\n";
  }

  /** The text of (a . b) at the top level, piece by piece. */
  lemma DottedText()
    ensures "(" + "a" + " . " + "b" + ")" + "\n"
      == "(a . b)\n"
  {
    assert "(" + "a" == "(a";
    assert "(a" + " . " == "(a . ";
    assert "(a . " + "b" == "(a . b";
    assert "(a . b" + ")" == "(a . b)";
    assert "(a . b)" + "\n" == "(a . b)\n";
  }

  /** The text of (1 2 3 . 4) at the top level, piece by piece. */
  lemma ImproperText()
    ensures "(" + "1" + "\n" + "    " + "2" + "\n" + "    " + "3" + " . " + "4" + ")" + "\n"
      == "(1\n    2\n    3 . 4)\n"
  {
    assert "(" + "1" == "(1";
    assert "(1" + "\n" == "(1\n";
    assert "(1\n" + "    " == "(1\n    ";
    assert "(1\n    " + "2" == "(1\n    2";
    assert "(1\n    2" + "\n" == "(1\n    2\n";
    assert "(1\n    2\n" + "    " == "(1\n    2\n    ";
    assert "(1\n    2\n    " + "3" == "(1\n    2\n    3";
    assert "(1\n    2\n    3" + " . " == "(1\n    2\n    3 . ";
    assert "(1\n    2\n    3 . " + "4" == "(1\n    2\n    3 . 4";
    assert "(1\n    2\n    3 . 4" + ")" == "(1\n    2\n    3 . 4)";
    assert "(1\n    2\n    3 . 4)" + "\n" == "(1\n    2\n    3 . 4)\n";
  }

  /** The text of (10 20 30) at the top level, piece by piece. */
  lemma TensText()
    ensures "(" + "10" + "\n" + "    " + "20" + "\n" + "    " + "30" + ")" + "\n"
      == "(10\n    20\n    30)\n"
  {
    assert "(" + "10" == "(10";
    assert "(10" + "\n" == "(10\n";
    assert "(10\n" + "    " == "(10\n    ";
    assert "(10\n    " + "20" == "(10\n    20";
    assert "(10\n    20" + "\n" == "(10\n    20\n";
    assert "(10\n    20\n" + "    " == "(10\n    20\n    ";
    assert "(10\n    20\n    " + "30" == "(10\n    20\n    30";
    assert "(10\n    20\n    30" + ")" == "(10\n    20\n    30)";
    assert "(10\n    20\n    30)" + "\n" == "(10\n    20\n    30)\n";
  }

  /** The text of (> a 10) at indentation 1, piece by piece. */
  lemma ComparisonText()
    ensures "(" + ">" + "\n" + "        " + "a" + "\n" + "        " + "10" + ")"
      == "(>\n        a\n        10)"
  {
    assert "(" + ">" == "(>";
    assert "(>" + "\n" == "(>\n";
    assert "(>\n" + "        " == "(>\n        ";
    assert "(>\n        " + "a" == "(>\n        a";
    assert "(>\n        a" + "\n" == "(>\n        a\n";
    assert "(>\n        a\n" + "        " == "(>\n        a\n        ";
    assert "(>\n        a\n        " + "10" == "(>\n        a\n        10";
    assert "(>\n        a\n        10" + ")" == "(>\n        a\n        10)";
  }

  /** The text of (display 1) at indentation 1, piece by piece. */
  lemma DisplayOneText()
    ensures "(" + "display" + "\n" + "        " + "1" + ")"
      == "(display\n        1)"
  {
    assert "(" + "display" == "(display";
    assert "(display" + "\n" == "(display\n";
    assert "(display\n" + "        " == "(display\n        ";
    assert "(display\n        " + "1" == "(display\n        1";
    assert "(display\n        1" + ")" == "(display\n        1)";
  }

  /** The text of (display a) at indentation 1, piece by piece. */
  lemma DisplayAText()
    ensures "(" + "display" + "\n" + "        " + "a" + ")"
      == "(display\n        a)"
  {
    assert "(" + "display" == "(display";
    assert "(display" + "\n" == "(display\n";
    assert "(display\n" + "        " == "(display\n        ";
    assert "(display\n        " + "a" == "(display\n        a";
    assert "(display\n        a" + ")" == "(display\n        a)";
  }

  lemma IfFormText1()
    ensures "(" + "if" == "(if"
    ensures "(if" + "\n" == "(if\n"
  {
  }

  lemma IfFormText2()
    ensures "(if\n" + "    " == "(if\n    "
    ensures "(if\n    " + "(>\n        a\n        10)" == "(if\n    (>\n        a\n        10)"
  {
  }

  lemma IfFormText3()
    ensures "(if\n    (>\n        a\n        10)" + "\n" == "(if\n    (>\n        a\n        10)\n"
    ensures "(if\n    (>\n        a\n        10)\n" + "    " == "(if\n    (>\n        a\n        10)\n    "
  {
  }

  lemma IfFormText4()
    ensures "(if\n    (>\n        a\n        10)\n    " + "(display\n        1)" == "(if\n    (>\n        a\n        10)\n    (display\n        1)"
    ensures "(if\n    (>\n        a\n        10)\n    (display\n        1)" + "\n" == "(if\n    (>\n        a\n        10)\n    (display\n        1)\n"
  {
  }

  lemma IfFormText5()
    ensures "(if\n    (>\n        a\n        10)\n    (display\n        1)\n" + "    " == "(if\n    (>\n        a\n        10)\n    (display\n        1)\n    "
    ensures "(if\n    (>\n        a\n        10)\n    (display\n        1)\n    " + "(display\n        a)" == "(if\n    (>\n        a\n        10)\n    (display\n        1)\n    (display\n        a)"
  {
  }

  lemma IfFormText6()
    ensures "(if\n    (>\n        a\n        10)\n    (display\n        1)\n    (display\n        a)" + ")" == "(if\n    (>\n        a\n        10)\n    (display\n        1)\n    (display\n        a))"
    ensures "(if\n    (>\n        a\n        10)\n    (display\n        1)\n    (display\n        a))" + "\n" == "(if\n    (>\n        a\n        10)\n    (display\n        1)\n    (display\n        a))\n"
  {
  }

  /** The text of the if form at the top level, piece by piece. */
  lemma IfFormText()
    ensures "(" + "if" + "\n" + "    " + "(>\n        a\n        10)" + "\n" + "    " + "(display\n        1)" + "\n" + "    " + "(display\n        a)" + ")" + "\n"
      == "(if\n    (>\n        a\n        10)\n    (display\n        1)\n    (display\n        a))\n"
  {
    IfFormText1();
    IfFormText2();
    IfFormText3();
    IfFormText4();
    IfFormText5();
    IfFormText6();
  }


  lemma DumpHello(p: Printers)
    ensures Dump(p, Sym("hello")) == "hello\n"
  {
    DumpPlain(p, "hello", 0);
  }

  lemma DumpTen(p: Printers)
    ensures Dump(p, N(10)) == "10\n"
  {
    Decimals();
  }

  lemma DumpListForm(p: Printers)
    ensures Dump(p, ListForm()) == "(list\n    -10\n    more)\n"
  {
    Decimals();
    Indents();
    DumpPlain(p, "list", 1);
    DumpPlain(p, "more", 1);
    ThreeLayout(p, Sym("list"), N(-10), Sym("more"), 0);
    ListFormText();
  }

  lemma DumpDotted(p: Printers)
    ensures Dump(p, Dotted()) == "(a . b)\n"
  {
    DumpPlain(p, "a", 1);
    DumpPlain(p, "b", 1);
    DottedLayout(p, Sym("a"), Sym("b"), 0);
    DottedText();
  }

  lemma DumpImproper(p: Printers)
    ensures Dump(p, Improper()) == "(1\n    2\n    3 . 4)\n"
  {
    Decimals();
    Indents();
    ImproperLayout(p, N(1), N(2), N(3), N(4), 0);
    ImproperText();
  }

  lemma DumpTens(p: Printers)
    ensures Dump(p, Tens()) == "(10\n    20\n    30)\n"
  {
    Decimals();
    Indents();
    ThreeLayout(p, N(10), N(20), N(30), 0);
    TensText();
  }

  lemma DumpComparison(p: Printers)
    ensures DumpNode(p, Cons(Sym(">"), Cons(Sym("a"), Cons(N(10), Null))), 1) == "(>\n        a\n        10)"
  {
    Decimals();
    Indents();
    DumpPlain(p, ">", 2);
    DumpPlain(p, "a", 2);
    ThreeLayout(p, Sym(">"), Sym("a"), N(10), 1);
    ComparisonText();
  }

  lemma DumpDisplays(p: Printers)
    ensures DumpNode(p, Cons(Sym("display"), Cons(N(1), Null)), 1) == "(display\n        1)"
    ensures DumpNode(p, Cons(Sym("display"), Cons(Sym("a"), Null)), 1) == "(display\n        a)"
  {
    Decimals();
    Indents();
    DumpPlain(p, "display", 2);
    DumpPlain(p, "a", 2);
    TwoLayout(p, Sym("display"), N(1), 1);
    TwoLayout(p, Sym("display"), Sym("a"), 1);
    DisplayOneText();
    DisplayAText();
  }

  /** FourLayout with the texts of the elements already known. */
  lemma FourLayoutOf(p: Printers, a: Node, b: Node, c: Node, d: Node, k: nat, ta: string, tb: string, tc: string, td: string)
    requires DumpNode(p, a, k + 1) == ta && DumpNode(p, b, k + 1) == tb
    requires DumpNode(p, c, k + 1) == tc && DumpNode(p, d, k + 1) == td
    ensures DumpNode(p, Cons(a, Cons(b, Cons(c, Cons(d, Null)))), k)
      == "(" + ta + "\n" + Indent(k + 1) + tb + "\n" + Indent(k + 1) + tc + "\n" + Indent(k + 1) + td + ")"
  {
    FourLayout(p, a, b, c, d, k);
  }

  lemma IfFormLayout(p: Printers)
    ensures DumpNode(p, IfForm(), 0)
      == "(" + "if" + "\n" + "    " + "(>\n        a\n        10)" + "\n" + "    " + "(display\n        1)"
         + "\n" + "    " + "(display\n        a)" + ")"
  {
    Indents();
    DumpPlain(p, "if", 1);
    DumpComparison(p);
    DumpDisplays(p);
    FourLayoutOf(p, Sym("if"), Cons(Sym(">"), Cons(Sym("a"), Cons(N(10), Null))),
      Cons(Sym("display"), Cons(N(1), Null)), Cons(Sym("display"), Cons(Sym("a"), Null)), 0,
      "if", "(>\n        a\n        10)", "(display\n        1)", "(display\n        a)");
  }

  lemma DumpIfForm(p: Printers)
    ensures Dump(p, IfForm())
      == "(if\n    (>\n        a\n        10)\n    (display\n        1)\n    (display\n        a))\n"
  {
    IfFormLayout(p);
    IfFormText();
  }

  lemma SmokeElements()
    ensures Elements(SmokeTree()) == SmokeItems()
  {
    ListContents(SmokeItems());
  }

  /** The first four top-level datums of the smoke input dump as expected. */
  lemma PrintTestHead(p: Printers)
    ensures var items := SmokeItems();
      Dump(p, items[0]) == "hello\n"
      && Dump(p, items[1]) == "10\n"
      && Dump(p, items[2]) == "(list\n    -10\n    more)\n"
      && Dump(p, items[3]) == "(a . b)\n"
  {
    DumpHello(p);
    DumpTen(p);
    DumpListForm(p);
    DumpDotted(p);
  }

  /** The last three top-level datums of the smoke input dump as expected. */
  lemma PrintTestTail(p: Printers)
    ensures var items := SmokeItems();
      Dump(p, items[4]) == "(1\n    2\n    3 . 4)\n"
      && Dump(p, items[5]) == "(10\n    20\n    30)\n"
      && Dump(p, items[6]) == "(if\n    (>\n        a\n        10)\n    (display\n        1)\n    (display\n        a))\n"
  {
    DumpImproper(p);
    DumpTens(p);
    DumpIfForm(p);
  }

  /** The print test: dumping each top-level datum of the smoke input, in order, writes
      exactly the expected text. */
  lemma PrintTest(p: Printers)
    ensures var items := Elements(SmokeTree());
      |items| == 7
      && Dump(p, items[0]) == "hello\n"
      && Dump(p, items[1]) == "10\n"
      && Dump(p, items[2]) == "(list\n    -10\n    more)\n"
      && Dump(p, items[3]) == "(a . b)\n"
      && Dump(p, items[4]) == "(1\n    2\n    3 . 4)\n"
      && Dump(p, items[5]) == "(10\n    20\n    30)\n"
      && Dump(p, items[6]) == "(if\n    (>\n        a\n        10)\n    (display\n        1)\n    (display\n        a))\n"
  {
    SmokeElements();
    PrintTestHead(p);
    PrintTestTail(p);
  }
}
