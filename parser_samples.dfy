/** The parser's print and smoke tests (DatumParserTest.cpp), stated over the token
    streams of their inputs: the Syn trees below spell those inputs token by token. */
module ParserSamples {
  import opened Wrappers
  import opened Numbers
  import opened Tokens
  import opened Ast
  import opened ParserSpec
  import opened ParserSyntax
  import opened Samples

  /** No token of ts carries a lexical error. */
  predicate Unmarked(ts: seq<Lexeme>)
  {
    forall i :: 0 <= i < |ts| ==> ts[i].errs == []
  }

  /** x is a datum the parser reads back, at most d deep, spelled by error-free tokens. */
  predicate Good(x: Syn, d: nat)
  {
    WellFormed(x) && DepthAtMost(x, d) && Unmarked(Lexemes(x))
  }

  lemma UnmarkedJoin(a: seq<Lexeme>, b: seq<Lexeme>)
    requires Unmarked(a) && Unmarked(b)
    ensures Unmarked(a + b)
  {
    forall i | 0 <= i < |a + b|
      ensures (a + b)[i].errs == []
    {
      if i >= |a| {
        assert (a + b)[i] == b[i - |a|];
      }
    }
  }

  lemma {:induction false} UnmarkedOf(xs: seq<Syn>, d: nat)
    requires forall i :: 0 <= i < |xs| ==> Good(xs[i], d)
    ensures Unmarked(LexemesOf(xs))
    decreases |xs|
  {
    if xs != [] {
      assert forall i :: 0 <= i < |xs[1..]| ==> xs[1..][i] == xs[i + 1];
      UnmarkedOf(xs[1..], d);
      assert Good(xs[0], d);
      UnmarkedJoin(Lexemes(xs[0]), LexemesOf(xs[1..]));
    }
  }

  lemma TailUnmarked(tl: Tail, d: nat)
    requires tl.DotTail? ==> tl.period.errs == [] && Good(tl.last, d)
    ensures Unmarked(TailTokens(tl))
  {
    if tl.DotTail? {
      UnmarkedJoin([tl.period], Lexemes(tl.last));
    }
  }

  /** The elements of a form denote, in order, the datums of its element trees. */
  lemma {:induction false} ElemsPrefix(x: Syn, k: nat)
    requires x.Form? && k <= |x.elems|
    ensures forall i :: 0 <= i < k ==> Elems(x, k)[i] == Datum(x.elems[i])
  {
    if k > 0 {
      ElemsPrefix(x, k - 1);
    }
  }

  lemma ElemsAll(x: Syn)
    requires x.Form?
    ensures Elems(x, |x.elems|) == Datums(x.elems)
  {
    ElemsPrefix(x, |x.elems|);
  }

  lemma SpineStep(x: Node, xs: seq<Node>, t: Node)
    ensures ListWithTail([x] + xs, t) == Cons(x, ListWithTail(xs, t))
  {
    assert ([x] + xs)[1..] == xs;
  }

  /** Spines of one to four elements, written out. */
  lemma Spines(a: Node, b: Node, c: Node, d: Node, t: Node)
    ensures ListWithTail([a], t) == Cons(a, t)
    ensures ListWithTail([a, b], t) == Cons(a, Cons(b, t))
    ensures ListWithTail([a, b, c], t) == Cons(a, Cons(b, Cons(c, t)))
    ensures ListWithTail([a, b, c, d], t) == Cons(a, Cons(b, Cons(c, Cons(d, t))))
  {
    SpineStep(d, [], t);
    SpineStep(c, [d], t);
    SpineStep(b, [c, d], t);
    SpineStep(a, [b, c, d], t);
    SpineStep(c, [], t);
    SpineStep(b, [c], t);
    SpineStep(a, [b, c], t);
    SpineStep(b, [], t);
    SpineStep(a, [b], t);
    SpineStep(a, [], t);
  }

  function Punct(k: TokenKind): Lexeme
  {
    Lexeme(k, 0, 0, [], DefaultNumber(), [])
  }

  /** The identifier token spelling t. */
  function Id(t: string, d: nat): (x: Syn)
    ensures Good(x, d) && Datum(x) == Sym(t)
  {
    Leaf(Lexeme(Ident, 0, 0, Sym(t).name, DefaultNumber(), []))
  }

  /** The number token of value v. */
  function Int(v: int64, d: nat): (x: Syn)
    ensures Good(x, d) && Datum(x) == N(v)
  {
    Leaf(Lexeme(NumLit, 0, 0, [], MakeExact(v), []))
  }

  /** The tokens of a form are error-free when its brackets, its period and its parts are. */
  lemma FormUnmarked(x: Syn, d: nat)
    requires x.Form? && x.open.errs == [] && x.close.errs == []
    requires forall i :: 0 <= i < |x.elems| ==> Good(x.elems[i], d)
    requires x.tail.DotTail? ==> x.tail.period.errs == [] && Good(x.tail.last, d)
    ensures Unmarked(Lexemes(x))
  {
    var a, b, t, c := [x.open], LexemesOf(x.elems), TailTokens(x.tail), [x.close];
    UnmarkedOf(x.elems, d);
    TailUnmarked(x.tail, d);
    UnmarkedJoin(a, b);
    UnmarkedJoin(a + b, t);
    UnmarkedJoin(a + b + t, c);
  }

  /** A form opened by `open`, holding es and then the tail tl. */
  function FormOf(d: nat, open: TokenKind, es: seq<Syn>, tl: Tail): (x: Syn)
    requires d >= 1 && (open == LParen || open == LSquare)
    requires forall i :: 0 <= i < |es| ==> Good(es[i], d - 1)
    requires tl.DotTail? ==> |es| > 0 && tl.period == Punct(Period) && Good(tl.last, d - 1)
    ensures Good(x, d)
    ensures Datum(x) == ListWithTail(Datums(es), if tl.DotTail? then Datum(tl.last) else Null)
  {
    var x := Form(Punct(open), es, tl, Punct(Closer(open)));
    FormUnmarked(x, d - 1);
    ElemsAll(x);
    x
  }

  /** ( es ) */
  function Round(d: nat, es: seq<Syn>): (x: Syn)
    requires d >= 1 && forall i :: 0 <= i < |es| ==> Good(es[i], d - 1)
    ensures Good(x, d) && Datum(x) == ListWithTail(Datums(es), Null)
  {
    FormOf(d, LParen, es, NoTail)
  }

  /** [ es ] */
  function Square(d: nat, es: seq<Syn>): (x: Syn)
    requires d >= 1 && forall i :: 0 <= i < |es| ==> Good(es[i], d - 1)
    ensures Good(x, d) && Datum(x) == ListWithTail(Datums(es), Null)
  {
    FormOf(d, LSquare, es, NoTail)
  }

  /** ( es . last ) */
  function Dot(d: nat, es: seq<Syn>, last: Syn): (x: Syn)
    requires d >= 1 && |es| > 0 && Good(last, d - 1)
    requires forall i :: 0 <= i < |es| ==> Good(es[i], d - 1)
    ensures Good(x, d) && Datum(x) == ListWithTail(Datums(es), Datum(last))
  {
    FormOf(d, LParen, es, DotTail(Punct(Period), last))
  }

  /** ( a . t ) */
  function Dot1(d: nat, a: Syn, t: Syn): (x: Syn)
    requires d >= 1 && Good(a, d - 1) && Good(t, d - 1)
    ensures Good(x, d) && Datum(x) == Cons(Datum(a), Datum(t))
  {
    assert Datums([a]) == [Datum(a)];
    Spines(Datum(a), Null, Null, Null, Datum(t));
    Dot(d, [a], t)
  }

  /** ( a b c . t ) */
  function Dot3(d: nat, a: Syn, b: Syn, c: Syn, t: Syn): (x: Syn)
    requires d >= 1 && Good(a, d - 1) && Good(b, d - 1) && Good(c, d - 1) && Good(t, d - 1)
    ensures Good(x, d) && Datum(x) == Cons(Datum(a), Cons(Datum(b), Cons(Datum(c), Datum(t))))
  {
    assert Datums([a, b, c]) == [Datum(a), Datum(b), Datum(c)];
    Spines(Datum(a), Datum(b), Datum(c), Null, Datum(t));
    Dot(d, [a, b, c], t)
  }

  /** ( a b ) */
  function List2(d: nat, a: Syn, b: Syn): (x: Syn)
    requires d >= 1 && Good(a, d - 1) && Good(b, d - 1)
    ensures Good(x, d) && Datum(x) == Cons(Datum(a), Cons(Datum(b), Null))
  {
    assert Datums([a, b]) == [Datum(a), Datum(b)];
    Spines(Datum(a), Datum(b), Null, Null, Null);
    Round(d, [a, b])
  }

  /** ( a b c ), or [ a b c ] when square */
  function List3(d: nat, square: bool, a: Syn, b: Syn, c: Syn): (x: Syn)
    requires d >= 1 && Good(a, d - 1) && Good(b, d - 1) && Good(c, d - 1)
    ensures Good(x, d) && Datum(x) == Cons(Datum(a), Cons(Datum(b), Cons(Datum(c), Null)))
  {
    assert Datums([a, b, c]) == [Datum(a), Datum(b), Datum(c)];
    Spines(Datum(a), Datum(b), Datum(c), Null, Null);
    if square then Square(d, [a, b, c]) else Round(d, [a, b, c])
  }

  /** ( a b c e ) */
  function List4(d: nat, a: Syn, b: Syn, c: Syn, e: Syn): (x: Syn)
    requires d >= 1 && Good(a, d - 1) && Good(b, d - 1) && Good(c, d - 1) && Good(e, d - 1)
    ensures Good(x, d) && Datum(x) == Cons(Datum(a), Cons(Datum(b), Cons(Datum(c), Cons(Datum(e), Null))))
  {
    assert Datums([a, b, c, e]) == [Datum(a), Datum(b), Datum(c), Datum(e)];
    Spines(Datum(a), Datum(b), Datum(c), Datum(e), Null);
    Round(d, [a, b, c, e])
  }

  /** () */
  function EmptySyn(d: nat): (x: Syn)
    requires d >= 1
    ensures Good(x, d) && Datum(x) == Null
  {
    assert Datums([]) == [];
    Round(d, [])
  }

  /** (list -10 more), at most d deep */
  function ListFormSyn(d: nat): (x: Syn)
    requires d >= 1
    ensures Good(x, d) && Datum(x) == ListForm()
  {
    List3(d, false, Id("list", d - 1), Int(-10, d - 1), Id("more", d - 1))
  }

  /** (a . b) */
  function DottedSyn(d: nat): (x: Syn)
    requires d >= 1
    ensures Good(x, d) && Datum(x) == Dotted()
  {
    Dot1(d, Id("a", d - 1), Id("b", d - 1))
  }

  /** (1 2 3 . 4) */
  function ImproperSyn(d: nat): (x: Syn)
    requires d >= 1
    ensures Good(x, d) && Datum(x) == Improper()
  {
    Dot3(d, Int(1, d - 1), Int(2, d - 1), Int(3, d - 1), Int(4, d - 1))
  }

  /** (10 . (20 . (30 . ()))) */
  function TensSyn(d: nat): (x: Syn)
    requires d >= 4
    ensures Good(x, d) && Datum(x) == Tens()
  {
    var thirty := Dot1(d - 2, Int(30, d - 3), EmptySyn(d - 3));
    var twenty := Dot1(d - 1, Int(20, d - 2), thirty);
    Dot1(d, Int(10, d - 1), twenty)
  }

  /** (if [> a 10] (display 1) (display a)) */
  function IfFormSyn(d: nat): (x: Syn)
    requires d >= 2
    ensures Good(x, d) && Datum(x) == IfForm()
  {
    var e := d - 2;
    var c := List3(d - 1, true, Id(">", e), Id("a", e), Int(10, e));
    var one := List2(d - 1, Id("display", e), Int(1, e));
    var a := List2(d - 1, Id("display", e), Id("a", e));
    List4(d, Id("if", d - 1), c, one, a)
  }

  /** The seven datums common to both tests, each at most d deep. */
  function ItemsSyn(d: nat): (xs: seq<Syn>)
    requires d >= 4
    ensures |xs| == 7 && forall i :: 0 <= i < |xs| ==> Good(xs[i], d)
  {
    [Id("hello", d), Int(10, d), ListFormSyn(d), DottedSyn(d), ImproperSyn(d), TensSyn(d), IfFormSyn(d)]
  }

  lemma ItemsDatums(d: nat)
    requires d >= 4
    ensures Datums(ItemsSyn(d)) == SmokeItems()
  {
    var x0, x1, x2, x3 := Id("hello", d), Int(10, d), ListFormSyn(d), DottedSyn(d);
    var x4, x5, x6 := ImproperSyn(d), TensSyn(d), IfFormSyn(d);
    assert ItemsSyn(d) == [x0, x1, x2, x3, x4, x5, x6];
    DatumsOfSeven(x0, x1, x2, x3, x4, x5, x6);
  }

  lemma DatumsOfSeven(x0: Syn, x1: Syn, x2: Syn, x3: Syn, x4: Syn, x5: Syn, x6: Syn)
    ensures Datums([x0, x1, x2, x3, x4, x5, x6])
      == [Datum(x0), Datum(x1), Datum(x2), Datum(x3), Datum(x4), Datum(x5), Datum(x6)]
  {
  }

  /** The smoke test's input: the seven datums inside one list. */
  function SmokeSyn(d: nat): (x: Syn)
    requires d >= 5
    ensures Good(x, d) && Datum(x) == SmokeTree()
  {
    ListContents(SmokeItems());
    ItemsDatums(d - 1);
    Round(d, ItemsSyn(d - 1))
  }

  /** Error-free tokens of datums at most d deep read back as the list of those datums,
      with no message. */
  lemma ReadsBack(xs: seq<Syn>, d: nat, eofAt: int)
    requires 2 * d + 1 < MAX_NESTING && forall i :: 0 <= i < |xs| ==> Good(xs[i], d)
    ensures Parse(Stream(LexemesOf(xs), eofAt, 0), []) == Outcome([], Some(List(Datums(xs))))
  {
    UnmarkedOf(xs, d);
    ParseCorrect(xs, d, eofAt, 0, []);
  }

  /** The print test: its input reads back, without a message, as the seven datums whose
      dumps Samples.PrintTest states, in order. */
  lemma PrintTestParsed(eofAt: int)
    ensures var o := Parse(Stream(LexemesOf(ItemsSyn(4)), eofAt, 0), []);
      o.msgs == [] && o.result.Some? && Elements(o.result.value) == SmokeItems()
  {
    ReadsBack(ItemsSyn(4), 4, eofAt);
    ItemsDatums(4);
    ListContents(SmokeItems());
  }

  /** The tokens of one such datum read back as the one-element list of it. */
  lemma ReadsBackOne(x: Syn, d: nat, eofAt: int)
    requires 2 * d + 1 < MAX_NESTING && Good(x, d)
    ensures var o := Parse(Stream(Lexemes(x), eofAt, 0), []);
      o.msgs == [] && o.result == Some(Cons(Datum(x), Null))
  {
    assert [x][1..] == [];
    assert LexemesOf([x]) == Lexemes(x) + LexemesOf([]);
    assert LexemesOf([x]) == Lexemes(x);
    assert Datums([x]) == [Datum(x)];
    ReadsBack([x], d, eofAt);
    ListContents([Datum(x)]);
    Spines(Datum(x), Null, Null, Null, Null);
  }

  /** The smoke test: its input parses without a message into a one-element list whose
      head is deeply equal to the expected tree. */
  lemma SmokeTestParsed(eofAt: int)
    ensures var o := Parse(Stream(Lexemes(SmokeSyn(5)), eofAt, 0), []);
      o.msgs == [] && o.result.Some? && |Elements(o.result.value)| == 1
      && o.result.value.Pair? && DeepEqual(o.result.value.car, SmokeTree())
  {
    ReadsBackOne(SmokeSyn(5), 5, eofAt);
    DeepEqualIsEquality(SmokeTree(), SmokeTree());
  }
}
