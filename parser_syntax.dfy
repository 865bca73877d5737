/** The concrete syntax the datum parser accepts, as an independent reference: a datum is
    a number or identifier token, or a bracketed form of datums with an optional dotted
    tail. Parsing the tokens of well-formed datums yields exactly their trees. */
module ParserSyntax {
  import opened Wrappers
  import opened Numbers
  import opened Tokens
  import opened Ast
  import opened ParserSpec

  datatype Syn =
    | Leaf(tok: Lexeme)
    | Form(open: Lexeme, elems: seq<Syn>, tail: Tail, close: Lexeme)

  datatype Tail = NoTail | DotTail(period: Lexeme, last: Syn)

  /** The token that closes a form opened by `open`. */
  function Closer(open: TokenKind): TokenKind
  {
    if open == LParen then RParen else RSquare
  }

  /** Leaves are numbers or identifiers; a form is opened by ( or [ and closed by the
      matching closer; a dotted tail follows at least one element. */
  predicate WellFormed(x: Syn)
    decreases x
  {
    match x
    case Leaf(t) => t.kind == Ident || t.kind == NumLit
    case Form(o, es, tl, c) =>
      (o.kind == LParen || o.kind == LSquare) && c.kind == Closer(o.kind)
      && (forall i :: 0 <= i < |es| ==> WellFormed(es[i]))
      && (tl.DotTail? ==> |es| > 0 && tl.period.kind == Period && WellFormed(tl.last))
  }

  /** x has at most d nested forms. */
  predicate DepthAtMost(x: Syn, d: nat)
    decreases x
  {
    match x
    case Leaf(_) => true
    case Form(_, es, tl, _) =>
      d >= 1 && (forall i :: 0 <= i < |es| ==> DepthAtMost(es[i], d - 1))
      && (tl.DotTail? ==> DepthAtMost(tl.last, d - 1))
  }

  /** The tokens of x, in order. */
  function Lexemes(x: Syn): seq<Lexeme>
    decreases x, 1
  {
    match x
    case Leaf(t) => [t]
    case Form(o, es, tl, c) => [o] + LexemesOf(es) + TailTokens(tl) + [c]
  }

  function LexemesOf(xs: seq<Syn>): seq<Lexeme>
    decreases xs, 0
  {
    if xs == [] then [] else Lexemes(xs[0]) + LexemesOf(xs[1..])
  }

  function TailTokens(t: Tail): seq<Lexeme>
    decreases t, 0
  {
    if t.DotTail? then [t.period] + Lexemes(t.last) else []
  }

  /** The tree x denotes: a leaf's symbol or number; a form's elements on a spine ending
      in its dotted tail, or in Null. */
  function Datum(x: Syn): Node
    decreases x, 1
  {
    match x
    case Leaf(t) => if t.kind == Ident then Symbol(t.ident) else Num(t.number)
    case Form(_, es, tl, _) =>
      ListWithTail(Elems(x, |es|), if tl.DotTail? then Datum(tl.last) else Null)
  }

  /** The trees of the first k elements of the form x. */
  function Elems(x: Syn, k: nat): (ds: seq<Node>)
    requires x.Form? && k <= |x.elems|
    ensures |ds| == k
    decreases x, 0, k
  {
    if k == 0 then [] else Elems(x, k - 1) + [Datum(x.elems[k - 1])]
  }

  /** No token of the stream carries a lexical error. */
  predicate Clean(inp: Stream)
  {
    forall i :: 0 <= i < |inp.toks| ==> inp.toks[i].errs == []
  }

  /** The tokens from the current one on begin with ts. */
  predicate At(inp: Stream, s: PState, ts: seq<Lexeme>)
  {
    AtIndex(inp.toks, s.pos, ts)
  }

  /** toks holds ts from index p on. */
  predicate AtIndex(toks: seq<Lexeme>, p: nat, ts: seq<Lexeme>)
    decreases |ts|
  {
    if ts == [] then p <= |toks| else p < |toks| && toks[p] == ts[0] && AtIndex(toks, p + 1, ts[1..])
  }

  function Skip(s: PState, k: nat): PState
  {
    s.(pos := s.pos + k)
  }

  lemma {:induction false} AtIndexSplit(toks: seq<Lexeme>, p: nat, a: seq<Lexeme>, b: seq<Lexeme>)
    requires AtIndex(toks, p, a + b)
    ensures AtIndex(toks, p, a) && AtIndex(toks, p + |a|, b)
    decreases |a|
  {
    if a != [] {
      assert (a + b)[0] == a[0] && (a + b)[1..] == a[1..] + b;
      AtIndexSplit(toks, p + 1, a[1..], b);
    } else {
      assert a + b == b;
    }
  }

  /** Split the tokens at s into a, then b from the state t just after a. */
  lemma AtSplit(inp: Stream, s: PState, a: seq<Lexeme>, b: seq<Lexeme>, t: PState)
    requires At(inp, s, a + b) && t.pos == s.pos + |a|
    ensures At(inp, s, a) && At(inp, t, b)
  {
    AtIndexSplit(inp.toks, s.pos, a, b);
  }

  /** A stream holds its own tokens from any index on. */
  lemma {:induction false} AtIndexSuffix(toks: seq<Lexeme>, p: nat)
    requires p <= |toks|
    ensures AtIndex(toks, p, toks[p..])
    decreases |toks| - p
  {
    if p < |toks| {
      assert toks[p..][1..] == toks[p + 1..];
      AtIndexSuffix(toks, p + 1);
    }
  }

  lemma {:induction false} AtIndexEnd(toks: seq<Lexeme>, p: nat, ts: seq<Lexeme>)
    requires AtIndex(toks, p, ts)
    ensures p + |ts| <= |toks|
    decreases |ts|
  {
    if ts != [] {
      assert AtIndex(toks, p + 1, ts[1..]);
      AtIndexEnd(toks, p + 1, ts[1..]);
    }
  }

  /** On a clean stream that is not forced, advance() just moves to the next token. */
  lemma AdvanceClean(inp: Stream, s: PState)
    requires Clean(inp) && !s.forced && s.pos < |inp.toks|
    ensures Advance(inp, s) == Skip(s, 1)
  {
    if s.pos + 1 < |inp.toks| {
      assert inp.toks[s.pos + 1].errs == [];
      assert s.msgs + [] == s.msgs;
    }
  }

  /** A well-formed datum starts with a leaf or an opener. */
  lemma FirstToken(x: Syn)
    requires WellFormed(x)
    ensures |Lexemes(x)| > 0
    ensures var k := Lexemes(x)[0].kind; k == Ident || k == NumLit || k == LParen || k == LSquare
  {
  }

  lemma CurAt(inp: Stream, s: PState, ts: seq<Lexeme>)
    requires At(inp, s, ts) && |ts| > 0
    ensures s.pos < |inp.toks| && Cur(inp, s) == ts[0].kind && Token(inp, s) == ts[0]
  {
  }

  /** The tokens of the form x from its element k on: the remaining elements, the tail
      and the closer. */
  function RestOf(x: Syn, k: nat): seq<Lexeme>
    requires x.Form? && k <= |x.elems|
  {
    LexemesOf(x.elems[k..]) + TailTokens(x.tail) + [x.close]
  }

  lemma RestOfElement(x: Syn, k: nat)
    requires x.Form? && k < |x.elems|
    ensures RestOf(x, k) == Lexemes(x.elems[k]) + RestOf(x, k + 1)
  {
    assert x.elems[k..][1..] == x.elems[k + 1..];
    assert LexemesOf(x.elems[k..]) == Lexemes(x.elems[k]) + LexemesOf(x.elems[k + 1..]);
  }

  lemma RestOfEnd(x: Syn)
    requires x.Form?
    ensures x.tail.DotTail? ==> RestOf(x, |x.elems|) == [x.tail.period] + (Lexemes(x.tail.last) + [x.close])
    ensures x.tail.NoTail? ==> RestOf(x, |x.elems|) == [x.close]
  {
    assert x.elems[|x.elems|..] == [];
  }

  lemma FormTokens(x: Syn)
    requires x.Form?
    ensures Lexemes(x) == [x.open] + RestOf(x, 0)
  {
    assert x.elems[0..] == x.elems;
  }

  /** One step of parseDatum: a number or identifier token becomes a leaf. */
  lemma ParseDatumLeaf(inp: Stream, s: PState, n: nat)
    requires n + 1 < MAX_NESTING && (Cur(inp, s) == Ident || Cur(inp, s) == NumLit)
    ensures s.pos < |inp.toks|
    ensures ParseDatum(inp, s, n) == Parsed(Advance(inp, s),
      Some(if Cur(inp, s) == Ident then Symbol(Token(inp, s).ident) else Num(Token(inp, s).number)))
  {
  }

  /** One step of parseDatum: an opener starts a list closed by its own closer. */
  lemma ParseDatumForm(inp: Stream, s: PState, n: nat, closing: TokenKind)
    requires n + 1 < MAX_NESTING && (Cur(inp, s) == LParen || Cur(inp, s) == LSquare)
    requires closing == Closer(Cur(inp, s))
    ensures s.pos < |inp.toks| && ParseDatum(inp, s, n) == ParseList(inp, s, n + 1, closing)
  {
  }

  lemma ParseDatumEof(inp: Stream, s: PState, n: nat)
    requires n + 1 < MAX_NESTING && Cur(inp, s) == Eof
    ensures ParseDatum(inp, s, n) == Parsed(s, None)
  {
  }

  /** An opener followed by its closer: the empty list. */
  lemma ParseListEmpty(inp: Stream, s: PState, m: nat, closing: TokenKind)
    requires s.pos < |inp.toks| && m + 1 < MAX_NESTING && Cur(inp, Advance(inp, s)) == closing
    ensures ParseList(inp, s, m, closing) == Parsed(Advance(inp, Advance(inp, s)), Some(Null))
  {
  }

  lemma ParseListFirst(inp: Stream, s: PState, m: nat, closing: TokenKind, s1: PState, s2: PState, v: Node)
    requires s.pos < |inp.toks| && m + 1 < MAX_NESTING && Advance(inp, s) == s1 && Cur(inp, s1) != closing
    requires ParseDatum(inp, s1, m + 1) == Parsed(s2, Some(v))
    requires SkipComments(inp, s2, m + 1) == Skipped(s2, false)
    ensures ParseList(inp, s, m, closing) == ListLoop(inp, s2, m + 1, closing, [v])
  {
  }

  lemma ListLoopClose(inp: Stream, s: PState, n: nat, closing: TokenKind, items: seq<Node>)
    requires Cur(inp, s) == closing
    ensures ListLoop(inp, s, n, closing, items) == Parsed(Advance(inp, s), Some(ListWithTail(items, Null)))
  {
  }

  lemma ListLoopElement(inp: Stream, s: PState, n: nat, closing: TokenKind, items: seq<Node>, s2: PState, v: Node)
    requires Cur(inp, s) != closing && Cur(inp, s) != Period
    requires ParseDatum(inp, s, n) == Parsed(s2, Some(v)) && SkipComments(inp, s2, n) == Skipped(s2, false)
    ensures ListLoop(inp, s, n, closing, items) == ListLoop(inp, s2, n, closing, items + [v])
  {
  }

  lemma ListLoopDotted(inp: Stream, s: PState, n: nat, closing: TokenKind, items: seq<Node>,
                        s1: PState, s2: PState, s3: PState, v: Node)
    requires Cur(inp, s) == Period && Cur(inp, s2) == closing && Period != closing
    requires Advance(inp, s) == s1 && Advance(inp, s2) == s3
    requires ParseDatum(inp, s1, n) == Parsed(s2, Some(v)) && SkipComments(inp, s2, n) == Skipped(s2, false)
    ensures ListLoop(inp, s, n, closing, items) == Parsed(s3, Some(ListWithTail(items, v)))
  {
    assert ListLoop(inp, s, n, closing, items) == DottedTail(inp, s, n, closing, items);
  }

  lemma NoComment(inp: Stream, s: PState, n: nat)
    requires Cur(inp, s) != DatumComment
    ensures SkipComments(inp, s, n) == Skipped(s, false)
  {
  }

  /** Where the next element, the period or the closer of x begins, there is no datum
      comment, so skipDatumComments does nothing. */
  lemma NoCommentAt(inp: Stream, s: PState, x: Syn, k: nat, n: nat)
    requires WellFormed(x) && x.Form? && 0 < k <= |x.elems| && At(inp, s, RestOf(x, k))
    ensures SkipComments(inp, s, n) == Skipped(s, false)
  {
    if k < |x.elems| {
      RestOfElement(x, k);
      FirstToken(x.elems[k]);
      assert RestOf(x, k)[0] == Lexemes(x.elems[k])[0];
    } else {
      RestOfEnd(x);
    }
    CurAt(inp, s, RestOf(x, k));
    NoComment(inp, s, n);
  }

  lemma ElemsOne(x: Syn)
    requires x.Form? && |x.elems| > 0
    ensures Elems(x, 1) == [Datum(x.elems[0])]
  {
  }

  lemma ElemsNext(x: Syn, k: nat)
    requires x.Form? && k < |x.elems|
    ensures Elems(x, k) + [Datum(x.elems[k])] == Elems(x, k + 1)
  {
  }

  /** The parser's correctness, for one datum: parseDatum at nesting_ == n on the tokens
      of a well-formed datum at most d deep, with room for its nesting, consumes exactly
      those tokens, reports nothing and returns the datum's tree. */
  lemma {:induction false} ParseDatumSyn(inp: Stream, s: PState, n: nat, x: Syn, d: nat)
    requires Clean(inp) && !s.forced && WellFormed(x) && DepthAtMost(x, d)
    requires At(inp, s, Lexemes(x)) && n + 2 * d + 1 < MAX_NESTING
    ensures ParseDatum(inp, s, n) == Parsed(Skip(s, |Lexemes(x)|), Some(Datum(x)))
    decreases x, 4
  {
    if x.Leaf? {
      LeafSyn(inp, s, n, x);
    } else {
      FormHead(inp, s, x);
      FormSyn(inp, s, n + 1, x, d);
      ParseDatumForm(inp, s, n, Closer(x.open.kind));
    }
  }

  lemma LeafSyn(inp: Stream, s: PState, n: nat, x: Syn)
    requires Clean(inp) && !s.forced && WellFormed(x) && x.Leaf? && At(inp, s, Lexemes(x)) && n + 1 < MAX_NESTING
    ensures ParseDatum(inp, s, n) == Parsed(Skip(s, |Lexemes(x)|), Some(Datum(x)))
  {
    CurAt(inp, s, Lexemes(x));
    ParseDatumLeaf(inp, s, n);
    AdvanceClean(inp, s);
  }

  /** A form's tokens start at its opener. */
  lemma FormHead(inp: Stream, s: PState, x: Syn)
    requires WellFormed(x) && x.Form? && At(inp, s, Lexemes(x))
    ensures s.pos < |inp.toks| && Cur(inp, s) == x.open.kind && (x.open.kind == LParen || x.open.kind == LSquare)
  {
    CurAt(inp, s, Lexemes(x));
  }

  /** parseList on the tokens of a well-formed form, at nesting_ == m. */
  lemma {:induction false} FormSyn(inp: Stream, s: PState, m: nat, x: Syn, d: nat)
    requires Clean(inp) && !s.forced && WellFormed(x) && x.Form? && DepthAtMost(x, d)
    requires At(inp, s, Lexemes(x)) && m + 2 * d < MAX_NESTING
    ensures ParseList(inp, s, m, Closer(x.open.kind)) == Parsed(Skip(s, |Lexemes(x)|), Some(Datum(x)))
    decreases x, 3
  {
    FormTokens(x);
    AtSplit(inp, s, [x.open], RestOf(x, 0), Skip(s, 1));
    CurAt(inp, s, Lexemes(x));
    AdvanceClean(inp, s);
    if x.elems == [] {
      EmptyFormSyn(inp, s, m, x);
    } else {
      NonEmptyFormSyn(inp, s, m, x, d);
    }
  }

  lemma {:induction false} NonEmptyFormSyn(inp: Stream, s: PState, m: nat, x: Syn, d: nat)
    requires Clean(inp) && !s.forced && WellFormed(x) && x.Form? && |x.elems| > 0 && DepthAtMost(x, d)
    requires s.pos < |inp.toks| && Advance(inp, s) == Skip(s, 1) && m + 2 * d < MAX_NESTING
    requires Lexemes(x) == [x.open] + RestOf(x, 0) && At(inp, Skip(s, 1), RestOf(x, 0))
    ensures ParseList(inp, s, m, Closer(x.open.kind)) == Parsed(Skip(s, |Lexemes(x)|), Some(Datum(x)))
    decreases x, 2
  {
    var s2 := Skip(s, 1 + |Lexemes(x.elems[0])|);
    FirstTokens(inp, s, x, s2);
    FirstStep(inp, s, m, x, d, s2, Elems(x, 1));
    ElemsSyn(inp, s2, m + 1, x, 1, d);
  }

  /** How the tokens of a form with elements split at its first element. */
  lemma FirstTokens(inp: Stream, s: PState, x: Syn, s2: PState)
    requires x.Form? && |x.elems| > 0 && Lexemes(x) == [x.open] + RestOf(x, 0) && At(inp, Skip(s, 1), RestOf(x, 0))
    requires s2 == Skip(s, 1 + |Lexemes(x.elems[0])|)
    ensures At(inp, Skip(s, 1), Lexemes(x.elems[0])) && At(inp, s2, RestOf(x, 1))
    ensures Skip(s2, |RestOf(x, 1)|) == Skip(s, |Lexemes(x)|) && Elems(x, 1) == [Datum(x.elems[0])]
  {
    RestOfElement(x, 0);
    AtSplit(inp, Skip(s, 1), Lexemes(x.elems[0]), RestOf(x, 1), s2);
    ElemsOne(x);
  }

  lemma EmptyFormSyn(inp: Stream, s: PState, m: nat, x: Syn)
    requires Clean(inp) && !s.forced && WellFormed(x) && x.Form? && x.elems == [] && m + 1 < MAX_NESTING
    requires s.pos < |inp.toks| && Advance(inp, s) == Skip(s, 1)
    requires Lexemes(x) == [x.open] + RestOf(x, 0) && At(inp, Skip(s, 1), RestOf(x, 0))
    ensures ParseList(inp, s, m, Closer(x.open.kind)) == Parsed(Skip(s, |Lexemes(x)|), Some(Datum(x)))
  {
    var s1 := Skip(s, 1);
    RestOfEnd(x);
    CurAt(inp, s1, RestOf(x, 0));
    AdvanceClean(inp, s1);
    ParseListEmpty(inp, s, m, Closer(x.open.kind));
    assert Elems(x, 0) == [];
  }

  /** parseList reads the first element of x and enters its loop holding that element's
      tree. */
  lemma {:induction false} FirstStep(inp: Stream, s: PState, m: nat, x: Syn, d: nat, s2: PState, items: seq<Node>)
    requires Clean(inp) && !s.forced && WellFormed(x) && x.Form? && |x.elems| > 0 && DepthAtMost(x, d)
    requires m + 2 * d < MAX_NESTING
    requires s.pos < |inp.toks| && Advance(inp, s) == Skip(s, 1) && At(inp, Skip(s, 1), Lexemes(x.elems[0]))
    requires s2 == Skip(s, 1 + |Lexemes(x.elems[0])|) && At(inp, s2, RestOf(x, 1))
    requires items == [Datum(x.elems[0])]
    ensures ParseList(inp, s, m, Closer(x.open.kind)) == ListLoop(inp, s2, m + 1, Closer(x.open.kind), items)
    decreases x, 1, 0
  {
    var e := x.elems[0];
    FirstToken(e);
    CurAt(inp, Skip(s, 1), Lexemes(e));
    NoCommentAt(inp, s2, x, 1, m + 1);
    ParseDatumSyn(inp, Skip(s, 1), m + 1, e, d - 1);
    ParseListFirst(inp, s, m, Closer(x.open.kind), Skip(s, 1), s2, Datum(e));
  }

  /** One turn of parseList's loop: element k of x is read and its tree collected. */
  lemma {:induction false} ElementStep(inp: Stream, s: PState, m: nat, x: Syn, k: nat, d: nat,
                                       s2: PState, items: seq<Node>, items': seq<Node>)
    requires Clean(inp) && !s.forced && WellFormed(x) && x.Form? && DepthAtMost(x, d)
    requires k < |x.elems| && m + 2 * d <= MAX_NESTING
    requires At(inp, s, Lexemes(x.elems[k])) && s2 == Skip(s, |Lexemes(x.elems[k])|) && At(inp, s2, RestOf(x, k + 1))
    requires items' == items + [Datum(x.elems[k])]
    ensures ListLoop(inp, s, m, Closer(x.open.kind), items) == ListLoop(inp, s2, m, Closer(x.open.kind), items')
    decreases x, 1, 0
  {
    var e := x.elems[k];
    FirstToken(e);
    CurAt(inp, s, Lexemes(e));
    NoCommentAt(inp, s2, x, k + 1, m);
    ParseDatumSyn(inp, s, m, e, d - 1);
    ListLoopElement(inp, s, m, Closer(x.open.kind), items, s2, Datum(e));
  }

  /** The loop of parseList from element k of the form x on, having collected the trees
      of the elements before it. */
  lemma {:induction false} ElemsSyn(inp: Stream, s: PState, m: nat, x: Syn, k: nat, d: nat)
    requires Clean(inp) && !s.forced && WellFormed(x) && x.Form? && DepthAtMost(x, d)
    requires 0 < k <= |x.elems| && m + 2 * d <= MAX_NESTING && At(inp, s, RestOf(x, k))
    ensures ListLoop(inp, s, m, Closer(x.open.kind), Elems(x, k)) == Parsed(Skip(s, |RestOf(x, k)|), Some(Datum(x)))
    decreases x, 1, |x.elems| - k, 1
  {
    if k == |x.elems| {
      if x.tail.DotTail? {
        DottedEndSyn(inp, s, m, x, d);
      } else {
        RestOfEnd(x);
        CurAt(inp, s, RestOf(x, k));
        AdvanceClean(inp, s);
        ListLoopClose(inp, s, m, Closer(x.open.kind), Elems(x, k));
      }
    } else {
      NextElemSyn(inp, s, m, x, k, d);
    }
  }

  /** Element k of x, then the rest of the loop. */
  lemma {:induction false} NextElemSyn(inp: Stream, s: PState, m: nat, x: Syn, k: nat, d: nat)
    requires Clean(inp) && !s.forced && WellFormed(x) && x.Form? && DepthAtMost(x, d)
    requires 0 < k < |x.elems| && m + 2 * d <= MAX_NESTING && At(inp, s, RestOf(x, k))
    ensures ListLoop(inp, s, m, Closer(x.open.kind), Elems(x, k)) == Parsed(Skip(s, |RestOf(x, k)|), Some(Datum(x)))
    decreases x, 1, |x.elems| - k, 0
  {
    var s2 := Skip(s, |Lexemes(x.elems[k])|);
    NextTokens(inp, s, x, k, s2);
    ElementStep(inp, s, m, x, k, d, s2, Elems(x, k), Elems(x, k + 1));
    ElemsSyn(inp, s2, m, x, k + 1, d);
  }

  /** How the tokens of a form from element k on split at that element. */
  lemma NextTokens(inp: Stream, s: PState, x: Syn, k: nat, s2: PState)
    requires x.Form? && k < |x.elems| && At(inp, s, RestOf(x, k)) && s2 == Skip(s, |Lexemes(x.elems[k])|)
    ensures At(inp, s, Lexemes(x.elems[k])) && At(inp, s2, RestOf(x, k + 1))
    ensures Skip(s2, |RestOf(x, k + 1)|) == Skip(s, |RestOf(x, k)|)
    ensures Elems(x, k) + [Datum(x.elems[k])] == Elems(x, k + 1)
  {
    RestOfElement(x, k);
    AtSplit(inp, s, Lexemes(x.elems[k]), RestOf(x, k + 1), s2);
    ElemsNext(x, k);
  }

  /** The period, the dotted tail and the closer of x. */
  lemma {:induction false} DottedEndSyn(inp: Stream, s: PState, m: nat, x: Syn, d: nat)
    requires Clean(inp) && !s.forced && WellFormed(x) && x.Form? && x.tail.DotTail? && DepthAtMost(x, d)
    requires 0 < |x.elems| && m + 2 * d <= MAX_NESTING && At(inp, s, RestOf(x, |x.elems|))
    ensures ListLoop(inp, s, m, Closer(x.open.kind), Elems(x, |x.elems|))
      == Parsed(Skip(s, |RestOf(x, |x.elems|)|), Some(Datum(x)))
    decreases x, 0
  {
    var last := x.tail.last;
    var s1 := Skip(s, 1);
    var s2 := Skip(s1, |Lexemes(last)|);
    DottedTokens(inp, s, x, s1, s2);
    AdvanceClean(inp, s);
    AdvanceClean(inp, s2);
    NoComment(inp, s2, m);
    ParseDatumSyn(inp, s1, m, last, d - 1);
    ListLoopDotted(inp, s, m, Closer(x.open.kind), Elems(x, |x.elems|), s1, s2, Skip(s2, 1), Datum(last));
  }

  /** How the tokens of a dotted tail split: the period, the last datum, the closer. */
  lemma DottedTokens(inp: Stream, s: PState, x: Syn, s1: PState, s2: PState)
    requires WellFormed(x) && x.Form? && x.tail.DotTail? && At(inp, s, RestOf(x, |x.elems|))
    requires s1 == Skip(s, 1) && s2 == Skip(s1, |Lexemes(x.tail.last)|)
    ensures s.pos < |inp.toks| && Cur(inp, s) == Period && WellFormed(x.tail.last) && At(inp, s1, Lexemes(x.tail.last))
    ensures s2.pos < |inp.toks| && Cur(inp, s2) == Closer(x.open.kind) && Closer(x.open.kind) != Period
    ensures Skip(s2, 1) == Skip(s, |RestOf(x, |x.elems|)|)
  {
    var last := x.tail.last;
    RestOfEnd(x);
    CurAt(inp, s, RestOf(x, |x.elems|));
    AtSplit(inp, s, [x.tail.period], Lexemes(last) + [x.close], s1);
    AtSplit(inp, s1, Lexemes(last), [x.close], s2);
    CurAt(inp, s2, [x.close]);
  }

  /** The trees of datums xs[j..]. */
  function Datums(xs: seq<Syn>): (ds: seq<Node>)
    ensures |ds| == |xs|
  {
    seq(|xs|, i requires 0 <= i < |xs| => Datum(xs[i]))
  }

  /** Every datum is well formed and at most d deep, with 2 * d + 1 below the limit. */
  predicate Program(xs: seq<Syn>, d: nat)
  {
    2 * d + 1 < MAX_NESTING && forall i :: 0 <= i < |xs| ==> WellFormed(xs[i]) && DepthAtMost(xs[i], d)
  }

  /** The top-level loop over the tokens of xs, which run to the end of the stream. */
  lemma {:induction false} TopSyn(inp: Stream, s: PState, xs: seq<Syn>, items: seq<Node>, d: nat)
    requires Clean(inp) && !s.forced && Program(xs, d)
    requires At(inp, s, LexemesOf(xs)) && s.pos + |LexemesOf(xs)| == |inp.toks|
    ensures TopLoop(inp, s, items) == Top(Skip(s, |LexemesOf(xs)|), items + Datums(xs))
    decreases |xs|
  {
    if xs == [] {
      ParseDatumEof(inp, s, 0);
      assert items + Datums(xs) == items;
    } else {
      var s1 := Skip(s, |Lexemes(xs[0])|);
      TopTokens(inp, s, xs, items, d, s1);
      TopStep(inp, s, xs[0], d, s1, items, items + [Datum(xs[0])]);
      TopSyn(inp, s1, xs[1..], items + [Datum(xs[0])], d);
    }
  }

  /** How the tokens of datums xs split at the first one. */
  lemma TopTokens(inp: Stream, s: PState, xs: seq<Syn>, items: seq<Node>, d: nat, s1: PState)
    requires Program(xs, d) && xs != [] && At(inp, s, LexemesOf(xs)) && s.pos + |LexemesOf(xs)| == |inp.toks|
    requires s1 == Skip(s, |Lexemes(xs[0])|)
    ensures WellFormed(xs[0]) && DepthAtMost(xs[0], d) && Program(xs[1..], d)
    ensures At(inp, s, Lexemes(xs[0])) && At(inp, s1, LexemesOf(xs[1..]))
    ensures s1.pos + |LexemesOf(xs[1..])| == |inp.toks|
    ensures Skip(s1, |LexemesOf(xs[1..])|) == Skip(s, |LexemesOf(xs)|)
    ensures items + [Datum(xs[0])] + Datums(xs[1..]) == items + Datums(xs)
  {
    AtSplit(inp, s, Lexemes(xs[0]), LexemesOf(xs[1..]), s1);
    assert Program(xs[1..], d) by {
      forall i | 0 <= i < |xs[1..]|
        ensures WellFormed(xs[1..][i]) && DepthAtMost(xs[1..][i], d)
      {
        assert xs[1..][i] == xs[i + 1];
      }
    }
    assert [Datum(xs[0])] + Datums(xs[1..]) == Datums(xs);
  }

  /** One turn of the top-level loop: the datum x is read and its tree collected. */
  lemma TopStep(inp: Stream, s: PState, x: Syn, d: nat, s1: PState, items: seq<Node>, items': seq<Node>)
    requires Clean(inp) && !s.forced && WellFormed(x) && DepthAtMost(x, d) && 2 * d + 1 < MAX_NESTING
    requires At(inp, s, Lexemes(x)) && s1 == Skip(s, |Lexemes(x)|) && items' == items + [Datum(x)]
    ensures TopLoop(inp, s, items) == TopLoop(inp, s1, items')
  {
    ParseDatumSyn(inp, s, 0, x, d);
  }

  /** The parser's correctness: on the tokens of well-formed datums, scanned without
      lexical errors, parseDatums reports nothing and returns the list of their trees. */
  lemma ParseCorrect(xs: seq<Syn>, d: nat, eofAt: int, limit: nat, msgs0: seq<Diag>)
    requires Program(xs, d) && Clean(Stream(LexemesOf(xs), eofAt, limit))
    requires !Diagnostics.LimitReachedBy(limit, msgs0)
    ensures Parse(Stream(LexemesOf(xs), eofAt, limit), msgs0) == Outcome(msgs0, Some(List(Datums(xs))))
  {
    var inp := Stream(LexemesOf(xs), eofAt, limit);
    var s0 := PState(0, false, msgs0, false);
    if |inp.toks| > 0 {
      assert inp.toks[0].errs == [];
      assert msgs0 + [] == msgs0;
    }
    assert Start(inp, msgs0) == s0;
    AtIndexSuffix(inp.toks, 0);
    assert inp.toks[0..] == inp.toks;
    TopSyn(inp, s0, xs, [], d);
    assert [] + Datums(xs) == Datums(xs);
  }
}
