/** One branch of each parser function at a time, over explicit states: the facts the
    imperative parser needs at each step of its loops. */
module ParserSteps {
  import opened Wrappers
  import opened Tokens
  import opened Ast
  import opened ParserSpec

  /** Whether parseDatum's switch reaches its default case on kind k. */
  predicate Unexpected(k: TokenKind)
  {
    k != Eof && k != DatumComment && k != NumLit && k != Ident && k != LParen && k != LSquare
  }

  lemma DatumTooDeep(inp: Stream, s: PState, n: nat)
    requires n + 1 >= MAX_NESTING
    ensures ParseDatum(inp, s, n) == TooDeep(inp, s)
  {
  }

  lemma DatumEnter(inp: Stream, s: PState, n: nat)
    requires n + 1 < MAX_NESTING
    ensures ParseDatum(inp, s, n) == DatumLoop(inp, s, n + 1)
  {
  }

  lemma LoopEof(inp: Stream, s: PState, n: nat)
    requires Cur(inp, s) == Eof
    ensures DatumLoop(inp, s, n) == Parsed(s, None)
  {
  }

  lemma LoopComment(inp: Stream, s: PState, n: nat, s1: PState, c: Parsed)
    requires Cur(inp, s) == DatumComment && Advance(inp, s) == s1 && ParseDatum(inp, s1, n) == c
    ensures s.pos < |inp.toks| && Rem(inp, c.s) < Rem(inp, s)
    ensures DatumLoop(inp, s, n) == if c.node.None? then Parsed(c.s, None) else DatumLoop(inp, c.s, n)
  {
  }

  lemma LoopLeaf(inp: Stream, s: PState, n: nat, v: Node)
    requires Cur(inp, s) == NumLit || Cur(inp, s) == Ident
    requires s.pos < |inp.toks|
    requires v == if Cur(inp, s) == NumLit then Num(Token(inp, s).number) else Symbol(Token(inp, s).ident)
    ensures DatumLoop(inp, s, n) == Parsed(Advance(inp, s), Some(v))
  {
  }

  lemma LoopList(inp: Stream, s: PState, n: nat, closing: TokenKind)
    requires (Cur(inp, s) == LParen && closing == RParen) || (Cur(inp, s) == LSquare && closing == RSquare)
    ensures s.pos < |inp.toks| && DatumLoop(inp, s, n) == ParseList(inp, s, n, closing)
  {
  }

  lemma LoopUnexpected(inp: Stream, s: PState, n: nat, s1: PState)
    requires Unexpected(Cur(inp, s)) && s1 == Advance(inp, Report(inp, s, UNEXPECTED))
    ensures Rem(inp, s1) < Rem(inp, s) && DatumLoop(inp, s, n) == DatumLoop(inp, s1, n)
  {
  }

  /** parseDatum past a datum comment whose datum was read. */
  lemma CommentThenDatum(inp: Stream, s: PState, n: nat, s1: PState, c: Parsed)
    requires n + 1 < MAX_NESTING && Cur(inp, s) == DatumComment && Advance(inp, s) == s1
    requires ParseDatum(inp, s1, n + 1) == c && c.node.Some?
    ensures ParseDatum(inp, s, n) == ParseDatum(inp, c.s, n)
  {
    LoopComment(inp, s, n + 1, s1, c);
  }

  /** parseDatum past an unexpected token. */
  lemma UnexpectedThenDatum(inp: Stream, s: PState, n: nat, s1: PState)
    requires n + 1 < MAX_NESTING && Unexpected(Cur(inp, s)) && s1 == Advance(inp, Report(inp, s, UNEXPECTED))
    ensures ParseDatum(inp, s, n) == ParseDatum(inp, s1, n)
  {
    LoopUnexpected(inp, s, n + 1, s1);
  }

  lemma ListTooDeep(inp: Stream, s: PState, n: nat, closing: TokenKind)
    requires s.pos < |inp.toks| && n + 1 >= MAX_NESTING
    ensures ParseList(inp, s, n, closing) == TooDeep(inp, s)
  {
  }

  lemma ListEmpty(inp: Stream, s: PState, n: nat, closing: TokenKind, s1: PState)
    requires s.pos < |inp.toks| && n + 1 < MAX_NESTING && Advance(inp, s) == s1 && Cur(inp, s1) == closing
    ensures ParseList(inp, s, n, closing) == Parsed(Advance(inp, s1), Some(Null))
  {
  }

  lemma ListFirstFails(inp: Stream, s: PState, n: nat, closing: TokenKind, s1: PState, d: Parsed)
    requires s.pos < |inp.toks| && n + 1 < MAX_NESTING && Advance(inp, s) == s1 && Cur(inp, s1) != closing
    requires ParseDatum(inp, s1, n + 1) == d && d.node.None?
    ensures ParseList(inp, s, n, closing) == Unterminated(inp, d.s)
  {
  }

  lemma ListFirst(inp: Stream, s: PState, n: nat, closing: TokenKind, s1: PState, d: Parsed, c: Skipped)
    requires s.pos < |inp.toks| && n + 1 < MAX_NESTING && Advance(inp, s) == s1 && Cur(inp, s1) != closing
    requires ParseDatum(inp, s1, n + 1) == d && d.node.Some? && SkipComments(inp, d.s, n + 1) == c
    ensures Rem(inp, c.s) < Rem(inp, s)
    ensures ParseList(inp, s, n, closing)
      == if c.stop then Parsed(c.s, None) else ListLoop(inp, c.s, n + 1, closing, [d.node.value])
  {
  }

  lemma CommentsEnd(inp: Stream, s: PState, n: nat)
    requires Cur(inp, s) != DatumComment
    ensures SkipComments(inp, s, n) == Skipped(s, false)
  {
  }

  lemma CommentsStep(inp: Stream, s: PState, n: nat, s1: PState, d: Parsed)
    requires Cur(inp, s) == DatumComment && Advance(inp, s) == s1 && ParseDatum(inp, s1, n) == d
    ensures s.pos < |inp.toks| && Rem(inp, d.s) < Rem(inp, s)
    ensures SkipComments(inp, s, n) == if d.node.None? then Skipped(d.s, d.s.fatal) else SkipComments(inp, d.s, n)
  {
  }

  lemma LoopClose(inp: Stream, s: PState, n: nat, closing: TokenKind, items: seq<Node>)
    requires Cur(inp, s) == closing
    ensures ListLoop(inp, s, n, closing, items) == Parsed(Advance(inp, s), Some(ListWithTail(items, Null)))
  {
  }

  lemma LoopDotted(inp: Stream, s: PState, n: nat, closing: TokenKind, items: seq<Node>)
    requires Cur(inp, s) == Period && Cur(inp, s) != closing
    ensures ListLoop(inp, s, n, closing, items) == DottedTail(inp, s, n, closing, items)
  {
  }

  lemma LoopElementFails(inp: Stream, s: PState, n: nat, closing: TokenKind, items: seq<Node>, d: Parsed)
    requires Cur(inp, s) != closing && Cur(inp, s) != Period
    requires ParseDatum(inp, s, n) == d && d.node.None?
    ensures ListLoop(inp, s, n, closing, items) == Unterminated(inp, d.s)
  {
  }

  lemma LoopElement(inp: Stream, s: PState, n: nat, closing: TokenKind, items: seq<Node>, d: Parsed, c: Skipped)
    requires Cur(inp, s) != closing && Cur(inp, s) != Period
    requires ParseDatum(inp, s, n) == d && d.node.Some? && SkipComments(inp, d.s, n) == c
    ensures Rem(inp, c.s) < Rem(inp, s)
    ensures ListLoop(inp, s, n, closing, items)
      == if c.stop then Parsed(c.s, None) else ListLoop(inp, c.s, n, closing, items + [d.node.value])
  {
  }

  lemma DottedFails(inp: Stream, s: PState, n: nat, closing: TokenKind, items: seq<Node>, s1: PState, d: Parsed)
    requires Cur(inp, s) == Period && Advance(inp, s) == s1 && ParseDatum(inp, s1, n) == d && d.node.None?
    ensures DottedTail(inp, s, n, closing, items) == Unterminated(inp, d.s)
  {
  }

  lemma DottedStop(inp: Stream, s: PState, n: nat, closing: TokenKind, items: seq<Node>,
                   s1: PState, d: Parsed, c: Skipped)
    requires Cur(inp, s) == Period && Advance(inp, s) == s1 && ParseDatum(inp, s1, n) == d && d.node.Some?
    requires SkipComments(inp, d.s, n) == c && c.stop
    ensures DottedTail(inp, s, n, closing, items) == Parsed(c.s, None)
  {
  }

  lemma DottedClose(inp: Stream, s: PState, n: nat, closing: TokenKind, items: seq<Node>,
                    s1: PState, d: Parsed, c: Skipped)
    requires Cur(inp, s) == Period && Advance(inp, s) == s1 && ParseDatum(inp, s1, n) == d && d.node.Some?
    requires SkipComments(inp, d.s, n) == c && !c.stop && Cur(inp, c.s) == closing
    ensures DottedTail(inp, s, n, closing, items) == Parsed(Advance(inp, c.s), Some(ListWithTail(items, d.node.value)))
  {
  }

  lemma DottedSkip(inp: Stream, s: PState, n: nat, closing: TokenKind, items: seq<Node>,
                   s1: PState, d: Parsed, c: Skipped, e: PState, k: Skipped)
    requires Cur(inp, s) == Period && Advance(inp, s) == s1 && ParseDatum(inp, s1, n) == d && d.node.Some?
    requires SkipComments(inp, d.s, n) == c && !c.stop && Cur(inp, c.s) != closing
    requires e == Report(inp, c.s, TERMINATOR_EXPECTED) && SkipToClose(inp, e, n, closing) == k
    ensures DottedTail(inp, s, n, closing, items)
      == if k.stop then Parsed(k.s, None) else Parsed(Advance(inp, k.s), Some(ListWithTail(items, d.node.value)))
  {
  }

  lemma CloseEnd(inp: Stream, s: PState, n: nat, closing: TokenKind)
    requires Cur(inp, s) == Eof || Cur(inp, s) == closing
    ensures SkipToClose(inp, s, n, closing) == Skipped(s, false)
  {
  }

  lemma CloseStep(inp: Stream, s: PState, n: nat, closing: TokenKind, d: Parsed)
    requires Cur(inp, s) != Eof && Cur(inp, s) != closing && ParseDatum(inp, s, n) == d
    ensures SkipToClose(inp, s, n, closing) == if d.node.None? then Skipped(d.s, true) else SkipToClose(inp, d.s, n, closing)
  {
  }

  lemma TopTurn(inp: Stream, s: PState, items: seq<Node>, d: Parsed)
    requires ParseDatum(inp, s, 0) == d
    ensures TopLoop(inp, s, items) == if d.node.None? then Top(d.s, items) else TopLoop(inp, d.s, items + [d.node.value])
  {
  }
}
