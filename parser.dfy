/** The DatumParser class of DatumParser.cpp: recursive descent over the lexer's tokens,
    with the nesting_ counter and the fatal_ flag as fields. Every method is proved to
    leave the state and return the datum its function in ParserSpec describes. */
module Parser {
  import opened Wrappers
  import opened Tokens
  import opened Diagnostics
  import opened Ast
  import opened ParserSpec
  import opened ParserSteps

  class DatumParser {
    /** The tokens the lexer delivers and the error limit. */
    const inp: Stream
    /** The index of lex_.token, and whether forceEOF() was called. */
    var pos: nat
    var forced: bool
    /** The shared error log. */
    var msgs: seq<Diag>
    var fatal: bool
    var nesting: nat

    function State(): PState
      reads this
    {
      PState(pos, forced, msgs, fatal)
    }

    /** The constructor, which scans the first token. */
    constructor(inp: Stream, msgs0: seq<Diag>)
      ensures this.inp == inp && State() == Start(inp, msgs0) && nesting == 0
    {
      this.inp := inp;
      pos := 0;
      forced := false;
      msgs := msgs0;
      fatal := false;
      nesting := 0;
      new;
      if 0 < |inp.toks| {
        Arrive();
      }
    }

    /** The errors reported while scanning the current token reach the log. */
    method Arrive()
      requires pos < |inp.toks|
      modifies this
      ensures State() == ParserSpec.Arrive(inp, old(State())) && nesting == old(nesting)
    {
      var e := inp.toks[pos].errs;
      msgs := msgs + e;
      forced := forced || (e != [] && LimitReachedBy(inp.limit, msgs));
    }

    /** lex_.advance(). */
    method LexAdvance()
      modifies this
      ensures State() == Advance(inp, old(State())) && nesting == old(nesting)
    {
      if pos >= |inp.toks| {
      } else if forced {
        pos := |inp.toks|;
      } else {
        pos := pos + 1;
        if pos < |inp.toks| {
          Arrive();
        }
      }
    }

    /** lex_.error(msg) at the current token. */
    method LexError(msg: string)
      modifies this
      ensures State() == Report(inp, old(State()), msg) && nesting == old(nesting)
    {
      msgs := msgs + [Diag(TokStart(inp, State()), TokEnd(inp, State()), msg)];
      forced := forced || LimitReachedBy(inp.limit, msgs);
    }

    /** The reportUnterminated label of parseList. */
    method ReportUnterminated()
      modifies this
      ensures Parsed(State(), None) == Unterminated(inp, old(State())) && nesting == old(nesting)
    {
      if !fatal {
        fatal := true;
        LexError(UNTERMINATED);
      }
    }

    /** parseDatum(): CHECK_NESTING, whose NestingRAII increments nesting_ on entry and
        restores it on every exit, around the for(;;) loop. */
    method ParseDatum() returns (r: Option<Node>)
      modifies this
      ensures Parsed(State(), r) == ParserSpec.ParseDatum(inp, old(State()), old(nesting))
      ensures nesting == old(nesting)
      decreases Rem(inp, State()), 5
    {
      ghost var s0 := State();
      nesting := nesting + 1;
      if nesting >= MAX_NESTING {
        DatumTooDeep(inp, s0, nesting - 1);
        LexError(TOO_DEEP);
        fatal := true;
        r := None;
      } else {
        DatumEnter(inp, s0, nesting - 1);
        r := DatumLoop();
      }
      nesting := nesting - 1;
    }

    /** The for(;;) loop of parseDatum. */
    method DatumLoop() returns (r: Option<Node>)
      requires nesting < MAX_NESTING
      modifies this
      ensures Parsed(State(), r) == ParserSpec.DatumLoop(inp, old(State()), nesting)
      ensures nesting == old(nesting)
      decreases Rem(inp, State()), 4
    {
      ghost var s0 := State();
      ghost var goal := ParserSpec.DatumLoop(inp, s0, nesting);
      while true
        invariant nesting == old(nesting)
        invariant Rem(inp, State()) <= Rem(inp, s0)
        invariant ParserSpec.DatumLoop(inp, State(), nesting) == goal
        decreases Rem(inp, State())
      {
        ghost var s := State();
        var k := Cur(inp, State());
        if k == Eof {
          LoopEof(inp, s, nesting);
          return None;
        } else if k == DatumComment {
          // Ignore the next datum.
          LexAdvance();
          ghost var s1 := State();
          var c := ParseDatum();
          LoopComment(inp, s, nesting, s1, Parsed(State(), c));
          if c.None? {
            return None;
          }
        } else if k == NumLit || k == Ident {
          var t := inp.toks[pos];
          r := Some(if k == NumLit then Num(t.number) else Symbol(t.ident));
          LoopLeaf(inp, s, nesting, r.value);
          LexAdvance();
          return r;
        } else if k == LParen || k == LSquare {
          var closing := if k == LParen then RParen else RSquare;
          LoopList(inp, s, nesting, closing);
          r := ParseList(closing);
          return r;
        } else {
          LexError(UNEXPECTED);
          LexAdvance();
          LoopUnexpected(inp, s, nesting, State());
        }
      }
    }

    /** skipDatumComments(): true when a datum comment failed with a fatal error. */
    method SkipDatumComments() returns (stop: bool)
      modifies this
      ensures Skipped(State(), stop) == SkipComments(inp, old(State()), nesting)
      ensures nesting == old(nesting)
      decreases Rem(inp, State()), 0
    {
      ghost var goal := SkipComments(inp, State(), nesting);
      ghost var s0 := State();
      while Cur(inp, State()) == DatumComment
        invariant nesting == old(nesting)
        invariant Rem(inp, State()) <= Rem(inp, s0)
        invariant SkipComments(inp, State(), nesting) == goal
        decreases Rem(inp, State())
      {
        ghost var s := State();
        LexAdvance();
        ghost var s1 := State();
        var d := ParseDatum();
        CommentsStep(inp, s, nesting, s1, Parsed(State(), d));
        if d.None? {
          return fatal;
        }
      }
      CommentsEnd(inp, State(), nesting);
      return false;
    }

    /** parseList(closingKind), called at the opening token: CHECK_NESTING around the
        list's body. */
    method ParseList(closing: TokenKind) returns (r: Option<Node>)
      requires pos < |inp.toks|
      modifies this
      ensures Parsed(State(), r) == ParserSpec.ParseList(inp, old(State()), old(nesting), closing)
      ensures nesting == old(nesting)
      decreases Rem(inp, State()), 3
    {
      ghost var s0 := State();
      ghost var n := nesting;
      nesting := nesting + 1;
      if nesting >= MAX_NESTING {
        ListTooDeep(inp, s0, n, closing);
        LexError(TOO_DEEP);
        fatal := true;
        r := None;
      } else {
        r := ListBody(closing, n);
      }
      nesting := nesting - 1;
    }

    /** The body of parseList after CHECK_NESTING. The pairs head..tail linked by
        tail->setCdr are collected as the sequence of their cars. */
    method ListBody(closing: TokenKind, ghost n: nat) returns (r: Option<Node>)
      requires pos < |inp.toks| && nesting == n + 1 < MAX_NESTING
      modifies this
      ensures Parsed(State(), r) == ParserSpec.ParseList(inp, old(State()), n, closing)
      ensures nesting == old(nesting)
      decreases Rem(inp, State()), 2
    {
      ghost var s0 := State();
      LexAdvance();
      ghost var s1 := State();
      if Cur(inp, State()) == closing {
        ListEmpty(inp, s0, n, closing, s1);
        LexAdvance();
        return Some(Null);
      }
      var datum := ParseDatum();
      if datum.None? {
        ListFirstFails(inp, s0, n, closing, s1, Parsed(State(), datum));
        ReportUnterminated();
        return None;
      }
      ghost var d := Parsed(State(), datum);
      var stop := SkipDatumComments();
      ListFirst(inp, s0, n, closing, s1, d, Skipped(State(), stop));
      if stop {
        return None;
      }
      r := ListElements(closing, [datum.value], s0);
    }

    /** The while loop of parseList, entered after the first element with nesting_
        already incremented. */
    method ListElements(closing: TokenKind, items0: seq<Node>, ghost s0: PState) returns (r: Option<Node>)
      requires Rem(inp, State()) < Rem(inp, s0)
      modifies this
      ensures Parsed(State(), r) == ListLoop(inp, old(State()), nesting, closing, items0)
      ensures nesting == old(nesting)
      decreases Rem(inp, s0), 1
    {
      ghost var goal := ListLoop(inp, State(), nesting, closing, items0);
      var items := items0;
      while Cur(inp, State()) != closing
        invariant nesting == old(nesting)
        invariant Rem(inp, State()) < Rem(inp, s0)
        invariant ListLoop(inp, State(), nesting, closing, items) == goal
        decreases Rem(inp, State())
      {
        ghost var s := State();
        if Cur(inp, State()) == Period {
          LoopDotted(inp, s, nesting, closing, items);
          r := DottedTail(closing, items, s0);
          return r;
        }
        var datum := ParseDatum();
        if datum.None? {
          LoopElementFails(inp, s, nesting, closing, items, Parsed(State(), datum));
          ReportUnterminated();
          return None;
        }
        ghost var d := Parsed(State(), datum);
        var stop := SkipDatumComments();
        LoopElement(inp, s, nesting, closing, items, d, Skipped(State(), stop));
        if stop {
          return None;
        }
        items := items + [datum.value];
      }
      LoopClose(inp, State(), nesting, closing, items);
      // Not a dotted list: the last cdr is the terminating Null node.
      LexAdvance();
      return Some(ListWithTail(items, Null));
    }

    /** The period branch of parseList's loop. */
    method DottedTail(closing: TokenKind, items: seq<Node>, ghost s0: PState) returns (r: Option<Node>)
      requires Cur(inp, State()) == Period && Rem(inp, State()) < Rem(inp, s0)
      modifies this
      ensures Parsed(State(), r) == ParserSpec.DottedTail(inp, old(State()), nesting, closing, items)
      ensures nesting == old(nesting)
      decreases Rem(inp, s0), 0
    {
      ghost var s := State();
      LexAdvance();
      ghost var s1 := State();
      var datum := ParseDatum();
      if datum.None? {
        DottedFails(inp, s, nesting, closing, items, s1, Parsed(State(), datum));
        ReportUnterminated();
        return None;
      }
      ghost var d := Parsed(State(), datum);
      var stop := SkipDatumComments();
      ghost var c := Skipped(State(), stop);
      if stop {
        DottedStop(inp, s, nesting, closing, items, s1, d, c);
        return None;
      }
      if Cur(inp, State()) != closing {
        LexError(TERMINATOR_EXPECTED);
        // Skip until the end of the list.
        ghost var e := State();
        ghost var goal := SkipToClose(inp, e, nesting, closing);
        while Cur(inp, State()) != Eof && Cur(inp, State()) != closing
          invariant nesting == old(nesting)
          invariant Rem(inp, State()) <= Rem(inp, e)
          invariant SkipToClose(inp, State(), nesting, closing) == goal
          decreases Rem(inp, State())
        {
          ghost var t := State();
          var skipped := ParseDatum();
          CloseStep(inp, t, nesting, closing, Parsed(State(), skipped));
          if skipped.None? {
            DottedSkip(inp, s, nesting, closing, items, s1, d, c, e, goal);
            return None;
          }
        }
        CloseEnd(inp, State(), nesting, closing);
        DottedSkip(inp, s, nesting, closing, items, s1, d, c, e, goal);
      } else {
        DottedClose(inp, s, nesting, closing, items, s1, d, c);
      }
      LexAdvance();
      return Some(ListWithTail(items, datum.value));
    }

    /** parse(), with the error count it compares against given by the caller. */
    method Parse(numErrors: nat) returns (res: Option<Node>)
      requires nesting == 0
      modifies this
      ensures var s := old(State());
        if LimitReachedBy(inp.limit, s.msgs) then State() == s && res == None
        else
          var t := TopLoop(inp, s, []);
          State() == t.s && res == if |t.s.msgs| != numErrors then None else Some(List(t.items))
    {
      if LimitReachedBy(inp.limit, msgs) {
        return None;
      }
      var list := new ListBuilder();
      ghost var goal := TopLoop(inp, State(), []);
      while true
        invariant nesting == 0 && fresh(list)
        invariant TopLoop(inp, State(), list.items) == goal
        decreases Rem(inp, State())
      {
        ghost var s := State();
        var datum := ParseDatum();
        TopTurn(inp, s, list.items, Parsed(State(), datum));
        if datum.None? {
          break;
        }
        list.Append(datum.value);
      }
      // If errors occurred.
      if numErrors != |msgs| {
        return None;
      }
      var l := list.FinishList();
      return Some(l);
    }
  }

  /** parseDatums(context, input), with the error count taken before the parser's
      constructor scans the first token. */
  method ParseDatums(inp: Stream, msgs0: seq<Diag>) returns (o: Outcome)
    ensures o == ParserSpec.Parse(inp, msgs0)
  {
    var numErrors := |msgs0|;
    var parser := new DatumParser(inp, msgs0);
    var res := parser.Parse(numErrors);
    o := Outcome(parser.msgs, res);
  }

  /** parseDatums as written: parse() takes the error count after the constructor. */
  method ParseDatumsAsWritten(inp: Stream, msgs0: seq<Diag>) returns (o: Outcome)
    ensures o == ParserSpec.ParseAsWritten(inp, msgs0)
  {
    var parser := new DatumParser(inp, msgs0);
    var res := parser.Parse(|parser.msgs|);
    o := Outcome(parser.msgs, res);
  }
}
