/** Token kinds and diagnostics shared by the lexer and the datum parser. */
module Tokens {

  /** The kinds of TokenKinds.def this reader produces or consumes. */
  datatype TokenKind =
    | NoKind | Eof
    | LParen | RParen | LSquare | RSquare | LBrace | RBrace
    | Apostrophe | Backtick | Comma | CommaAt | Period
    | Ident | NumLit | DatumComment

  /** One reported error: a byte range of the input and a message. */
  datatype Diag = Diag(start: int, end: int, msg: string)

  /** Whether `msgs` contains `msg` exactly once. */
  predicate ReportedOnce(msgs: seq<Diag>, msg: string)
  {
    exists i :: 0 <= i < |msgs| && msgs[i].msg == msg
      && forall j :: 0 <= j < |msgs| && j != i ==> msgs[j].msg != msg
  }
}
