/** The error sink the lexer and the parser report to: an appended log of messages and
    an error limit. */
module Diagnostics {
  import opened Tokens

  /** Whether `limit` errors (0 meaning no limit) have been reported. */
  predicate LimitReachedBy(limit: nat, msgs: seq<Diag>)
  {
    limit > 0 && |msgs| >= limit
  }

  class DiagnosticLog {
    const limit: nat
    var messages: seq<Diag>

    constructor(limit: nat)
      ensures this.limit == limit && messages == []
    {
      this.limit := limit;
      messages := [];
    }

    function ErrorCount(): nat
      reads this
    {
      |messages|
    }

    predicate LimitReached()
      reads this
    {
      LimitReachedBy(limit, messages)
    }

    /** sm.error(range, msg). */
    method Report(d: Diag)
      modifies this
      ensures messages == old(messages) + [d]
    {
      messages := messages + [d];
    }
  }
}
