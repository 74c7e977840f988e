/** The MCP server's read-only executor (`readonly_query_executor.py`): its own check of
    the statement, and the bounded fetch. */
module Executor {
  import opened Sequences
  import opened Text
  import G = Guardrail

  const MIN_TIMEOUT := 1
  const MAX_TIMEOUT := 15
  const MIN_ROWS := 1
  const MAX_ROWS := 500

  const FORBIDDEN_KEYWORDS := {
    "INSERT", "UPDATE", "DELETE", "MERGE", "EXEC", "EXECUTE", "DROP", "ALTER", "CREATE",
    "TRUNCATE", "GRANT", "REVOKE", "INTO"
  }

  predicate InputOk(timeout: int, maximum: int) {
    MIN_TIMEOUT <= timeout <= MAX_TIMEOUT && MIN_ROWS <= maximum <= MAX_ROWS
  }

  /** The statement the executor runs, if it runs one. */
  function Checked(sql: string): Option<string> {
    var cleaned := G.Clean(sql);
    if && cleaned != "" && ';' !in cleaned
       && !G.HasAdjacent(cleaned, '-', '-') && !G.HasAdjacent(cleaned, '/', '*')
       && G.StartsWithSelect(Lex(cleaned))
       && (forall t <- Lex(cleaned) :: !G.Stops(t, FORBIDDEN_KEYWORDS))
    then Some(cleaned) else None
  }

  method ValidateSql(sql: string) returns (r: Option<string>)
    ensures r == Checked(sql)
  {
    var cleaned := Strip(sql);
    if cleaned == "" {
      assert Lex(cleaned) == [];
      return None;
    }
    if cleaned[|cleaned| - 1] == ';' { cleaned := RStrip(cleaned[..|cleaned| - 1]); }
    assert cleaned == G.Clean(sql);
    if ';' in cleaned { return None; }
    if G.HasAdjacent(cleaned, '-', '-') || G.HasAdjacent(cleaned, '/', '*') { return None; }
    if !G.StartsWithSelect(Lex(cleaned)) {
      return None;
    }
    var ts := Lex(cleaned);
    for k := 0 to |ts|
      invariant forall m :: 0 <= m < k ==> !G.Stops(ts[m], FORBIDDEN_KEYWORDS)
    {
      if G.Stops(ts[k], FORBIDDEN_KEYWORDS) {
        assert ts[k] in ts;
        return None;
      }
    }
    r := Some(cleaned);
  }

  // ---------------------------------------------------------------- the fetch

  /** What goes wrong while a connection is open: a timeout, another database error, or
      something else. */
  datatype Failure = TimedOut | Broken | Crashed

  /** What comes back from the database: no connection at all, an answer, or a failure, before
      the statement is sent or after. */
  datatype Reply<Row> =
    | Unreachable
    | Answered(columns: seq<string>, rows: seq<Row>)
    | Failed(failure: Failure, sent: bool)

  predicate Sends<Row>(reply: Reply<Row>) { reply.Answered? || (reply.Failed? && reply.sent) }

  datatype Execution<Row> =
    | BadInput
    | BadSql
    | NotConnected
    | QueryTimeout
    | QueryFailed
    | QueryCrashed
    | Fetched(columns: seq<string>, rows: seq<Row>, rowCount: nat, truncated: bool)

  /** What one request comes to. */
  function Outcome<Row>(sql: string, timeout: int, maximum: int, reply: Reply<Row>): Execution<Row> {
    if !InputOk(timeout, maximum) then BadInput
    else if Checked(sql).None? then BadSql
    else
      match reply
      case Unreachable => NotConnected
      case Failed(TimedOut, _) => QueryTimeout
      case Failed(Broken, _) => QueryFailed
      case Failed(Crashed, _) => QueryCrashed
      case Answered(columns, rows) =>
        Fetched(columns, First(maximum, rows), |First(maximum, rows)|, |rows| > maximum)
  }

  /** A database behind the executor: its open connections, the statements it was sent, and
      the columns and rows its cursor holds. */
  class Backend<Row(0)> {
    var open: nat
    var sent: seq<string>
    var columns: seq<string>
    var pending: seq<Row>

    constructor ()
      ensures open == 0 && sent == [] && columns == [] && pending == []
    {
      open, sent, columns, pending := 0, [], [], [];
    }

    method Connect(reply: Reply<Row>) returns (ok: bool)
      modifies this`open
      ensures ok == !reply.Unreachable? && open == old(open) + if ok then 1 else 0
    {
      ok := !reply.Unreachable?;
      if ok { open := open + 1; }
    }

    method Close()
      requires open > 0
      modifies this`open
      ensures open == old(open) - 1
    {
      open := open - 1;
    }

    method Send(sql: string, reply: Reply<Row>)
      requires open > 0
      modifies this`sent, this`columns, this`pending
      ensures sent == old(sent) + [sql]
      ensures reply.Answered? ==> columns == reply.columns && pending == reply.rows
    {
      sent := sent + [sql];
      if reply.Answered? { columns, pending := reply.columns, reply.rows; }
    }

    method FetchMany(n: nat) returns (batch: seq<Row>)
      modifies this`pending
      ensures batch == First(n, old(pending)) && batch + pending == old(pending)
    {
      batch := First(n, pending);
      pending := pending[|batch|..];
    }

    /** Runs one request: every connection opened is closed again, however the request ends,
        and the database is sent the checked statement or nothing. Setting the timeout or
        opening a cursor may fail before that. */
    method Execute(sql: string, timeout: int, maximum: int, reply: Reply<Row>) returns (r: Execution<Row>)
      modifies this
      ensures r == Outcome(sql, timeout, maximum, reply)
      ensures open == old(open)
      ensures sent == old(sent) + if r.BadInput? || r.BadSql? || !Sends(reply) then [] else [Checked(sql).value]
    {
      if !InputOk(timeout, maximum) { return BadInput; }
      var checked := ValidateSql(sql);
      if checked.None? { return BadSql; }
      var connected := Connect(reply);
      if !connected { return NotConnected; }
      if Sends(reply) { Send(checked.value, reply); }
      if reply.Failed? {
        Close();
        match reply.failure {
          case TimedOut => return QueryTimeout;
          case Broken => return QueryFailed;
          case Crashed => return QueryCrashed;
        }
      }
      var header := columns;
      var fetched := FetchMany(maximum + 1);
      var truncated := |fetched| > maximum;
      var limited := First(maximum, fetched);
      Close();
      r := Fetched(header, limited, |limited|, truncated);
    }
  }

  /** The fetch keeps the longest prefix within the limit and reports a drop exactly when it drops rows. */
  lemma {:induction false} LongestPrefix<Row>(sql: string, timeout: int, maximum: int, columns: seq<string>,
                                              rows: seq<Row>, other: seq<Row>)
    requires InputOk(timeout, maximum) && Checked(sql).Some?
    ensures
      var r := Outcome(sql, timeout, maximum, Answered(columns, rows));
      && r.Fetched? && r.columns == columns && r.rows <= rows && r.rowCount == |r.rows| <= maximum
      && (r.truncated <==> r.rows != rows)
      && (other <= rows && |other| <= maximum ==> other <= r.rows)
  {
  }

  // ------------------------------------------------------------ layer agreement

  lemma {:induction false} CleanTrims(sql: string)
    ensures Trimmed(G.Clean(sql))
    ensures ';' !in G.Clean(sql) ==> G.Clean(G.Clean(sql)) == G.Clean(sql)
  {
    var s, c := Strip(sql), G.Clean(sql);
    StripTrims(sql);
    if s != "" && s[|s| - 1] == ';' {
      RStripEnds(s[..|s| - 1]);
      assert c <= s[..|s| - 1] <= s;
    }
    StripTrims(c);
    if c != "" { assert c[|c| - 1] in c; }
  }

  /** What the guardrail passes it passes again unchanged, and so does the executor. */
  lemma {:induction false} LayersAgree(sql: string)
    ensures
      var v := G.Decision(sql);
      v.Accepted? ==> G.Decision(v.sql) == v && Checked(v.sql) == Some(v.sql)
  {
    var v := G.Decision(sql);
    if v.Accepted? {
      CleanTrims(sql);
      assert v.sql != "";
      forall t | t in Lex(v.sql) ensures !G.Stops(t, FORBIDDEN_KEYWORDS) {
        assert !G.Stops(t, G.FORBIDDEN_KEYWORDS);
      }
    }
  }
}
