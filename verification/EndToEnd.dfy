/** From a question to its rows: what the layers guarantee together. */
module EndToEnd {
  import opened Sequences
  import opened Text
  import opened SqlAst
  import opened Sql
  import opened Acceptance
  import opened Business
  import opened Meaning
  import opened Preservation
  import opened Guarantee
  import Spacing
  import G = Guardrail
  import E = Executor
  import F = QuestionFlow
  import P = Pipeline
  import S = SqlGenerator

  const QUERY_TIMEOUT_SECONDS := 10
  const MAXIMUM_RETURNED_ROWS := 100

  /** The executor's answer to a statement, given what the database returns. */
  function Delivered(sql: string, r: Relation): E.Execution<seq<Value>> {
    E.Outcome(sql, QUERY_TIMEOUT_SECONDS, MAXIMUM_RETURNED_ROWS, E.Answered(r.header, r.rows))
  }

  lemma {:induction false} AcceptedParts(q: Query, text: string, sql: string)
    requires WellFormed(q) && LaidOut(q, text) && G.Decision(text) == G.Accepted(sql)
    ensures Family(q) && E.Checked(sql).Some?
    ensures G.Decision(SqlText(q)).Accepted?
  {
    AnyLayout(q, text);
    ExactAcceptance(q);
    E.LayersAgree(text);
  }

  lemma {:induction false} AllFetched(sql: string, r: Relation)
    requires E.Checked(sql).Some? && |r.rows| <= MAXIMUM_RETURNED_ROWS
    ensures Delivered(sql, r) == E.Fetched(r.header, r.rows, |r.rows|, false)
  {
    assert r.rows[..|r.rows|] == r.rows;
  }

  lemma {:induction false} WithinTop(q: Query, db: Database, sv: Server, r: Relation)
    requires Returns(q, db, sv, r)
    ensures |r.rows| <= q.top
  {
  }

  /** However it is laid out, an accepted statement's result is never cut short: the executor
      hands over every row. */
  lemma {:induction false} NeverTruncated(q: Query, text: string, sql: string, db: Database, sv: Server, r: Relation)
    requires WellFormed(q) && LaidOut(q, text) && G.Decision(text) == G.Accepted(sql)
    requires Returns(q, db, sv, r)
    ensures Delivered(sql, r) == E.Fetched(r.header, r.rows, |r.rows|, false)
  {
    AcceptedParts(q, text, sql);
    WithinTop(q, db, sv, r);
    AllFetched(sql, r);
  }

  /** What is delivered when the report is: its first TOP lines, uncut, TOP of them or as many
      as there are. */
  function ReportFetched(q: Query, report: seq<Shortage>): E.Execution<seq<Value>> {
    E.Fetched(Header(q.items), Answer(q, report).rows, if q.top <= |report| then q.top else |report|, false)
  }

  lemma {:induction false} AnswerFetched(q: Query, report: seq<Shortage>, sql: string)
    requires E.Checked(sql).Some? && q.top <= MAXIMUM_RETURNED_ROWS
    ensures Delivered(sql, Answer(q, report)) == ReportFetched(q, report)
  {
    AllFetched(sql, Answer(q, report));
  }

  /** What is delivered for an accepted statement, however it is laid out, is the first TOP
      lines of the business report, all of them. */
  lemma {:induction false} ReportDelivered(q: Query, text: string, sql: string, db: Database, sv: Server, r: Relation)
    requires WellFormed(q) && LaidOut(q, text) && G.Decision(text) == G.Accepted(sql)
    requires Stocktaking(db) && Returns(q, db, sv, r)
    ensures Family(q)
    ensures ReadsStock(q, db) ==> Delivered(sql, r) == ReportFetched(q, BusinessReport(db))
  {
    AcceptedParts(q, text, sql);
    MeaningPreserved(q, db, sv, r);
    if ReadsStock(q, db) { AnswerFetched(q, BusinessReport(db), sql); }
  }

  /** The result holds what the executor fetched. */
  predicate Holds(b: F.Bounded, e: E.Execution<seq<Value>>) {
    e == E.Fetched(b.columns, b.rows, b.rowCount, b.truncated)
  }

  /** What an MCP server on the database answers to a statement: what the executor fetches from
      a result the database may return for it. */
  ghost predicate Serves(sql: string, b: F.Bounded, db: Database, sv: Server) {
    forall q :: WellFormed(q) && Spacing.Alike(sql, SqlText(q)) ==>
      exists r :: Returns(q, db, sv, r) && Holds(b, Delivered(sql, r))
  }

  ghost function JudgesOn(db: Database, sv: Server): F.Judges {
    P.JudgesOver((sql, b) => Serves(sql, b, db, sv))
  }

  lemma {:induction false} ServedReport(q: Query, text: string, sql: string, b: F.Bounded, db: Database, sv: Server)
    requires WellFormed(q) && LaidOut(q, text) && G.Decision(text) == G.Accepted(sql)
    requires Stocktaking(db) && Serves(sql, b, db, sv)
    ensures Family(q)
    ensures ReadsStock(q, db) ==> Holds(b, ReportFetched(q, BusinessReport(db)))
  {
    AnyLayout(q, text);
    var r :| Returns(q, db, sv, r) && Holds(b, Delivered(sql, r));
    ReportDelivered(q, text, sql, db, sv, r);
  }

  /** However many questions run together on an MCP server over the database, and whatever the
      model replies: a completed question sent a statement the guardrail passed for it, and when
      that statement is `q`, in any layout, the question shows the business report. */
  lemma {:induction false} QuestionAnswered(s: F.System, k: nat, q: Query, db: Database, sv: Server)
    returns (reply: string, sql: string)
    requires F.Reached(JudgesOn(db, sv), s) && k < |s.questions|
    requires F.Completes(F.StatusIn(JudgesOn(db, sv), s.questions[k]))
    requires WellFormed(q) && Stocktaking(db)
    ensures s.questions[k].task.Some? && s.questions[k].task.value in s.manager.log
    ensures s.questions[k].text == Some(F.Written(reply)) && G.Decision(S.Extracted(reply)) == G.Accepted(sql)
    ensures LaidOut(q, S.Extracted(reply)) ==> Family(q)
    ensures LaidOut(q, S.Extracted(reply)) && ReadsStock(q, db) ==>
      Holds(F.StatusIn(JudgesOn(db, sv), s.questions[k]).outcome.result, ReportFetched(q, BusinessReport(db)))
  {
    sql := P.CompletedValidated((sql, b) => Serves(sql, b, db, sv), s, k);
    reply := s.questions[k].text.value.text;
    if LaidOut(q, S.Extracted(reply)) {
      ServedReport(q, S.Extracted(reply), sql, F.StatusIn(JudgesOn(db, sv), s.questions[k]).outcome.result, db, sv);
    }
  }
}
