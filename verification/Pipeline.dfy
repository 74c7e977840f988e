/** The question pipeline (`agent_service.py`): intent, plan, SQL, guardrail, MCP call. */
module Pipeline {
  import opened Text
  import opened QuestionFlow
  import M = ClientManager
  import P = Plan
  import S = SqlGenerator
  import G = Guardrail
  import V = Validation
  import E = Executor

  // ------------------------------------------------------------ one question

  predicate PlanAccepted(p: P.QueryPlan) {
    P.Structural(p) && P.Valid(p, P.ContextOf(P.AllEntries()))
  }

  function AfterIntent(r: IntentReply): Status {
    match r
    case NoIntent => Finished(Failed(LlmUnavailable))
    case BadIntent => Finished(Rejected(IntentContractViolation))
    case CrashedIntent => Finished(Failed(InternalError))
    case Intent(clarify, inScope) =>
      if clarify then Finished(ClarificationRequired)
      else if !inScope then Finished(Rejected(MetadataNotFound))
      else WaitPlan
  }

  function AfterPlan(r: PlanReply): Status {
    match r
    case NoPlan => Finished(Failed(LlmUnavailable))
    case BadPlan => Finished(Rejected(QueryPlanInvalid))
    case CrashedPlan => Finished(Failed(InternalError))
    case Planned(p) => if PlanAccepted(p) then WaitSql else Finished(Rejected(QueryPlanInvalid))
  }

  function AfterSql(r: SqlReply): Status {
    match r
    case NoSql => Finished(Failed(LlmUnavailable))
    case CrashedSql => Finished(Failed(InternalError))
    case Written(text) =>
      match G.Decision(S.Extracted(text))
      case Accepted(sql) => WaitTool(sql)
      case Rejected => Finished(Rejected(SqlRejected))
  }

  /** The pipeline's judges, over any MCP server. */
  function JudgesOver(answers: (string, Bounded) -> bool): Judges {
    Judges(AfterIntent, AfterPlan, AfterSql, answers)
  }

  method ReadIntent(i: IntentReply) returns (r: Status)
    ensures r == AfterIntent(i)
  {
    if i.NoIntent? { return Finished(Failed(LlmUnavailable)); }
    if i.BadIntent? { return Finished(Rejected(IntentContractViolation)); }
    if i.CrashedIntent? { return Finished(Failed(InternalError)); }
    if i.clarify { return Finished(ClarificationRequired); }
    if !i.inScope { return Finished(Rejected(MetadataNotFound)); }
    r := WaitPlan;
  }

  method CheckPlan(p: PlanReply) returns (r: Status)
    ensures r == AfterPlan(p)
  {
    if p.NoPlan? { return Finished(Failed(LlmUnavailable)); }
    if p.BadPlan? { return Finished(Rejected(QueryPlanInvalid)); }
    if p.CrashedPlan? { return Finished(Failed(InternalError)); }
    if !PlanAccepted(p.plan) { return Finished(Rejected(QueryPlanInvalid)); }
    r := WaitSql;
  }

  method WriteSql(t: SqlReply) returns (r: Status)
    ensures r == AfterSql(t)
  {
    if t.NoSql? { return Finished(Failed(LlmUnavailable)); }
    if t.CrashedSql? { return Finished(Failed(InternalError)); }
    var sql := S.ExtractSql(t.text);
    var verdict := V.Validate(sql);
    if verdict.Rejected? { return Finished(Rejected(SqlRejected)); }
    r := WaitTool(verdict.sql);
  }

  /** Handles one question step by step, leaving at the first step that settles it. */
  method HandleQuestion(i: IntentReply, p: PlanReply, t: SqlReply, m: ToolReply)
    returns (outcome: Outcome, modelCalls: nat, sent: seq<string>)
    ensures StatusOf(JudgesOver((sql, b) => true), Some(i), Some(p), Some(t), Some(m)) == Finished(outcome)
    ensures 1 <= modelCalls <= 3 && |sent| <= 1
    ensures sent != [] ==> modelCalls == 3 && AfterSql(t) == WaitTool(sent[0])
    ensures outcome.Completed? ==> sent != [] && m.outcome == M.Ended(M.Replied) && m.result == Some(outcome.result)
    ensures NoCall(outcome) ==> sent == []
  {
    modelCalls, sent := 1, [];
    var step := ReadIntent(i);
    if step.Finished? { return step.outcome, modelCalls, sent; }
    modelCalls := modelCalls + 1;
    step := CheckPlan(p);
    if step.Finished? { return step.outcome, modelCalls, sent; }
    modelCalls := modelCalls + 1;
    step := WriteSql(t);
    if step.Finished? { return step.outcome, modelCalls, sent; }
    sent := [step.sql];
    outcome := AfterTool(m);
    ToolOutcomes(m);
  }

  // -------------------------------------------------------------- guarantees

  /** The pipeline's own judges meet what the flow asks of judges. */
  lemma {:induction false} JudgesSensible(answers: (string, Bounded) -> bool)
    ensures Sensible(JudgesOver(answers)) && OnlyToolCompletes(JudgesOver(answers))
  {
    forall r ensures (AfterSql(r).WaitTool? || AfterSql(r).Finished?) && !Completes(AfterSql(r)) { SqlSensible(r); }
  }

  lemma {:induction false} SqlSensible(r: SqlReply)
    ensures (AfterSql(r).WaitTool? || AfterSql(r).Finished?) && !Completes(AfterSql(r))
  {
  }

  /** For any replies and any interleaving: every session call carries a statement the
      guardrail passed for the question it belongs to. The guardrail would pass it again
      unchanged, and the executor runs it as it is. */
  lemma {:induction false} OnlyValidatedSql(answers: (string, Bounded) -> bool, s: System, n: nat) returns (q: nat, sql: string)
    requires Reached(JudgesOver(answers), s) && n < |s.manager.log|
    ensures q < |s.questions| && TaskOf(s.questions[q], s.manager.log[n])
    ensures forall m :: 0 <= m < |s.manager.log| && m != n ==> !TaskOf(s.questions[q], s.manager.log[m])
    ensures s.questions[q].text.Some? && s.questions[q].text.value.Written?
    ensures G.Decision(S.Extracted(s.questions[q].text.value.text)) == G.Accepted(sql)
    ensures G.Decision(sql) == G.Accepted(sql) && E.Checked(sql) == Some(sql)
  {
    JudgesSensible(answers);
    q := CallsJudged(JudgesOver(answers), s, n);
    var reply := s.questions[q].text.value;
    sql := SqlOf(reply);
    E.LayersAgree(S.Extracted(reply.text));
  }

  /** For any replies and any interleaving: a completed question made its session call, with
      a statement the guardrail passed for it. */
  lemma {:induction false} CompletedValidated(answers: (string, Bounded) -> bool, s: System, q: nat) returns (sql: string)
    requires Reached(JudgesOver(answers), s) && q < |s.questions| && Completes(StatusIn(JudgesOver(answers), s.questions[q]))
    ensures s.questions[q].task.Some? && s.questions[q].task.value in s.manager.log
    ensures s.questions[q].text.Some? && s.questions[q].text.value.Written?
    ensures G.Decision(S.Extracted(s.questions[q].text.value.text)) == G.Accepted(sql)
    ensures E.Checked(sql) == Some(sql)
    ensures answers(sql, StatusIn(JudgesOver(answers), s.questions[q]).outcome.result)
  {
    CompletedServed(answers, s, q);
    var reply := s.questions[q].text.value;
    sql := SqlOf(reply);
    E.LayersAgree(S.Extracted(reply.text));
  }

  lemma {:induction false} CompletedServed(answers: (string, Bounded) -> bool, s: System, q: nat)
    requires Reached(JudgesOver(answers), s) && q < |s.questions|
    requires Completes(StatusIn(JudgesOver(answers), s.questions[q]))
    ensures s.questions[q].task.Some? && s.questions[q].task.value in s.manager.log
    ensures s.questions[q].text.Some? && AfterSql(s.questions[q].text.value).WaitTool?
    ensures answers(AfterSql(s.questions[q].text.value).sql, StatusIn(JudgesOver(answers), s.questions[q]).outcome.result)
  {
    JudgesSensible(answers);
    CompletedCalled(JudgesOver(answers), s, q);
  }

  /** Every question the pipeline has open comes to its outcome. */
  lemma {:induction false} EveryQuestionSettled(answers: (string, Bounded) -> bool, s: System) returns (es: seq<Event>)
    requires Reached(JudgesOver(answers), s)
    ensures NoAsk(es) && |es| <= SystemRank(JudgesOver(answers), s)
    ensures Run(JudgesOver(answers), s, es).Some? && AllFinished(JudgesOver(answers), Run(JudgesOver(answers), s, es).value)
  {
    JudgesSensible(answers);
    es := EveryQuestionFinishes(JudgesOver(answers), s);
    QuestionsEnd(JudgesOver(answers), s, es);
  }

  lemma {:induction false} SqlOf(r: SqlReply) returns (sql: string)
    requires AfterSql(r).WaitTool?
    ensures r.Written? && AfterSql(r) == WaitTool(sql) && G.Decision(S.Extracted(r.text)) == G.Accepted(sql)
  {
    sql := AfterSql(r).sql;
  }
}
