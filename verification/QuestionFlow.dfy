/** Any number of questions in flight (`agent_service.py`), over any way of judging the
    model's replies: each question asks the model up to three times and then, at most once,
    the MCP manager. */
module QuestionFlow {
  import opened Text
  import Sql
  import M = ClientManager
  import P = Plan

  // ------------------------------------------------------------------ replies

  /** What the intent step brings: the provider is down, the contract is violated, something
      unforeseen is raised, or an intent that asks for clarification or is within scope. */
  datatype IntentReply = NoIntent | BadIntent | CrashedIntent | Intent(clarify: bool, inScope: bool)

  datatype PlanReply = NoPlan | BadPlan | CrashedPlan | Planned(plan: P.QueryPlan)

  datatype SqlReply = NoSql | CrashedSql | Written(text: string)

  /** What an MCP result that honours its contract holds. */
  datatype Bounded = Bounded(columns: seq<string>, rows: seq<seq<Sql.Value>>, rowCount: nat, truncated: bool)

  /** How the MCP step ends: the manager's outcome, and the result if it honours its contract. */
  datatype ToolReply = ToolReply(outcome: M.Outcome, result: Option<Bounded>)

  datatype RejectedCode = IntentContractViolation | MetadataNotFound | QueryPlanInvalid | SqlRejected

  datatype FailedCode = LlmUnavailable | McpExecutionFailed | InternalError

  datatype Outcome =
    | Completed(result: Bounded)
    | ClarificationRequired
    | Rejected(code: RejectedCode)
    | Failed(failure: FailedCode)
    | Aborted

  datatype Status = WaitIntent | WaitPlan | WaitSql | WaitTool(sql: string) | Finished(outcome: Outcome)

  /** What each model reply leads to, and what the MCP server may answer to a statement. */
  datatype Judges = Judges(
    intent: IntentReply -> Status, plan: PlanReply -> Status, sql: SqlReply -> Status,
    answers: (string, Bounded) -> bool)

  function AfterTool(r: ToolReply): Outcome {
    match r.outcome
    case Unavailable => Failed(McpExecutionFailed)
    case Cancelled => Aborted
    case Ended(e) =>
      if e.OtherError? then Failed(InternalError)
      else if e.Replied? && r.result.Some? then Completed(r.result.value)
      else Failed(McpExecutionFailed)
  }

  /** Where a question stands, given the replies so far. */
  function StatusOf(j: Judges, i: Option<IntentReply>, p: Option<PlanReply>, t: Option<SqlReply>, m: Option<ToolReply>): Status {
    if i.None? then WaitIntent
    else if j.intent(i.value) != WaitPlan then j.intent(i.value)
    else if p.None? then WaitPlan
    else if j.plan(p.value) != WaitSql then j.plan(p.value)
    else if t.None? then WaitSql
    else if !j.sql(t.value).WaitTool? || m.None? then j.sql(t.value)
    else Finished(AfterTool(m.value))
  }

  // ---------------------------------------------------------- many questions

  datatype Question = Question(
    intent: Option<IntentReply>, plan: Option<PlanReply>, text: Option<SqlReply>,
    task: Option<nat>, tool: Option<ToolReply>, aborted: bool)

  const NEW := Question(None, None, None, None, None, false)

  /** A question cancelled while it waits on the model has no more replies to come. */
  function StatusIn(j: Judges, q: Question): Status {
    if q.aborted then Finished(Aborted) else StatusOf(j, q.intent, q.plan, q.text, q.tool)
  }

  datatype System = System(questions: seq<Question>, manager: M.State)

  const IDLE := System([], M.START)

  datatype Event =
    | Ask
    | OnIntent(q: nat, intent: IntentReply)
    | OnPlan(q: nat, plan: PlanReply)
    | OnSql(q: nat, text: SqlReply)
    | Abort(q: nat)
    | OnManager(step: M.Step)
    | OnResult(q: nat, result: Option<Bounded>)

  predicate WaitsOnModel(st: Status) { st.WaitIntent? || st.WaitPlan? || st.WaitSql? }

  /** A question may be cancelled wherever it waits: on the model by Abort, on the manager by a
      cancellation of its task. */
  predicate Possible(j: Judges, s: System, e: Event) {
    match e
    case Ask => true
    case OnIntent(q, _) => q < |s.questions| && StatusIn(j, s.questions[q]) == WaitIntent
    case OnPlan(q, _) => q < |s.questions| && StatusIn(j, s.questions[q]) == WaitPlan
    case OnSql(q, _) => q < |s.questions| && StatusIn(j, s.questions[q]) == WaitSql
    case Abort(q) => q < |s.questions| && WaitsOnModel(StatusIn(j, s.questions[q]))
    case OnManager(step) => !step.Spawn? && M.Enabled(s.manager, step)
    case OnResult(q, result) =>
      && q < |s.questions| && StatusIn(j, s.questions[q]).WaitTool? && s.questions[q].task.Some?
      && s.questions[q].task.value < |s.manager.pcs| && s.manager.pcs[s.questions[q].task.value].Done?
      && (result.Some? ==> j.answers(StatusIn(j, s.questions[q]).sql, result.value))
  }

  function Updated(s: System, q: nat, x: Question): System
    requires q < |s.questions|
  {
    s.(questions := s.questions[q := x])
  }

  function Next(j: Judges, s: System, e: Event): System
    requires Possible(j, s, e)
  {
    match e
    case Ask => s.(questions := s.questions + [NEW])
    case OnIntent(q, r) => Updated(s, q, s.questions[q].(intent := Some(r)))
    case OnPlan(q, r) => Updated(s, q, s.questions[q].(plan := Some(r)))
    case OnSql(q, r) =>
      if j.sql(r).WaitTool? then
        // the accepted statement goes to the manager as a new task
        Updated(s, q, s.questions[q].(text := Some(r), task := Some(|s.manager.pcs|)))
          .(manager := M.Apply(s.manager, M.Spawn))
      else Updated(s, q, s.questions[q].(text := Some(r)))
    case Abort(q) => Updated(s, q, s.questions[q].(aborted := true))
    case OnManager(step) => s.(manager := M.Apply(s.manager, step))
    case OnResult(q, result) =>
      Updated(s, q, s.questions[q].(tool := Some(ToolReply(s.manager.pcs[s.questions[q].task.value].outcome, result))))
  }

  function Run(j: Judges, s: System, es: seq<Event>): Option<System>
    decreases |es|
  {
    if es == [] then Some(s) else if Possible(j, s, es[0]) then Run(j, Next(j, s, es[0]), es[1..]) else None
  }

  // -------------------------------------------------------------- invariants

  /** Judges never send a question back or ahead. */
  ghost predicate Sensible(j: Judges) {
    && (forall r :: j.intent(r).WaitPlan? || j.intent(r).Finished?)
    && (forall r :: j.plan(r).WaitSql? || j.plan(r).Finished?)
    && (forall r :: j.sql(r).WaitTool? || j.sql(r).Finished?)
  }

  /** A question's fields follow the order of the steps. */
  predicate InOrder(j: Judges, q: Question) {
    && (q.plan.Some? ==> q.intent.Some? && j.intent(q.intent.value) == WaitPlan)
    && (q.text.Some? ==> q.plan.Some? && j.plan(q.plan.value) == WaitSql)
    && (q.task.Some? <==> q.text.Some? && j.sql(q.text.value).WaitTool?)
    && (q.tool.Some? ==> q.task.Some?)
    && (q.tool.Some? && q.tool.value.result.Some? ==>
          j.answers(j.sql(q.text.value).sql, q.tool.value.result.value))
  }

  predicate AllInOrder(j: Judges, qs: seq<Question>) { forall k :: 0 <= k < |qs| ==> InOrder(j, qs[k]) }

  predicate TaskOf(q: Question, t: nat) { q.task == Some(t) }

  predicate Owned(qs: seq<Question>, t: nat) { exists k :: 0 <= k < |qs| && TaskOf(qs[k], t) }

  predicate ResultFits(q: Question, pcs: seq<M.Pc>) {
    && (q.task.Some? ==> q.task.value < |pcs|)
    && (q.task.Some? && q.tool.Some? ==> pcs[q.task.value] == M.Done(q.tool.value.outcome))
  }

  /** Tasks and questions belong together one to one, and a result is the task's own. */
  predicate Linked(qs: seq<Question>, pcs: seq<M.Pc>) {
    && (forall k :: 0 <= k < |qs| ==> ResultFits(qs[k], pcs))
    && (forall a, b :: 0 <= a < b < |qs| && qs[a].task.Some? ==> qs[a].task != qs[b].task)
    && (forall t :: 0 <= t < |pcs| ==> Owned(qs, t))
  }

  ghost predicate Inv(j: Judges, s: System) {
    Sensible(j) && AllInOrder(j, s.questions) && Linked(s.questions, s.manager.pcs) && M.Reachable(s.manager)
  }

  lemma {:induction false} ManagerReaches(m: M.State, step: M.Step)
    requires M.Reachable(m) && M.Enabled(m, step)
    ensures M.Reachable(M.Apply(m, step))
  {
    var before :| M.Run(M.START, before) == Some(m);
    M.RunThen(M.START, before, step);
  }

  /** Done tasks stay as they are, and no step but Spawn adds a task. */
  lemma {:induction false} DoneStays(m: M.State, step: M.Step)
    requires M.Enabled(m, step)
    ensures |M.Apply(m, step).pcs| == |m.pcs| + (if step.Spawn? then 1 else 0)
    ensures forall t :: 0 <= t < |m.pcs| && m.pcs[t].Done? ==> M.Apply(m, step).pcs[t] == m.pcs[t]
  {
  }

  lemma {:induction false} Replaced(qs: seq<Question>, pcs: seq<M.Pc>, q: nat, x: Question)
    requires Linked(qs, pcs) && q < |qs| && x.task == qs[q].task && ResultFits(x, pcs)
    ensures Linked(qs[q := x], pcs)
  {
    var n := qs[q := x];
    forall t | 0 <= t < |pcs| ensures Owned(n, t) {
      assert Owned(qs, t);
      var k :| 0 <= k < |qs| && TaskOf(qs[k], t);
      assert TaskOf(n[k], t);
    }
  }

  lemma {:induction false} Added(qs: seq<Question>, pcs: seq<M.Pc>)
    requires Linked(qs, pcs)
    ensures Linked(qs + [NEW], pcs)
  {
    var n := qs + [NEW];
    forall t | 0 <= t < |pcs| ensures Owned(n, t) {
      assert Owned(qs, t);
      var k :| 0 <= k < |qs| && TaskOf(qs[k], t);
      assert TaskOf(n[k], t);
    }
  }

  lemma {:induction false} SentOne(qs: seq<Question>, pcs: seq<M.Pc>, q: nat, x: Question)
    requires Linked(qs, pcs) && q < |qs| && qs[q].task.None? && x.task == Some(|pcs|) && x.tool.None?
    ensures Linked(qs[q := x], pcs + [M.Ready])
  {
    var n := qs[q := x];
    forall t | 0 <= t < |pcs| + 1 ensures Owned(n, t) {
      if t == |pcs| {
        assert TaskOf(n[q], t);
      } else {
        assert Owned(qs, t);
        var k :| 0 <= k < |qs| && TaskOf(qs[k], t);
        assert TaskOf(n[k], t);
      }
    }
  }

  lemma {:induction false} ManagerMoved(qs: seq<Question>, m: M.State, step: M.Step)
    requires Linked(qs, m.pcs) && M.Enabled(m, step) && !step.Spawn?
    ensures Linked(qs, M.Apply(m, step).pcs)
  {
    DoneStays(m, step);
  }

  lemma {:induction false} OrderKept(j: Judges, s: System, e: Event)
    requires Inv(j, s) && Possible(j, s, e)
    ensures AllInOrder(j, Next(j, s, e).questions)
  {
  }

  lemma {:induction false} LinksKept(j: Judges, s: System, e: Event)
    requires Inv(j, s) && Possible(j, s, e)
    ensures Linked(Next(j, s, e).questions, Next(j, s, e).manager.pcs)
  {
    match e {
      case Ask => Added(s.questions, s.manager.pcs);
      case OnManager(step) => ManagerMoved(s.questions, s.manager, step);
      case OnSql(q, r) =>
        if j.sql(r).WaitTool? { SentOne(s.questions, s.manager.pcs, q, Next(j, s, e).questions[q]); }
        else { Replaced(s.questions, s.manager.pcs, q, Next(j, s, e).questions[q]); }
      case _ => Replaced(s.questions, s.manager.pcs, e.q, Next(j, s, e).questions[e.q]);
    }
  }

  lemma {:induction false} NextKept(j: Judges, s: System, e: Event)
    requires Inv(j, s) && Possible(j, s, e)
    ensures Inv(j, Next(j, s, e))
  {
    OrderKept(j, s, e);
    LinksKept(j, s, e);
    if e.OnManager? { ManagerReaches(s.manager, e.step); }
    if e.OnSql? { ManagerReaches(s.manager, M.Spawn); }
  }

  lemma {:induction false} RunKept(j: Judges, s: System, es: seq<Event>)
    requires Inv(j, s) && Run(j, s, es).Some?
    ensures Inv(j, Run(j, s, es).value)
    decreases |es|
  {
    if es != [] {
      NextKept(j, s, es[0]);
      RunKept(j, Next(j, s, es[0]), es[1..]);
    }
  }

  ghost predicate Reached(j: Judges, s: System) { exists es :: Run(j, IDLE, es) == Some(s) }

  lemma {:induction false} IdleInv(j: Judges)
    requires Sensible(j)
    ensures Inv(j, IDLE)
  {
    assert M.Run(M.START, []) == Some(M.START);
  }

  lemma {:induction false} ReachedInv(j: Judges, s: System)
    requires Sensible(j) && Reached(j, s)
    ensures Inv(j, s)
  {
    IdleInv(j);
    var es :| Run(j, IDLE, es) == Some(s);
    RunKept(j, IDLE, es);
  }

  // -------------------------------------------------------------- guarantees

  /** Once a question has its outcome, nothing touches it any more. */
  lemma {:induction false} OneOutcome(j: Judges, s: System, q: nat, es: seq<Event>)
    requires q < |s.questions| && StatusIn(j, s.questions[q]).Finished? && Run(j, s, es).Some?
    ensures q < |Run(j, s, es).value.questions| && Run(j, s, es).value.questions[q] == s.questions[q]
    decreases |es|
  {
    if es != [] { OneOutcome(j, Next(j, s, es[0]), q, es[1..]); }
  }

  predicate Asks(e: Event, q: nat) { (e.OnIntent? || e.OnPlan? || e.OnSql?) && e.q == q }

  /** The model calls made for a question in a run. */
  function ModelCalls(es: seq<Event>, q: nat): nat {
    if es == [] then 0 else (if Asks(es[0], q) then 1 else 0) + ModelCalls(es[1..], q)
  }

  function Answers(q: Question): nat {
    (if q.intent.Some? then 1 else 0) + (if q.plan.Some? then 1 else 0) + (if q.text.Some? then 1 else 0)
  }

  function AnswersIn(s: System, q: nat): nat { if q < |s.questions| then Answers(s.questions[q]) else 0 }

  /** Every model call brings an answer that was not there before. */
  lemma {:induction false} CallAnswered(j: Judges, s: System, e: Event, q: nat)
    requires Inv(j, s) && Possible(j, s, e)
    ensures AnswersIn(Next(j, s, e), q) == AnswersIn(s, q) + (if Asks(e, q) then 1 else 0)
  {
    if q < |s.questions| { assert InOrder(j, s.questions[q]); }
  }

  lemma {:induction false} CallsAnswered(j: Judges, s: System, es: seq<Event>, q: nat)
    requires Inv(j, s) && Run(j, s, es).Some?
    ensures AnswersIn(Run(j, s, es).value, q) == AnswersIn(s, q) + ModelCalls(es, q)
    decreases |es|
  {
    if es != [] {
      NextKept(j, s, es[0]);
      CallAnswered(j, s, es[0], q);
      CallsAnswered(j, Next(j, s, es[0]), es[1..], q);
    }
  }

  /** In every run each question makes at most three model calls. */
  lemma {:induction false} ThreeModelCalls(j: Judges, es: seq<Event>, q: nat)
    requires Sensible(j) && Run(j, IDLE, es).Some?
    ensures ModelCalls(es, q) <= 3
  {
    IdleInv(j);
    CallsAnswered(j, IDLE, es, q);
  }

  /** Each session call belongs to exactly one question, which was judged fit for it, and no
      question is called for twice. */
  lemma {:induction false} CallsJudged(j: Judges, s: System, n: nat) returns (q: nat)
    requires Sensible(j) && Reached(j, s) && n < |s.manager.log|
    ensures q < |s.questions| && TaskOf(s.questions[q], s.manager.log[n])
    ensures s.questions[q].text.Some? && j.sql(s.questions[q].text.value).WaitTool?
    ensures forall m :: 0 <= m < |s.manager.log| && m != n ==> !TaskOf(s.questions[q], s.manager.log[m])
  {
    ReachedInv(j, s);
    M.CalledOnce(s.manager);
    var t := s.manager.log[n];
    assert t in s.manager.log;
    assert Owned(s.questions, t);
    q :| 0 <= q < |s.questions| && TaskOf(s.questions[q], t);
    assert InOrder(j, s.questions[q]);
  }

  /** Outcomes that come before the MCP step. */
  predicate NoCall(o: Outcome) {
    o.Rejected? || o.ClarificationRequired? || o == Failed(LlmUnavailable)
  }

  lemma {:induction false} ToolOutcomes(r: ToolReply)
    ensures !NoCall(AfterTool(r))
    ensures AfterTool(r).Completed? ==> r.outcome == M.Ended(M.Replied) && r.result == Some(AfterTool(r).result)
  {
  }

  /** A question settled without the manager made no session call. */
  lemma {:induction false} NoCallMade(j: Judges, s: System, q: nat)
    requires Sensible(j) && Reached(j, s) && q < |s.questions|
    requires StatusIn(j, s.questions[q]).Finished? && NoCall(StatusIn(j, s.questions[q]).outcome)
    ensures forall t <- s.manager.log :: !TaskOf(s.questions[q], t)
  {
    ReachedInv(j, s);
    assert InOrder(j, s.questions[q]);
    if s.questions[q].tool.Some? { ToolOutcomes(s.questions[q].tool.value); }
  }

  predicate Completes(st: Status) { st.Finished? && st.outcome.Completed? }

  ghost predicate OnlyToolCompletes(j: Judges) {
    && (forall r :: !Completes(j.intent(r)))
    && (forall r :: !Completes(j.plan(r)))
    && (forall r :: !Completes(j.sql(r)))
  }

  /** A completed question was answered through its own session call. */
  lemma {:induction false} CompletedCalled(j: Judges, s: System, q: nat)
    requires Sensible(j) && OnlyToolCompletes(j) && Reached(j, s) && q < |s.questions|
    requires Completes(StatusIn(j, s.questions[q]))
    ensures s.questions[q].task.Some? && s.questions[q].task.value in s.manager.log
    ensures s.questions[q].text.Some? && j.sql(s.questions[q].text.value).WaitTool?
    ensures j.answers(j.sql(s.questions[q].text.value).sql, StatusIn(j, s.questions[q]).outcome.result)
  {
    var x := s.questions[q];
    ReachedInv(j, s);
    assert InOrder(j, x);
    assert x.tool.Some?;
    ToolOutcomes(x.tool.value);
    assert ResultFits(x, s.manager.pcs);
    M.CalledOnce(s.manager);
  }

  // ----------------------------------------------------------- after the latch

  lemma {:induction false} LogFrozen(j: Judges, s: System, es: seq<Event>)
    requires Inv(j, s) && s.manager.latch && Run(j, s, es).Some?
    ensures Run(j, s, es).value.manager.log == s.manager.log
    decreases |es|
  {
    if es != [] {
      M.ReachableInv(s.manager);
      if es[0].OnManager? { M.LatchStep(s.manager, es[0].step); }
      NextKept(j, s, es[0]);
      LogFrozen(j, Next(j, s, es[0]), es[1..]);
    }
  }

  lemma {:induction false} RunJoined(j: Judges, s: System, es: seq<Event>, fs: seq<Event>)
    requires Run(j, s, es).Some?
    ensures Run(j, s, es + fs) == Run(j, Run(j, s, es).value, fs)
    decreases |es|
  {
    if es == [] { assert es + fs == fs; }
    else {
      assert (es + fs)[1..] == es[1..] + fs;
      RunJoined(j, Next(j, s, es[0]), es[1..], fs);
    }
  }

  /** The task a question gets is a new one, and it keeps it. */
  lemma {:induction false} TaskLater(j: Judges, s: System, es: seq<Event>, q: nat, bound: nat)
    requires Inv(j, s) && Run(j, s, es).Some? && q < |s.questions| && bound <= |s.manager.pcs|
    requires s.questions[q].task.Some? ==> s.questions[q].task.value >= bound
    ensures q < |Run(j, s, es).value.questions|
    ensures Run(j, s, es).value.questions[q].task.Some? ==> Run(j, s, es).value.questions[q].task.value >= bound
    decreases |es|
  {
    if es != [] {
      NextKept(j, s, es[0]);
      TaskStep(j, s, es[0], q, bound);
      TaskLater(j, Next(j, s, es[0]), es[1..], q, bound);
    }
  }

  lemma {:induction false} TaskStep(j: Judges, s: System, e: Event, q: nat, bound: nat)
    requires Possible(j, s, e) && q < |s.questions| && bound <= |s.manager.pcs|
    requires s.questions[q].task.Some? ==> s.questions[q].task.value >= bound
    ensures q < |Next(j, s, e).questions| && bound <= |Next(j, s, e).manager.pcs|
    ensures Next(j, s, e).questions[q].task.Some? ==> Next(j, s, e).questions[q].task.value >= bound
  {
    if e.OnManager? { DoneStays(s.manager, e.step); }
  }

  /** A question that reaches the MCP step after the latch was set never completes. */
  lemma {:induction false} NothingCompletesAfterLatch(j: Judges, s: System, es: seq<Event>, q: nat)
    requires Sensible(j) && OnlyToolCompletes(j)
    requires Reached(j, s) && s.manager.latch && Run(j, s, es).Some?
    requires q < |s.questions| && s.questions[q].task.None?
    ensures q < |Run(j, s, es).value.questions|
    ensures !Completes(StatusIn(j, Run(j, s, es).value.questions[q]))
  {
    var n := Run(j, s, es).value;
    var before :| Run(j, IDLE, before) == Some(s);
    RunJoined(j, IDLE, before, es);
    assert Run(j, IDLE, before + es) == Some(n);
    ReachedInv(j, s);
    LogFrozen(j, s, es);
    TaskLater(j, s, es, q, |s.manager.pcs|);
    M.CalledOnce(s.manager);
    if Completes(StatusIn(j, n.questions[q])) { CompletedCalled(j, n, q); }
  }

  // ------------------------------------------------------------------ progress

  function QuestionRank(st: Status): nat {
    match st
    case WaitIntent => 9 case WaitPlan => 8 case WaitSql => 7 case WaitTool(_) => 1 case Finished(_) => 0
  }

  function RankQuestions(j: Judges, qs: seq<Question>): nat {
    if qs == [] then 0 else QuestionRank(StatusIn(j, qs[0])) + RankQuestions(j, qs[1..])
  }

  /** How far the questions, and the manager's tasks, are from being done. */
  function SystemRank(j: Judges, s: System): nat { RankQuestions(j, s.questions) + M.RankAll(s.manager.pcs) }

  lemma {:induction false} RankReplaced(j: Judges, qs: seq<Question>, q: nat, x: Question)
    requires q < |qs|
    ensures RankQuestions(j, qs[q := x])
         == RankQuestions(j, qs) - QuestionRank(StatusIn(j, qs[q])) + QuestionRank(StatusIn(j, x))
  {
    var n := qs[q := x];
    if q == 0 { assert n[1..] == qs[1..]; }
    else {
      assert n[1..] == qs[1..][q - 1 := x];
      RankReplaced(j, qs[1..], q - 1, x);
    }
  }

  lemma {:induction false} RankSpawned(pcs: seq<M.Pc>)
    ensures M.RankAll(pcs + [M.Ready]) == M.RankAll(pcs) + M.Rank(M.Ready)
  {
    if pcs == [] { assert [M.Ready][1..] == []; assert pcs + [M.Ready] == [M.Ready]; }
    else {
      assert (pcs + [M.Ready])[1..] == pcs[1..] + [M.Ready];
      RankSpawned(pcs[1..]);
    }
  }

  /** An answer moves its question on. */
  lemma {:induction false} AnswerMoves(j: Judges, s: System, e: Event)
    requires Inv(j, s) && Possible(j, s, e) && (e.OnIntent? || e.OnPlan? || e.OnSql? || e.Abort? || e.OnResult?)
    ensures
      var before, after := QuestionRank(StatusIn(j, s.questions[e.q])), QuestionRank(StatusIn(j, Next(j, s, e).questions[e.q]));
      after + (if Next(j, s, e).manager == s.manager then 0 else M.Rank(M.Ready)) < before
  {
    assert InOrder(j, s.questions[e.q]);
  }

  /** Every event but a new question brings the system closer to rest. */
  lemma {:induction false} EventDescends(j: Judges, s: System, e: Event)
    requires Inv(j, s) && Possible(j, s, e) && !e.Ask?
    ensures SystemRank(j, Next(j, s, e)) < SystemRank(j, s)
  {
    if e.OnManager? {
      M.StepDescends(s.manager, e.step);
    } else {
      var n := Next(j, s, e);
      AnswerMoves(j, s, e);
      RankReplaced(j, s.questions, e.q, n.questions[e.q]);
      assert n.questions == s.questions[e.q := n.questions[e.q]];
      RankSpawned(s.manager.pcs);
    }
  }

  predicate NoAsk(es: seq<Event>) { forall e <- es :: !e.Ask? }

  lemma {:induction false} RankBounds(j: Judges, s: System, es: seq<Event>)
    requires Inv(j, s) && NoAsk(es) && Run(j, s, es).Some?
    ensures |es| + SystemRank(j, Run(j, s, es).value) <= SystemRank(j, s)
    decreases |es|
  {
    if es != [] {
      assert es[0] in es;
      assert forall e <- es[1..] :: e in es;
      EventDescends(j, s, es[0]);
      NextKept(j, s, es[0]);
      RankBounds(j, Next(j, s, es[0]), es[1..]);
    }
  }

  /** Without new questions every run is bounded, whatever is answered, raised or cancelled. */
  lemma {:induction false} QuestionsEnd(j: Judges, s: System, es: seq<Event>)
    requires Sensible(j) && Reached(j, s) && NoAsk(es) && Run(j, s, es).Some?
    ensures |es| + SystemRank(j, Run(j, s, es).value) <= SystemRank(j, s)
  {
    ReachedInv(j, s);
    RankBounds(j, s, es);
  }

  predicate AllFinished(j: Judges, s: System) {
    forall q :: 0 <= q < |s.questions| ==> StatusIn(j, s.questions[q]).Finished?
  }

  predicate Cancels(e: Event) { e.Abort? || (e.OnManager? && e.step.Cancel?) }

  lemma {:induction false} SomethingPossible(j: Judges, s: System) returns (e: Event)
    requires Inv(j, s) && !AllFinished(j, s)
    ensures Possible(j, s, e) && !e.Ask? && !Cancels(e)
  {
    var q :| 0 <= q < |s.questions| && !StatusIn(j, s.questions[q]).Finished?;
    var x := s.questions[q];
    assert InOrder(j, x) && ResultFits(x, s.manager.pcs);
    match StatusIn(j, x)
    case WaitIntent => e := OnIntent(q, NoIntent);
    case WaitPlan => e := OnPlan(q, NoPlan);
    case WaitSql => e := OnSql(q, NoSql);
    case WaitTool(_) =>
      if s.manager.pcs[x.task.value].Done? {
        e := OnResult(q, None);
      } else {
        var step := M.NeverStuck(s.manager);
        e := OnManager(step);
      }
  }

  /** While a question is open, something other than a new question or a cancellation can happen. */
  lemma {:induction false} NeverStuck(j: Judges, s: System) returns (e: Event)
    requires Sensible(j) && Reached(j, s) && !AllFinished(j, s)
    ensures Possible(j, s, e) && !e.Ask? && !Cancels(e)
  {
    ReachedInv(j, s);
    e := SomethingPossible(j, s);
  }

  lemma {:induction false} FinishingRun(j: Judges, s: System) returns (es: seq<Event>)
    requires Inv(j, s)
    ensures NoAsk(es) && (forall e <- es :: !Cancels(e))
    ensures Run(j, s, es).Some? && AllFinished(j, Run(j, s, es).value)
    decreases SystemRank(j, s)
  {
    if AllFinished(j, s) {
      es := [];
    } else {
      var e := SomethingPossible(j, s);
      EventDescends(j, s, e);
      NextKept(j, s, e);
      var rest := FinishingRun(j, Next(j, s, e));
      es := [e] + rest;
      assert es[1..] == rest;
    }
  }

  /** From every state the system reaches, a run without new questions or cancellations gives
      every question its outcome. */
  lemma {:induction false} EveryQuestionFinishes(j: Judges, s: System) returns (es: seq<Event>)
    requires Sensible(j) && Reached(j, s)
    ensures NoAsk(es) && (forall e <- es :: !Cancels(e))
    ensures Run(j, s, es).Some? && AllFinished(j, Run(j, s, es).value)
  {
    ReachedInv(j, s);
    es := FinishingRun(j, s);
  }
}
