/** The MCP client manager (`client_manager.py`): any number of tasks share one session
    behind one lock and a latch that, once set, stays set. A step is what a task does
    between two points where another task may run; the lock may be handed to any waiter. */
module ClientManager {
  import opened Text

  /** How a session call ends, seen from `_call_tool`. */
  datatype End =
    | Replied
    | CallTimeout
    | ConnectionClosed
    | ProtocolError
    | OtherError

  /** What the session raises, or that it returns. */
  datatype Raised = NoError | TimedOut | McpFailure(closed: bool) | Transport | Unknown

  /** The order of the `except` clauses. */
  function Classify(r: Raised): End {
    match r
    case NoError => Replied
    case TimedOut => CallTimeout
    case McpFailure(closed) => if closed then ConnectionClosed else ProtocolError
    case Transport => ConnectionClosed
    case Unknown => OtherError
  }

  /** Ends that make the session unusable. */
  predicate Breaks(e: End) { e.CallTimeout? || e.ConnectionClosed? }

  datatype Outcome = Ended(end: End) | Unavailable | Cancelled

  datatype Pc =
    | Ready
    | Queued
    | Holding
    | Calling
    | Leaving(outcome: Outcome)
    | Done(outcome: Outcome)

  /** What would become of a caller if it reached the session. */
  datatype Fate = Ends(end: End) | CancelledInCall | CancelledBefore

  datatype Request = Request(task: nat, fate: Fate)

  /** `decided` records the order in which the callers' fates were settled. */
  datatype State = State(
    pcs: seq<Pc>,
    holder: Option<nat>,
    latch: bool,
    log: seq<nat>,
    decided: seq<Request>)

  const START := State([], None, false, [], [])

  datatype Step =
    | Spawn
    | FirstCheck(t: nat)
    | Acquire(t: nat)
    | SecondCheck(t: nat)
    | Return(t: nat, raised: Raised)
    | Release(t: nat)
    | Cancel(t: nat)

  predicate Enabled(s: State, step: Step) {
    match step
    case Spawn => true
    case FirstCheck(t) => t < |s.pcs| && s.pcs[t].Ready?
    case Acquire(t) => t < |s.pcs| && s.pcs[t].Queued? && s.holder.None?
    case SecondCheck(t) => t < |s.pcs| && s.pcs[t].Holding?
    case Return(t, _) => t < |s.pcs| && s.pcs[t].Calling?
    case Release(t) => t < |s.pcs| && s.pcs[t].Leaving?
    case Cancel(t) => t < |s.pcs| && !s.pcs[t].Leaving? && !s.pcs[t].Done?
  }

  function Moved(s: State, t: nat, pc: Pc): State
    requires t < |s.pcs|
  {
    s.(pcs := s.pcs[t := pc])
  }

  function Settled(s: State, t: nat, fate: Fate): State { s.(decided := s.decided + [Request(t, fate)]) }

  function Apply(s: State, step: Step): State
    requires Enabled(s, step)
  {
    match step
    case Spawn => s.(pcs := s.pcs + [Ready])
    case FirstCheck(t) =>
      if s.latch then Settled(Moved(s, t, Done(Unavailable)), t, Ends(Replied)) else Moved(s, t, Queued)
    case Acquire(t) => Moved(s, t, Holding).(holder := Some(t))
    case SecondCheck(t) =>
      if s.latch then Settled(Moved(s, t, Leaving(Unavailable)), t, Ends(Replied))
      else Moved(s, t, Calling).(log := s.log + [t])
    case Return(t, raised) =>
      var e := Classify(raised);
      Settled(Moved(s, t, Leaving(Ended(e))).(latch := s.latch || Breaks(e)), t, Ends(e))
    case Release(t) => Moved(s, t, Done(s.pcs[t].outcome)).(holder := None)
    case Cancel(t) =>
      match s.pcs[t]
      case Calling => Settled(Moved(s, t, Leaving(Cancelled)), t, CancelledInCall)
      case Holding => Settled(Moved(s, t, Leaving(Cancelled)), t, CancelledBefore)
      case _ => Settled(Moved(s, t, Done(Cancelled)), t, CancelledBefore)
  }

  /** The state after a run, if every step of it was possible. */
  function Run(s: State, steps: seq<Step>): Option<State>
    decreases |steps|
  {
    if steps == [] then Some(s)
    else if Enabled(s, steps[0]) then Run(Apply(s, steps[0]), steps[1..])
    else None
  }

  ghost predicate Reachable(s: State) { exists steps :: Run(START, steps) == Some(s) }

  // ------------------------------------------------- the sequential manager

  /** A manager that serves one caller at a time: lock, check, call. */
  datatype Manager = Manager(latch: bool, log: seq<nat>, outcomes: map<nat, Outcome>)

  const FRESH := Manager(false, [], map[])

  function Serve(m: Manager, r: Request): Manager {
    match r.fate
    case CancelledBefore => m.(outcomes := m.outcomes[r.task := Cancelled])
    case CancelledInCall =>
      if m.latch then m.(outcomes := m.outcomes[r.task := Unavailable])
      else m.(log := m.log + [r.task], outcomes := m.outcomes[r.task := Cancelled])
    case Ends(e) =>
      if m.latch then m.(outcomes := m.outcomes[r.task := Unavailable])
      else Manager(Breaks(e), m.log + [r.task], m.outcomes[r.task := Ended(e)])
  }

  function ServeAll(rs: seq<Request>): Manager {
    if rs == [] then FRESH else Serve(ServeAll(rs[..|rs| - 1]), rs[|rs| - 1])
  }

  lemma {:induction false} ServeMore(rs: seq<Request>, r: Request)
    ensures ServeAll(rs + [r]) == Serve(ServeAll(rs), r)
  {
    assert (rs + [r])[..|rs|] == rs;
  }

  // ------------------------------------------------------------- invariants

  predicate Critical(pc: Pc) { pc.Holding? || pc.Calling? || pc.Leaving? }

  /** The lock's holder is the one task between acquiring and releasing it. */
  predicate LockInv(s: State) {
    && (forall t :: 0 <= t < |s.pcs| ==> (Critical(s.pcs[t]) <==> s.holder == Some(t)))
    && (s.holder.Some? ==> s.holder.value < |s.pcs|)
  }

  predicate Settles(pc: Pc) { pc.Leaving? || pc.Done? }

  /** A call in flight. */
  function InFlight(s: State): seq<nat> {
    if s.holder.Some? && s.holder.value < |s.pcs| && s.pcs[s.holder.value].Calling? then [s.holder.value] else []
  }

  predicate CallingUnlatched(s: State) {
    forall t :: 0 <= t < |s.pcs| && s.pcs[t].Calling? ==> !s.latch
  }

  /** The sequential manager, given the callers in the order their fates were settled, has
      the same latch, the same log but for a call in flight, and the same outcomes. */
  ghost predicate Agrees(s: State) {
    var m := ServeAll(s.decided);
    && m.latch == s.latch && s.log == m.log + InFlight(s)
    && (forall t :: 0 <= t < |s.pcs| ==> (t in m.outcomes <==> Settles(s.pcs[t])))
    && (forall t :: 0 <= t < |s.pcs| && Settles(s.pcs[t]) ==> m.outcomes[t] == s.pcs[t].outcome)
    && (forall t :: t in m.outcomes ==> t < |s.pcs|)
  }

  predicate DistinctTasks(rs: seq<Request>) {
    forall a, b :: 0 <= a < b < |rs| ==> rs[a].task != rs[b].task
  }

  ghost predicate Inv(s: State) { LockInv(s) && CallingUnlatched(s) && Agrees(s) && DistinctTasks(s.decided) }

  lemma {:induction false} LockKept(s: State, step: Step)
    requires Enabled(s, step) && LockInv(s) && CallingUnlatched(s)
    ensures LockInv(Apply(s, step)) && CallingUnlatched(Apply(s, step))
  {
  }

  /** A step that settles nobody. */
  predicate Quiet(s: State, step: Step)
    requires Enabled(s, step)
  {
    Apply(s, step).decided == s.decided
  }

  lemma {:induction false} QuietKept(s: State, step: Step)
    requires Enabled(s, step) && Inv(s) && Quiet(s, step)
    ensures Agrees(Apply(s, step))
  {
    LockKept(s, step);
  }

  /** Settling a caller as the sequential manager settles it keeps the agreement. */
  lemma {:induction false} SettleAgrees(s: State, n: State, r: Request, pc: Pc)
    requires Agrees(s) && r.task < |s.pcs| && !Settles(s.pcs[r.task]) && Settles(pc)
    requires n.pcs == s.pcs[r.task := pc] && n.decided == s.decided + [r]
    requires Serve(ServeAll(s.decided), r).outcomes == ServeAll(s.decided).outcomes[r.task := pc.outcome]
    requires n.latch == Serve(ServeAll(s.decided), r).latch
    requires n.log == Serve(ServeAll(s.decided), r).log + InFlight(n)
    ensures Agrees(n)
  {
    ServeMore(s.decided, r);
  }

  lemma {:induction false} CheckKept(s: State, step: Step)
    requires Enabled(s, step) && Inv(s) && s.latch && (step.FirstCheck? || step.SecondCheck?)
    ensures Agrees(Apply(s, step))
  {
    var n := Apply(s, step);
    assert InFlight(s) == [] && InFlight(n) == [];
    SettleAgrees(s, n, Request(step.t, Ends(Replied)), n.pcs[step.t]);
  }

  lemma {:induction false} ReturnKept(s: State, step: Step)
    requires Enabled(s, step) && Inv(s) && step.Return?
    ensures Agrees(Apply(s, step))
  {
    var n := Apply(s, step);
    assert InFlight(s) == [step.t] && InFlight(n) == [];
    SettleAgrees(s, n, Request(step.t, Ends(Classify(step.raised))), n.pcs[step.t]);
  }

  lemma {:induction false} CancelFlight(s: State, step: Step)
    requires Enabled(s, step) && Inv(s) && step.Cancel?
    ensures InFlight(Apply(s, step)) == if s.pcs[step.t].Calling? then [] else InFlight(s)
    ensures s.pcs[step.t].Calling? ==> InFlight(s) == [step.t]
  {
  }

  lemma {:induction false} CancelKept(s: State, step: Step)
    requires Enabled(s, step) && Inv(s) && step.Cancel?
    ensures Agrees(Apply(s, step))
  {
    if s.pcs[step.t].Calling? { CancelCalling(s, step); } else { CancelEarly(s, step); }
  }

  lemma {:induction false} CancelCalling(s: State, step: Step)
    requires Enabled(s, step) && Inv(s) && step.Cancel? && s.pcs[step.t].Calling?
    ensures Agrees(Apply(s, step))
  {
    var n, r := Apply(s, step), Request(step.t, CancelledInCall);
    CancelFlight(s, step);
    CancelServed(ServeAll(s.decided), r);
    SettleAgrees(s, n, r, n.pcs[step.t]);
  }

  lemma {:induction false} CancelEarly(s: State, step: Step)
    requires Enabled(s, step) && Inv(s) && step.Cancel? && !s.pcs[step.t].Calling?
    ensures Agrees(Apply(s, step))
  {
    var n, r := Apply(s, step), Request(step.t, CancelledBefore);
    CancelFlight(s, step);
    CancelServed(ServeAll(s.decided), r);
    SettleAgrees(s, n, r, n.pcs[step.t]);
  }

  lemma {:induction false} CancelServed(m: Manager, r: Request)
    requires r.fate.CancelledBefore? || (r.fate.CancelledInCall? && !m.latch)
    ensures Serve(m, r) == Manager(
      m.latch, m.log + (if r.fate.CancelledInCall? then [r.task] else []), m.outcomes[r.task := Cancelled])
  {
  }

  lemma {:induction false} ServedTasks(rs: seq<Request>)
    ensures forall r <- rs :: r.task in ServeAll(rs).outcomes
  {
    if rs != [] {
      var n := |rs| - 1;
      ServedTasks(rs[..n]);
      assert rs == rs[..n] + [rs[n]];
    }
  }

  /** Nobody is settled twice. */
  lemma {:induction false} TasksKept(s: State, step: Step)
    requires Enabled(s, step) && Inv(s)
    ensures DistinctTasks(Apply(s, step).decided)
  {
    ServedTasks(s.decided);
    forall k | 0 <= k < |s.decided| ensures !step.Spawn? && Apply(s, step).decided != s.decided ==> s.decided[k].task != step.t {
      assert s.decided[k] in s.decided;
    }
  }

  lemma {:induction false} StepKept(s: State, step: Step)
    requires Enabled(s, step) && Inv(s)
    ensures Inv(Apply(s, step))
  {
    LockKept(s, step);
    TasksKept(s, step);
    match step
    case Return(_, _) => ReturnKept(s, step);
    case Cancel(_) => CancelKept(s, step);
    case FirstCheck(_) => if s.latch { CheckKept(s, step); } else { QuietKept(s, step); }
    case SecondCheck(_) => if s.latch { CheckKept(s, step); } else { QuietKept(s, step); }
    case _ => QuietKept(s, step);
  }

  lemma {:induction false} RunKept(s: State, steps: seq<Step>)
    requires Inv(s) && Run(s, steps).Some?
    ensures Inv(Run(s, steps).value)
    decreases |steps|
  {
    if steps != [] {
      StepKept(s, steps[0]);
      RunKept(Apply(s, steps[0]), steps[1..]);
    }
  }

  lemma {:induction false} ReachableInv(s: State)
    requires Reachable(s)
    ensures Inv(s)
  {
    var steps :| Run(START, steps) == Some(s);
    RunKept(START, steps);
  }

  // ------------------------------------------------------------ the guarantees

  /** At most one session call is in flight, and never once the latch is set. */
  lemma {:induction false} MutualExclusion(s: State, t: nat, u: nat)
    requires Reachable(s) && t < |s.pcs| && u < |s.pcs|
    requires s.pcs[t].Calling? && s.pcs[u].Calling?
    ensures t == u && !s.latch && s.holder == Some(t)
  {
    ReachableInv(s);
  }

  lemma {:induction false} LatchStep(s: State, step: Step)
    requires Inv(s) && Enabled(s, step) && s.latch
    ensures Apply(s, step).latch && Apply(s, step).log == s.log
  {
  }

  /** Once set, the latch stays set, and no caller reaches the session any more. */
  lemma {:induction false} NoCallsAfterLatch(s: State, steps: seq<Step>)
    requires Inv(s) && s.latch && Run(s, steps).Some?
    ensures Run(s, steps).value.latch && Run(s, steps).value.log == s.log
    decreases |steps|
  {
    if steps != [] {
      LatchStep(s, steps[0]);
      StepKept(s, steps[0]);
      NoCallsAfterLatch(Apply(s, steps[0]), steps[1..]);
    }
  }

  predicate Broke(o: Outcome) { o.Ended? && Breaks(o.end) }

  ghost predicate OneBreak(m: Manager) {
    && (m.latch <==> exists t :: t in m.outcomes && Broke(m.outcomes[t]))
    && (forall t :: t in m.outcomes && Broke(m.outcomes[t]) ==> m.log != [] && m.log[|m.log| - 1] == t)
  }

  lemma {:induction false} ServeBreak(m: Manager, r: Request)
    requires OneBreak(m) && r.task !in m.outcomes
    ensures OneBreak(Serve(m, r))
  {
    var n := Serve(m, r);
    assert forall t :: t in m.outcomes ==> t in n.outcomes && n.outcomes[t] == m.outcomes[t];
    assert r.task in n.outcomes;
  }

  lemma {:induction false} ServedOnly(rs: seq<Request>)
    ensures forall t :: t in ServeAll(rs).outcomes ==> exists r <- rs :: r.task == t
  {
    if rs != [] {
      var n := |rs| - 1;
      ServedOnly(rs[..n]);
      assert rs == rs[..n] + [rs[n]];
    }
  }

  /** In the sequential manager one call at most breaks the session, and it is the last. */
  lemma {:induction false} SequentialBreak(rs: seq<Request>)
    requires DistinctTasks(rs)
    ensures OneBreak(ServeAll(rs))
  {
    if rs != [] {
      var n := |rs| - 1;
      SequentialBreak(rs[..n]);
      ServedOnly(rs[..n]);
      ServeBreak(ServeAll(rs[..n]), rs[n]);
    }
  }

  predicate BrokeHere(pc: Pc) { (pc.Leaving? || pc.Done?) && Broke(pc.outcome) }

  /** In every run at most one caller ends with a timeout or a closed connection; its call
      is the last in the session log, and the latch is set exactly from then on. */
  lemma {:induction false} FailureBound(s: State)
    requires Reachable(s)
    ensures s.latch <==> exists t :: 0 <= t < |s.pcs| && BrokeHere(s.pcs[t])
    ensures forall t :: 0 <= t < |s.pcs| && BrokeHere(s.pcs[t]) ==> s.log != [] && s.log[|s.log| - 1] == t
    ensures forall t, u :: 0 <= t < |s.pcs| && 0 <= u < |s.pcs| && BrokeHere(s.pcs[t]) && BrokeHere(s.pcs[u]) ==> t == u
  {
    ReachableInv(s);
    SequentialBreak(s.decided);
    var m := ServeAll(s.decided);
    if s.latch {
      var t :| t in m.outcomes && Broke(m.outcomes[t]);
      assert BrokeHere(s.pcs[t]);
      assert s.log == m.log;
    }
    forall t | 0 <= t < |s.pcs| && BrokeHere(s.pcs[t]) ensures s.latch && t in m.outcomes && Broke(m.outcomes[t]) {
      assert t in m.outcomes && m.outcomes[t] == s.pcs[t].outcome;
    }
  }

  /** Refinement: the outcomes, the latch and the session log of any run are those of the
      sequential manager that serves the settled callers one by one, in the order in which
      they were settled; only a call still in flight is ahead of it. */
  lemma {:induction false} RefinesSequential(s: State)
    requires Reachable(s)
    ensures
      var m := ServeAll(s.decided);
      && DistinctTasks(s.decided)
      && m.latch == s.latch
      && s.log == m.log + InFlight(s)
      && (forall t :: 0 <= t < |s.pcs| && s.pcs[t].Done? ==> t in m.outcomes && m.outcomes[t] == s.pcs[t].outcome)
    ensures (forall t :: 0 <= t < |s.pcs| ==> s.pcs[t].Done?) ==> s.log == ServeAll(s.decided).log
  {
    ReachableInv(s);
  }

  ghost predicate CallsOnce(m: Manager) {
    && (forall a, b :: 0 <= a < b < |m.log| ==> m.log[a] != m.log[b])
    && (forall t <- m.log :: t in m.outcomes)
    && (forall t :: t in m.outcomes && m.outcomes[t].Ended? ==> t in m.log)
  }

  lemma {:induction false} ServeOnce(m: Manager, r: Request)
    requires CallsOnce(m) && r.task !in m.outcomes
    ensures CallsOnce(Serve(m, r))
  {
    var n := Serve(m, r);
    assert r.task !in m.log;
    if n.log != m.log { assert n.log == m.log + [r.task]; }
  }

  lemma {:induction false} SequentialOnce(rs: seq<Request>)
    requires DistinctTasks(rs)
    ensures CallsOnce(ServeAll(rs))
  {
    if rs != [] {
      var n := |rs| - 1;
      SequentialOnce(rs[..n]);
      ServedOnly(rs[..n]);
      ServeOnce(ServeAll(rs[..n]), rs[n]);
    }
  }

  /** No caller reaches the session twice, and whoever is answered has reached it. */
  lemma {:induction false} CalledOnce(s: State)
    requires Reachable(s)
    ensures forall a, b :: 0 <= a < b < |s.log| ==> s.log[a] != s.log[b]
    ensures forall t <- s.log :: t < |s.pcs|
    ensures forall t :: 0 <= t < |s.pcs| && (s.pcs[t].Leaving? || s.pcs[t].Done?) && s.pcs[t].outcome.Ended? ==> t in s.log
  {
    ReachableInv(s);
    SequentialOnce(s.decided);
    var m := ServeAll(s.decided);
    forall t | 0 <= t < |s.pcs| && (s.pcs[t].Leaving? || s.pcs[t].Done?) && s.pcs[t].outcome.Ended? ensures t in s.log {
      assert t in m.outcomes && m.outcomes[t].Ended?;
      assert t in m.log;
    }
    forall t | t in InFlight(s) ensures t !in m.log {
      assert !Settles(s.pcs[t]);
    }
  }

  /** The order is fixed as the run goes on: later steps only add to it. */
  lemma {:induction false} OrderGrows(s: State, steps: seq<Step>)
    requires Run(s, steps).Some?
    ensures s.decided <= Run(s, steps).value.decided
    decreases |steps|
  {
    if steps != [] { OrderGrows(Apply(s, steps[0]), steps[1..]); }
  }

  // ------------------------------------------------------------------ progress

  function Rank(pc: Pc): nat {
    match pc
    case Ready => 5 case Queued => 4 case Holding => 3 case Calling => 2 case Leaving(_) => 1 case Done(_) => 0
  }

  function RankAll(pcs: seq<Pc>): nat { if pcs == [] then 0 else Rank(pcs[0]) + RankAll(pcs[1..]) }

  lemma {:induction false} RankMoved(pcs: seq<Pc>, t: nat, pc: Pc)
    requires t < |pcs|
    ensures RankAll(pcs[t := pc]) == RankAll(pcs) - Rank(pcs[t]) + Rank(pc)
  {
    var n := pcs[t := pc];
    if t == 0 { assert n[1..] == pcs[1..]; }
    else {
      assert n[1..] == pcs[1..][t - 1 := pc];
      RankMoved(pcs[1..], t - 1, pc);
    }
  }

  /** Every step of a task brings the tasks closer to being done. */
  lemma {:induction false} StepDescends(s: State, step: Step)
    requires Enabled(s, step) && !step.Spawn?
    ensures RankAll(Apply(s, step).pcs) < RankAll(s.pcs)
  {
    RankMoved(s.pcs, step.t, Apply(s, step).pcs[step.t]);
    assert Apply(s, step).pcs == s.pcs[step.t := Apply(s, step).pcs[step.t]];
  }

  predicate AllDone(s: State) { forall t :: 0 <= t < |s.pcs| ==> s.pcs[t].Done? }

  /** As long as someone is not done, a step other than a cancellation is possible. */
  lemma {:induction false} NeverStuck(s: State) returns (step: Step)
    requires Reachable(s) && !AllDone(s)
    ensures Enabled(s, step) && !step.Spawn? && !step.Cancel?
  {
    ReachableInv(s);
    var t :| 0 <= t < |s.pcs| && !s.pcs[t].Done?;
    if s.holder.Some? {
      var h := s.holder.value;
      step := match s.pcs[h] case Holding => SecondCheck(h) case Calling => Return(h, NoError) case _ => Release(h);
    } else {
      step := if s.pcs[t].Ready? then FirstCheck(t) else Acquire(t);
    }
  }

  predicate NoSpawn(steps: seq<Step>) { forall x <- steps :: !x.Spawn? }

  /** Without new callers a run has no more steps than the tasks' rank allows. */
  lemma {:induction false} RunsEnd(s: State, steps: seq<Step>)
    requires NoSpawn(steps) && Run(s, steps).Some?
    ensures |steps| + RankAll(Run(s, steps).value.pcs) <= RankAll(s.pcs)
    decreases |steps|
  {
    if steps != [] {
      assert steps[0] in steps;
      assert forall x <- steps[1..] :: x in steps;
      StepDescends(s, steps[0]);
      RunsEnd(Apply(s, steps[0]), steps[1..]);
    }
  }

  lemma {:induction false} RunThen(s: State, steps: seq<Step>, step: Step)
    requires Run(s, steps).Some? && Enabled(Run(s, steps).value, step)
    ensures Run(s, steps + [step]) == Some(Apply(Run(s, steps).value, step))
    decreases |steps|
  {
    if steps == [] {
      assert [step][1..] == [];
      assert steps + [step] == [step];
    } else {
      assert (steps + [step])[1..] == steps[1..] + [step];
      RunThen(Apply(s, steps[0]), steps[1..], step);
    }
  }

  /** Every caller can finish: from any reachable state, a run without new callers or
      cancellations leads to all tasks done. */
  lemma {:induction false} EveryoneFinishes(s: State) returns (steps: seq<Step>)
    requires Reachable(s)
    ensures NoSpawn(steps) && (forall x <- steps :: !x.Cancel?)
    ensures Run(s, steps).Some? && AllDone(Run(s, steps).value)
    decreases RankAll(s.pcs)
  {
    if AllDone(s) {
      steps := [];
    } else {
      var step := NeverStuck(s);
      StepDescends(s, step);
      var before :| Run(START, before) == Some(s);
      RunThen(START, before, step);
      var rest := EveryoneFinishes(Apply(s, step));
      steps := [step] + rest;
      assert steps[1..] == rest;
    }
  }

  // ---------------------------------------------------------------- one caller

  lemma {:induction false} RunJoined(s: State, steps: seq<Step>, more: seq<Step>)
    requires Run(s, steps).Some?
    ensures Run(s, steps + more) == Run(Run(s, steps).value, more)
    decreases |steps|
  {
    if steps == [] { assert steps + more == more; }
    else {
      assert (steps + more)[1..] == steps[1..] + more;
      RunJoined(Apply(s, steps[0]), steps[1..], more);
    }
  }

  /** Steps of other tasks. */
  predicate ByOthers(steps: seq<Step>, t: nat) { forall x <- steps :: x.Spawn? || x.t != t }

  lemma {:induction false} OthersPass(s: State, steps: seq<Step>, t: nat)
    requires t < |s.pcs| && ByOthers(steps, t) && Run(s, steps).Some?
    ensures t < |Run(s, steps).value.pcs| && Run(s, steps).value.pcs[t] == s.pcs[t]
    decreases |steps|
  {
    if steps != [] {
      assert steps[0] in steps;
      assert forall x <- steps[1..] :: x in steps;
      OthersPass(Apply(s, steps[0]), steps[1..], t);
    }
  }

  /** What the others may do while a queued task waits for the lock: their steps are possible,
      and in the end the lock is free. */
  predicate Waits(s: State, t: nat, waiting: seq<Step>) {
    ByOthers(waiting, t) && Run(s, waiting).Some? && Run(s, waiting).value.holder.None?
  }

  /** The state in which a queued task has the lock. */
  function Locked(s: State, t: nat, waiting: seq<Step>): State
    requires t < |s.pcs| && s.pcs[t].Queued? && Waits(s, t, waiting)
  {
    OthersPass(s, waiting, t);
    Apply(Run(s, waiting).value, Acquire(t))
  }

  /** What the others do around one caller is possible: while it waits and, if it gets to call,
      while its call is in flight. */
  predicate Schedule(s: State, t: nat, waiting: seq<Step>, meanwhile: seq<Step>)
    requires t < |s.pcs| && s.pcs[t].Ready? && !s.latch
  {
    var queued := Apply(s, FirstCheck(t));
    && Waits(queued, t, waiting)
    && var held := Locked(queued, t, waiting);
       OthersPass(queued, waiting, t);
       held.latch || (ByOthers(meanwhile, t) && Run(Apply(held, SecondCheck(t)), meanwhile).Some?)
  }

  /** The steps under the lock: the second check, and the call unless that refuses it. */
  function Body(t: nat, raised: Raised, meanwhile: seq<Step>, refused: bool): seq<Step> {
    if refused then [SecondCheck(t)] else [SecondCheck(t)] + meanwhile + [Return(t, raised)]
  }

  /** The steps of a caller that gets the lock. */
  function Path(t: nat, raised: Raised, waiting: seq<Step>, meanwhile: seq<Step>, refused: bool): seq<Step> {
    [FirstCheck(t)] + (waiting + [Acquire(t)]) + Body(t, raised, meanwhile, refused) + [Release(t)]
  }

  lemma {:induction false} Regroup(a: seq<Step>, b: seq<Step>, c: seq<Step>, d: seq<Step>, e: seq<Step>)
    ensures a + b + c + d + e == a + (b + c + d + e)
    ensures e == [] ==> a + b + c + d == a + (b + c + d)
  {
  }

  /** The manager's own fields, next to all tasks and the steps they have taken so far. */
  class Session {
    var unavailable: bool
    var locked: bool
    var calls: seq<nat>
    var tasks: State
    var steps: seq<Step>

    predicate Traced()
      reads this
    {
      Run(START, steps) == Some(tasks)
    }

    predicate Valid()
      reads this
    {
      Traced() && unavailable == tasks.latch && locked == tasks.holder.Some? && calls == tasks.log
    }

    constructor ()
      ensures Valid() && steps == []
    {
      unavailable, locked, calls, tasks, steps := false, false, [], START, [];
    }

    /** Records a step of the caller. */
    method Advance(step: Step)
      requires Traced() && Enabled(tasks, step)
      modifies this`tasks, this`steps
      ensures Traced() && tasks == Apply(old(tasks), step) && steps == old(steps) + [step]
    {
      RunThen(START, steps, step);
      tasks, steps := Apply(tasks, step), steps + [step];
    }

    /** Other tasks run, as they may wherever the caller awaits. */
    method Others(more: seq<Step>, t: nat)
      requires Valid() && Run(tasks, more).Some?
      requires t < |tasks.pcs| && ByOthers(more, t)
      modifies this
      ensures Valid() && Some(tasks) == Run(old(tasks), more) && steps == old(steps) + more
      ensures t < |tasks.pcs| && tasks.pcs[t] == old(tasks).pcs[t]
    {
      RunJoined(START, steps, more);
      OthersPass(tasks, more, t);
      tasks, steps := Run(tasks, more).value, steps + more;
      unavailable, locked, calls := tasks.latch, tasks.holder.Some?, tasks.log;
    }

    /** The `except` clauses, in their order. */
    method Finish(raised: Raised) returns (outcome: Outcome)
      modifies this`unavailable
      ensures outcome == Ended(Classify(raised))
      ensures unavailable == (old(unavailable) || Breaks(Classify(raised)))
    {
      match raised {
        case NoError =>
          outcome := Ended(Replied);
        case TimedOut =>
          unavailable := true;
          outcome := Ended(CallTimeout);
        case McpFailure(closed) =>
          if closed {
            unavailable := true;
            outcome := Ended(ConnectionClosed);
          } else {
            outcome := Ended(ProtocolError);
          }
        case Transport =>
          unavailable := true;
          outcome := Ended(ConnectionClosed);
        case Unknown =>
          outcome := Ended(OtherError);
      }
    }

    /** Waits for the lock and takes it. */
    method Lock(t: nat, waiting: seq<Step>)
      requires Valid() && t < |tasks.pcs| && tasks.pcs[t].Queued? && Waits(tasks, t, waiting)
      modifies this
      ensures Valid() && tasks == Locked(old(tasks), t, waiting)
      ensures t < |tasks.pcs| && tasks.pcs[t].Holding?
      ensures steps == old(steps) + (waiting + [Acquire(t)])
    {
      Others(waiting, t);
      Advance(Acquire(t));
      locked := true;
    }

    /** The body under the lock. */
    method Guarded(t: nat, raised: Raised, meanwhile: seq<Step>) returns (outcome: Outcome)
      requires Valid() && t < |tasks.pcs| && tasks.pcs[t].Holding?
      requires !unavailable ==> ByOthers(meanwhile, t) && Run(Apply(tasks, SecondCheck(t)), meanwhile).Some?
      modifies this
      ensures Valid()
      ensures outcome == if old(unavailable) then Unavailable else Ended(Classify(raised))
      ensures t < |tasks.pcs| && tasks.pcs[t] == Leaving(outcome)
      ensures steps == old(steps) + Body(t, raised, meanwhile, outcome.Unavailable?)
    {
      Advance(SecondCheck(t));
      if unavailable { return Unavailable; }
      calls := calls + [t];
      Others(meanwhile, t);
      outcome := Finish(raised);
      Advance(Return(t, raised));
      Regroup(old(steps), [SecondCheck(t)], meanwhile, [Return(t, raised)], []);
    }

    /** One caller among any others: what it does to the manager is a run of the step machine,
        so whatever holds of every run holds of it, and it returns the outcome it has there. */
    method CallTool(t: nat, raised: Raised, waiting: seq<Step>, meanwhile: seq<Step>) returns (outcome: Outcome)
      requires Valid() && t < |tasks.pcs| && tasks.pcs[t].Ready?
      requires !unavailable ==> Schedule(tasks, t, waiting, meanwhile)
      modifies this
      ensures Valid()
      ensures t < |tasks.pcs| && tasks.pcs[t] == Done(outcome)
      ensures outcome.Unavailable? || outcome == Ended(Classify(raised))
      ensures steps == old(steps) +
        if old(unavailable) then [FirstCheck(t)] else Path(t, raised, waiting, meanwhile, outcome.Unavailable?)
    {
      Advance(FirstCheck(t));
      if unavailable { return Unavailable; }
      Lock(t, waiting);
      outcome := Guarded(t, raised, meanwhile);
      Advance(Release(t));
      locked := false;
      Regroup(old(steps), [FirstCheck(t)], waiting + [Acquire(t)], Body(t, raised, meanwhile, outcome.Unavailable?), [Release(t)]);
    }
  }
}
