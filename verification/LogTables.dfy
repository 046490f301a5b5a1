/** The tables of a run as its log tells them: each row and each run column is there because a
    record says so, and only then. The statements name the recorded steps and what the rows hold,
    never the effects that wrote them. */
module LogTables {
  import opened Common
  import opened TeamGraph
  import opened RunTables
  import opened RunWalk
  import opened CrashReplay
  import opened WalkTables

  predicate Did(log: seq<Record>, step: Step) {
    exists k | 0 <= k < |log| :: log[k].step == step
  }

  predicate Paid(log: seq<Record>, v: NodeId, n: nat) {
    exists k | 0 <= k < |log| :: log[k].step.PersistCost? && log[k].step.node == v && log[k].step.n == n
  }

  /** The spending on record: the first price written for each round. */
  function LogCost(log: seq<Record>): nat {
    if log == [] then 0
    else
      var past, step := log[..|log| - 1], log[|log| - 1].step;
      LogCost(past) + if step.PersistCost? && !Paid(past, step.node, step.n) then step.usage.cost else 0
  }

  /** The run's status: an open question waits for a human, an answer lets the run go on, and the
      final write stands. */
  function StatusTold(log: seq<Record>): RunStatus {
    if log == [] then Live else StatusNow(StatusTold(log[..|log| - 1]), log[|log| - 1].step)
  }

  function StatusNow(was: RunStatus, step: Step): RunStatus {
    match step
    case OpenGate(_) => AwaitingHuman
    case CloseGate(_, _) => Live
    case Finalize(end) => Ended(end)
    case MarkFailed => Ended(FailedRun)
    case _ => was
  }

  ghost predicate RunTold(run: RunRow, cap: Option<nat>, log: seq<Record>) {
    && run.cap == cap
    && (run.overridden <==> Did(log, MarkOverridden))
    && (run.specDocument <==> Did(log, RecordSpec(FirstDraft)))
    && run.status == StatusTold(log)
  }

  ghost predicate KeysTold(t: Tables, log: seq<Record>) {
    && (forall v: NodeId, n: nat :: (v, n) in t.invocations <==> Did(log, OpenInvocation(v, n)))
    && (forall topic :: topic in t.tasks <==> Did(log, OpenGate(topic)))
    && (forall key :: key in t.specs <==> Did(log, RecordSpec(key)))
  }

  ghost predicate CostsTold(costs: seq<CostRow>, log: seq<Record>) {
    && (forall v: NodeId, n: nat :: HasCost(costs, v, n) <==> Paid(log, v, n))
    && (forall row | row in costs :: Did(log, PersistCost(row.node, row.iteration, row.usage)))
    && Spent(costs) == LogCost(log)
  }

  /** A stored answer is a recorded one. */
  ghost predicate AnswersTold(tasks: map<Topic, Task>, log: seq<Record>) {
    forall topic | topic in tasks && tasks[topic].Resolved? :: Did(log, CloseGate(topic, tasks[topic].resolution))
  }

  // ----- one whole step -----

  lemma {:induction false} DidMore(log: seq<Record>, r: Record, step: Step)
    ensures Did(log + [r], step) <==> Did(log, step) || r.step == step
  {
    var longer := log + [r];
    if k :| 0 <= k < |log| && log[k].step == step {
      assert longer[k] == log[k];
    }
    assert longer[|log|] == r;
  }

  lemma {:induction false} PaidMore(log: seq<Record>, r: Record, v: NodeId, n: nat)
    ensures Paid(log + [r], v, n) <==> Paid(log, v, n) || (r.step.PersistCost? && r.step.node == v && r.step.n == n)
  {
    var longer := log + [r];
    if k :| 0 <= k < |log| && log[k].step.PersistCost? && log[k].step.node == v && log[k].step.n == n {
      assert longer[k] == log[k];
    }
    assert longer[|log|] == r;
  }

  /** The ship step leaves every other table and run column alone. */
  lemma {:induction false} ShipKeeps(t: Tables, luck: Luck)
    ensures
      var t' := Complete(t, ShipStep, luck, 0);
      t' == t.(repo := t'.repo, artifact := t'.artifact, run := t.run.(shipped := t'.run.shipped))
  {
    assert Partial(t, ShipStep, luck, 0, 0) == t;
    assert Partial(t, ShipStep, luck, 1, 0) == ShipEffect(t, luck, 0);
    assert Partial(t, ShipStep, luck, 2, 0) == ShipEffect(ShipEffect(t, luck, 0), luck, 1);
    assert Partial(t, ShipStep, luck, 3, 0) == ShipEffect(ShipEffect(ShipEffect(t, luck, 0), luck, 1), luck, 2);
  }

  function Extend(t: Tables, e: Entry): Tables {
    Durable(Complete(t, e.step, e.luck, 0))
  }

  /** What one whole step does to the columns of the run row that are written before the end. */
  lemma {:induction false} RunColumns(t: Tables, step: Step, luck: Luck)
    ensures
      var run := Complete(t, step, luck, 0).run;
      && run.cap == t.run.cap
      && (run.overridden <==> t.run.overridden || step == MarkOverridden)
      && (run.specDocument <==> t.run.specDocument || step == RecordSpec(FirstDraft))
      && run.status == StatusNow(t.run.status, step)
  {
    CompleteSingle(t, step, luck);
    if step.ShipStep? {
      ShipKeeps(t, luck);
    }
  }

  lemma {:induction false} RunStep(t: Tables, cap: Option<nat>, log: seq<Record>, e: Entry)
    requires RunTold(t.run, cap, log)
    ensures RunTold(Extend(t, e).run, cap, log + [Record(e.step, e.out)])
  {
    var r := Record(e.step, e.out);
    DidMore(log, r, MarkOverridden);
    DidMore(log, r, RecordSpec(FirstDraft));
    assert (log + [r])[..|log|] == log;
    RunColumns(t, e.step, e.luck);
  }

  lemma {:induction false} RowsStep(t: Tables, log: seq<Record>, e: Entry, v: NodeId, n: nat)
    requires (v, n) in t.invocations <==> Did(log, OpenInvocation(v, n))
    ensures (v, n) in Extend(t, e).invocations <==> Did(log + [Record(e.step, e.out)], OpenInvocation(v, n))
  {
    CompleteSingle(t, e.step, e.luck);
    if e.step.ShipStep? {
      ShipKeeps(t, e.luck);
    }
    DidMore(log, Record(e.step, e.out), OpenInvocation(v, n));
  }

  lemma {:induction false} TasksStep(t: Tables, log: seq<Record>, e: Entry, topic: Topic)
    requires topic in t.tasks <==> Did(log, OpenGate(topic))
    ensures topic in Extend(t, e).tasks <==> Did(log + [Record(e.step, e.out)], OpenGate(topic))
  {
    CompleteSingle(t, e.step, e.luck);
    if e.step.ShipStep? {
      ShipKeeps(t, e.luck);
    }
    DidMore(log, Record(e.step, e.out), OpenGate(topic));
  }

  lemma {:induction false} SpecsStep(t: Tables, log: seq<Record>, e: Entry, key: SpecKey)
    requires key in t.specs <==> Did(log, RecordSpec(key))
    ensures key in Extend(t, e).specs <==> Did(log + [Record(e.step, e.out)], RecordSpec(key))
  {
    CompleteSingle(t, e.step, e.luck);
    if e.step.ShipStep? {
      ShipKeeps(t, e.luck);
    }
    DidMore(log, Record(e.step, e.out), RecordSpec(key));
  }

  lemma {:induction false} KeysStep(t: Tables, log: seq<Record>, e: Entry)
    requires KeysTold(t, log)
    ensures KeysTold(Extend(t, e), log + [Record(e.step, e.out)])
  {
    var t', longer := Extend(t, e), log + [Record(e.step, e.out)];
    forall v: NodeId, n: nat ensures (v, n) in t'.invocations <==> Did(longer, OpenInvocation(v, n)) {
      RowsStep(t, log, e, v, n);
    }
    forall topic ensures topic in t'.tasks <==> Did(longer, OpenGate(topic)) {
      TasksStep(t, log, e, topic);
    }
    forall key ensures key in t'.specs <==> Did(longer, RecordSpec(key)) {
      SpecsStep(t, log, e, key);
    }
  }

  /** What one whole step does to the cost rows. */
  lemma {:induction false} CostColumns(t: Tables, e: Entry)
    ensures
      var costs := Extend(t, e).costs;
      if e.step.PersistCost? && !HasCost(t.costs, e.step.node, e.step.n)
      then costs == t.costs + [CostRow(e.step.node, e.step.n, e.step.usage)]
      else costs == t.costs
  {
    CompleteSingle(t, e.step, e.luck);
    if e.step.ShipStep? {
      ShipKeeps(t, e.luck);
    }
  }

  lemma {:induction false} SpentMore(costs: seq<CostRow>, log: seq<Record>, r: Record)
    requires Spent(costs) == LogCost(log)
    ensures LogCost(log + [r]) == LogCost(log) + if r.step.PersistCost? && !Paid(log, r.step.node, r.step.n) then r.step.usage.cost else 0
    ensures forall row :: Spent(costs + [row]) == Spent(costs) + row.usage.cost
  {
    assert (log + [r])[..|log|] == log;
    assert forall row :: (costs + [row])[..|costs|] == costs;
  }

  lemma {:induction false} CostsStep(t: Tables, log: seq<Record>, e: Entry)
    requires CostsTold(t.costs, log)
    ensures CostsTold(Extend(t, e).costs, log + [Record(e.step, e.out)])
  {
    var r := Record(e.step, e.out);
    var costs := Extend(t, e).costs;
    CostColumns(t, e);
    SpentMore(t.costs, log, r);
    forall v: NodeId, n: nat ensures HasCost(costs, v, n) <==> Paid(log + [r], v, n) {
      PaidMore(log, r, v, n);
      HasCostMore(t.costs, costs, e.step, v, n);
    }
    forall row | row in costs ensures Did(log + [r], PersistCost(row.node, row.iteration, row.usage)) {
      DidMore(log, r, PersistCost(row.node, row.iteration, row.usage));
    }
  }

  lemma {:induction false} HasCostMore(costs: seq<CostRow>, costs': seq<CostRow>, step: Step, v: NodeId, n: nat)
    requires costs' == costs || (step.PersistCost? && costs' == costs + [CostRow(step.node, step.n, step.usage)])
    requires step.PersistCost? && !HasCost(costs, step.node, step.n) ==> costs' != costs
    ensures HasCost(costs', v, n) <==> HasCost(costs, v, n) || (step.PersistCost? && step.node == v && step.n == n)
  {
    if step.PersistCost? && costs' != costs {
      assert costs'[|costs|] == CostRow(step.node, step.n, step.usage);
      assert forall row :: row in costs' <==> row in costs || row == CostRow(step.node, step.n, step.usage);
    }
  }

  lemma {:induction false} AnswersStep(t: Tables, log: seq<Record>, e: Entry)
    requires AnswersTold(t.tasks, log)
    ensures AnswersTold(Extend(t, e).tasks, log + [Record(e.step, e.out)])
  {
    var r := Record(e.step, e.out);
    CompleteSingle(t, e.step, e.luck);
    if e.step.ShipStep? {
      ShipKeeps(t, e.luck);
    }
    var tasks := Extend(t, e).tasks;
    forall topic | topic in tasks && tasks[topic].Resolved? ensures Did(log + [r], CloseGate(topic, tasks[topic].resolution)) {
      DidMore(log, r, CloseGate(topic, tasks[topic].resolution));
    }
  }

  // ----- whole runs -----

  ghost predicate TablesTold(t: Tables, cap: Option<nat>, log: seq<Record>) {
    RunTold(t.run, cap, log) && KeysTold(t, log) && CostsTold(t.costs, log) && AnswersTold(t.tasks, log)
  }

  lemma {:induction false} NothingTold(cap: Option<nat>)
    ensures TablesTold(Fresh(cap), cap, [])
  {
    var t := Fresh(cap);
    assert RunTold(t.run, cap, []);
    assert KeysTold(t, []);
    assert CostsTold(t.costs, []);
  }

  /** A history's tables are what its log tells, for any program. */
  lemma {:induction false} HistoryTells(cap: Option<nat>, history: seq<Entry>)
    ensures TablesTold(TablesAfter(cap, history), cap, LogOf(history))
  {
    if history == [] {
      NothingTold(cap);
      assert LogOf(history) == [];
    } else {
      var before, e := history[..|history| - 1], history[|history| - 1];
      var t := TablesAfter(cap, before);
      HistoryTells(cap, before);
      assert LogOf(history) == LogOf(before) + [Record(e.step, e.out)];
      assert TablesAfter(cap, history) == Extend(t, e);
      RunStep(t, cap, LogOf(before), e);
      KeysStep(t, LogOf(before), e);
      CostsStep(t, LogOf(before), e);
      AnswersStep(t, LogOf(before), e);
    }
  }

  /** Once a run has ended, after any crashes, its rows and run columns are those its log tells. */
  lemma {:induction false} EndedTablesAreTold(p: Program, cap: Option<nat>, events: seq<Event>)
    requires p.act(After(p, cap, events).local).Stop?
    ensures TablesTold(After(p, cap, events).tables, cap, After(p, cap, events).log)
  {
    var s := After(p, cap, events);
    var history := EndedRunIsCrashFree(p, cap, events);
    HistoryTells(cap, history);
    SameTold(s.tables, TablesAfter(cap, history), cap, s.log);
  }

  lemma {:induction false} SameTold(t: Tables, u: Tables, cap: Option<nat>, log: seq<Record>)
    requires Durable(t) == u && TablesTold(u, cap, log)
    ensures TablesTold(t, cap, log)
  {
  }

  /** What a crash-free run records is the step's output on the tables after it. */
  lemma {:induction false} RecordedOut(p: Program, cap: Option<nat>, history: seq<Entry>, k: nat)
    requires CrashFree(p, cap, history) && k < |history|
    ensures history[k].out == OutputOf(TablesAfter(cap, history[..k + 1]), history[k].step, history[k].luck)
  {
    var upTo := history[..k + 1];
    if k + 1 < |history| {
      CrashFreePrefix(p, cap, history, k + 1);
    } else {
      assert upTo == history;
    }
    assert upTo[|upTo| - 1] == history[k];
  }
}
