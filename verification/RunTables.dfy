/** What one greenfield run leaves behind: its database rows and its workspace repository. Each
    recorded step's body is a list of separately committed effects, so a process can die between
    any two of them. Tables with a unique key that are updated in place are maps; the cost table
    and the attempt log are row sequences. */
module RunTables {
  import opened Common
  import opened TeamGraph

  datatype InvocationStatus = InProgress | Done | FailedNode | StoppedNode

  datatype Outcome =
    | Verdict(verdict: Label) | Built | PrdWritten | Reported
    | OverBudgetCut | FailurePath | Shipped | Stopped

  datatype Invocation = Invocation(status: InvocationStatus, outcome: Option<Outcome>)

  datatype Usage = Usage(tokens: nat, cost: nat)

  datatype CostRow = CostRow(node: NodeId, iteration: nat, usage: Usage)

  datatype SpecKey = FirstDraft | Revision(node: NodeId, iteration: nat)

  datatype Topic = GateTopic(node: NodeId, visit: nat) | BudgetTopic(node: NodeId, iteration: nat)

  datatype Task = Pending | Resolved(resolution: Label)

  /** `ShipRefused`: the ship step raised, there was nothing to ship. `Errored`: the walk raised. */
  datatype End = Completed | RejectedRun | OverBudgetRun | FailedRun | ShipRefused | Errored

  datatype RunStatus = Live | AwaitingHuman | Ended(end: End)

  type Sha = nat

  type Diff = nat

  /** What git would find in the workspace when the ship step looks at it. */
  datatype Tree = Untouched | Uncommitted | OwnCommits(sha: Sha) | ShipHead(sha: Sha)

  /** `shipCommits` are the commits the ship step made itself. */
  datatype Repo = Repo(tree: Tree, shipCommits: seq<Sha>, tag: Option<Sha>)

  datatype RunRow = RunRow(
    status: RunStatus, cap: Option<nat>, overridden: bool, total: Option<nat>,
    specDocument: bool, shipped: Option<Sha>)

  datatype Tables = Tables(
    invocations: map<(NodeId, nat), Invocation>,
    costs: seq<CostRow>,
    specs: set<SpecKey>,
    tasks: map<Topic, Task>,
    run: RunRow,
    artifact: Option<Diff>,
    attempts: seq<nat>,
    repo: Repo)

  function Fresh(cap: Option<nat>): Tables {
    Tables(map[], [], {}, map[], RunRow(Live, cap, false, None, false, None), None, [], Repo(Untouched, [], None))
  }

  // ----- the recorded steps of a run and what each execution may bring -----

  datatype AgentStatus = CompletedAgent | CutOff | Broken

  datatype AgentResult = AgentResult(status: AgentStatus, verdict: Option<Label>, usage: Usage, report: bool)

  datatype Step =
    | OpenInvocation(node: NodeId, n: nat)
    | RunAgent(node: NodeId, n: nat, emits: bool)
    | PersistCost(node: NodeId, n: nat, usage: Usage)
    | ClosingMessage(node: NodeId, n: nat)
    | RecordSpec(key: SpecKey)
    | CloseInvocation(node: NodeId, n: nat, status: InvocationStatus, outcome: Option<Outcome>)
    | BudgetCheck
    | OpenGate(topic: Topic)
    | AutoResolve(topic: Topic)
    | Receive(topic: Topic)
    | CloseGate(topic: Topic, resolution: Label)
    | MarkOverridden
    | ShipStep
    | Finalize(end: End)
    | MarkFailed

  /** Everything an execution of a step body can see that is not in the tables: the agent's answer
      and what it did to the workspace, the harness's automatic answer, the human's message, the
      new commit's hash and the diff snapshot (`None`: empty or not written). */
  datatype Luck = Luck(
    attempted: bool, result: AgentResult, tree: Option<Tree>,
    auto: Option<Label>, message: Option<Label>, closing: bool,
    sha: Sha, snapshot: Option<Diff>)

  datatype Output =
    | Nothing
    | AgentOut(result: AgentResult)
    | Flag(value: bool)
    | Answer(answer: Option<Label>)
    | ShipOut(sha: Option<Sha>)

  function HasCost(costs: seq<CostRow>, node: NodeId, n: nat): bool {
    exists row | row in costs :: row.node == node && row.iteration == n
  }

  /** The run's live total: a sum over its cost rows. */
  function Spent(costs: seq<CostRow>): nat {
    if costs == [] then 0 else Spent(costs[..|costs| - 1]) + costs[|costs| - 1].usage.cost
  }

  function EffectCount(step: Step): nat {
    match step
    case OpenInvocation(_, _) => 1
    case RunAgent(_, _, _) => 2
    case PersistCost(_, _, _) => 1
    case ClosingMessage(_, _) => 0
    case RecordSpec(_) => 2
    case CloseInvocation(_, _, _, _) => 1
    case BudgetCheck => 0
    case OpenGate(_) => 1
    case AutoResolve(_) => 0
    case Receive(_) => 0
    case CloseGate(_, _) => 1
    case MarkOverridden => 1
    case ShipStep => 4
    case Finalize(_) => 1
    case MarkFailed => 1
  }

  /** Commit the workspace's changes unless the ship tag is already there or HEAD is the ship commit. */
  function CommitTree(r: Repo, sha: Sha): Repo {
    if r.tag.Some? || r.tree != Uncommitted then r
    else Repo(ShipHead(sha), r.shipCommits + [sha], None)
  }

  /** Tag HEAD: the ship commit, or the agent's own commits when nothing else was left to commit. */
  function TagHead(r: Repo): Repo {
    if r.tag.Some? then r
    else if r.tree.ShipHead? || r.tree.OwnCommits? then r.(tag := Some(r.tree.sha))
    else r
  }

  function AgentEffect(t: Tables, luck: Luck, i: nat, boot: nat): Tables {
    if i == 0 then t.(attempts := if luck.attempted then t.attempts + [boot] else t.attempts)
    else t.(repo := if luck.tree.Some? then t.repo.(tree := luck.tree.value) else t.repo)
  }

  function SpecEffect(t: Tables, key: SpecKey, i: nat): Tables {
    if i == 0 then t.(specs := t.specs + {key})
    else t.(run := t.run.(specDocument := t.run.specDocument || key.FirstDraft?))
  }

  /** Commit, tag, write the tag's commit on the run row, write the snapshot; without a tag the
      step has raised and the last two do not happen. */
  function ShipEffect(t: Tables, luck: Luck, i: nat): Tables {
    if i == 0 then t.(repo := CommitTree(t.repo, luck.sha))
    else if i == 1 then t.(repo := TagHead(t.repo))
    else if i == 2 then t.(run := if t.repo.tag.Some? then t.run.(shipped := t.repo.tag) else t.run)
    else t.(artifact := if t.repo.tag.Some? && luck.snapshot.Some? then luck.snapshot else t.artifact)
  }

  /** Effect number `i` of a step body, committed by the process `boot`. */
  function Effect(t: Tables, step: Step, luck: Luck, i: nat, boot: nat): Tables {
    match step
    case OpenInvocation(v, n) =>
      if (v, n) in t.invocations then t
      else t.(invocations := t.invocations[(v, n) := Invocation(InProgress, None)])
    case RunAgent(_, _, _) => AgentEffect(t, luck, i, boot)
    case PersistCost(v, n, usage) =>
      if HasCost(t.costs, v, n) then t else t.(costs := t.costs + [CostRow(v, n, usage)])
    case RecordSpec(key) => SpecEffect(t, key, i)
    case CloseInvocation(v, n, status, outcome) =>
      if (v, n) in t.invocations then t.(invocations := t.invocations[(v, n) := Invocation(status, outcome)]) else t
    case OpenGate(topic) =>
      t.(tasks := if topic in t.tasks then t.tasks else t.tasks[topic := Pending],
         run := t.run.(status := AwaitingHuman))
    case CloseGate(topic, resolution) =>
      t.(tasks := if topic in t.tasks && t.tasks[topic].Pending? then t.tasks[topic := Resolved(resolution)] else t.tasks,
         run := t.run.(status := Live))
    case MarkOverridden => t.(run := t.run.(overridden := true))
    case ShipStep => ShipEffect(t, luck, i)
    case Finalize(end) => t.(run := t.run.(status := Ended(end), total := Some(Spent(t.costs))))
    case MarkFailed => t.(run := t.run.(status := Ended(FailedRun), total := Some(Spent(t.costs))))
    case ClosingMessage(_, _) => t
    case BudgetCheck => t
    case AutoResolve(_) => t
    case Receive(_) => t
  }

  /** What the step returns once its last effect is in. */
  function OutputOf(t: Tables, step: Step, luck: Luck): Output {
    match step
    case RunAgent(_, _, emits) =>
      AgentOut(if emits && luck.result.status.CompletedAgent? then luck.result else luck.result.(verdict := None))
    case ClosingMessage(_, _) => Flag(luck.closing)
    case BudgetCheck => Flag(t.run.cap.Some? && !t.run.overridden && Spent(t.costs) > t.run.cap.value)
    case AutoResolve(_) => Answer(luck.auto)
    case Receive(_) => Answer(luck.message)
    case ShipStep => ShipOut(t.repo.tag)
    case _ => Nothing
  }

  /** The first `k` effects of one undisturbed execution. */
  function Partial(t: Tables, step: Step, luck: Luck, k: nat, boot: nat): Tables {
    if k == 0 then t else Effect(Partial(t, step, luck, k - 1, boot), step, luck, k - 1, boot)
  }

  function Complete(t: Tables, step: Step, luck: Luck, boot: nat): Tables {
    Partial(t, step, luck, EffectCount(step), boot)
  }

  /** The tables without the attempt log, the one table that is meant to show re-execution. */
  function Durable(t: Tables): Tables {
    t.(attempts := [])
  }
}
