/** The uniform graph walk as the program the durable engine re-executes: a local state that is
    lost in a crash, the next thing the walk does in it, and how a step's recorded output moves it
    on. Nothing here reads the tables. */
module RunWalk {
  import opened Common
  import opened TeamGraph
  import opened RunTables

  /** A closed visit of a node. `paid` is the usage its cost row was written with, if any. */
  datatype Visit = Visit(node: NodeId, n: nat, status: InvocationStatus, outcome: Option<Outcome>, paid: Option<Usage>)

  datatype Asking = AtGate | OverCap(route: Option<Label>)

  datatype Then = ThenBudget(route: Option<Label>) | ThenRoute(route: Option<Label>) | ThenGo(target: NodeId) | ThenFail | ThenFinalize(end: End) | ThenHalt(end: End)

  datatype Pc =
    | Arriving
    | Lost
    | Opening
    | Running
    | Spending(result: AgentResult)
    | Specifying
    | Rescuing(result: AgentResult)
    | Closing(status: InvocationStatus, outcome: Option<Outcome>, then_: Then)
    | Budgeting(route: Option<Label>)
    | GateOpening(ask: Asking)
    | AutoAsking(ask: Asking)
    | Waiting(ask: Asking)
    | GateClosing(ask: Asking, resolution: Label)
    | Overriding(route: Option<Label>)
    | Shipping
    | Finalizing(end: End)
    | Failing
    | Halted(end: End)

  /** `rounds` counts the entries of agents and of gates (two dictionaries over disjoint nodes in
      the source). `trail` and `paid` only record the walk's history. */
  datatype Local = Local(
    current: NodeId, n: nat, rounds: map<NodeId, nat>, hasSpec: bool,
    verdict: Option<Label>, paid: Option<Usage>, trail: seq<Visit>, pc: Pc)

  datatype Act = Goto(next: Local) | Call(step: Step) | Stop

  function Boot(g: Graph): Local {
    Local(g.start, 0, map[], false, None, None, [], Arriving)
  }

  function Rounds(l: Local, v: NodeId): nat {
    if v in l.rounds then l.rounds[v] else 0
  }

  function TopicOf(l: Local, ask: Asking): Topic {
    match ask
    case AtGate => GateTopic(l.current, l.n)
    case OverCap(_) => BudgetTopic(l.current, l.n)
  }

  /** The top of the loop: count the entry, and leave a capped worker by its escalation edge. */
  function Arrive(g: Graph, l: Local): Local {
    if l.current !in g.nodes then l.(pc := Halted(Errored))
    else
      match g.nodes[l.current]
      case Agent(_) =>
        var n := Rounds(l, l.current) + 1;
        var counted := l.(rounds := l.rounds[l.current := n], n := n, verdict := None, paid := None);
        var esc := EscalationTarget(g.edges, l.current);
        if esc.Some? && n > LoopLimitFor(g.edges, l.current, g.maxReviewIterations)
        then counted.(current := esc.value)
        else counted.(pc := Opening)
      case Gate =>
        var n := Rounds(l, l.current) + 1;
        l.(rounds := l.rounds[l.current := n], n := n, verdict := None, paid := None, pc := Opening)
      case _ => l.(n := 1, verdict := None, paid := None, pc := Opening)
  }

  /** A failed agent continues at its failure path while its loop limit allows this round. */
  function FailurePathOf(g: Graph, l: Local): Option<NodeId> {
    if l.n <= LoopLimitFor(g.edges, l.current, g.maxReviewIterations) then FailureTarget(g.edges, l.current) else None
  }

  function AfterRun(g: Graph, l: Local, r: AgentResult): Local {
    if r.status.Broken? && FailurePathOf(g, l).None? then l.(pc := Closing(FailedNode, None, ThenFail))
    else l.(pc := Spending(r))
  }

  function StoredOutcome(g: Graph, l: Local): Outcome {
    if l.current == g.start then PrdWritten
    else if EmitsOutcome(g.edges, l.current) then (if l.verdict.Some? then Verdict(l.verdict.value) else Built)
    else if l.current in g.nodes && g.nodes[l.current] == Agent(false) then Reported
    else if l.verdict.Some? then Verdict(l.verdict.value) else Built
  }

  function AgentDone(g: Graph, l: Local): Local {
    l.(pc := Closing(Done, Some(StoredOutcome(g, l)), ThenBudget(l.verdict)))
  }

  function AfterSpending(g: Graph, l: Local, r: AgentResult): Local {
    match r.status
    case CutOff => l.(pc := Closing(StoppedNode, Some(OverBudgetCut), ThenFinalize(OverBudgetRun)))
    case Broken =>
      var target := FailurePathOf(g, l);
      if target.Some? then l.(pc := Closing(FailedNode, Some(FailurePath), ThenGo(target.value)))
      else l.(pc := Closing(FailedNode, None, ThenFail))
    case CompletedAgent =>
      var heard := l.(verdict := r.verdict);
      if l.current == g.start then heard.(pc := if r.report then Specifying else Rescuing(r))
      else AgentDone(g, heard)
  }

  /** Follow the outcome; a walk with nowhere to go is marked failed. */
  function Follow(g: Graph, l: Local, route: Option<Label>): Local {
    var target := NextNode(g.edges, l.current, route);
    if target.Some? then l.(current := target.value, pc := Arriving) else l.(pc := Lost)
  }

  function AfterClose(g: Graph, l: Local, then_: Then): Local {
    match then_
    case ThenBudget(route) => l.(pc := Budgeting(route))
    case ThenRoute(route) => Follow(g, l, route)
    case ThenGo(target) => l.(current := target, pc := Arriving)
    case ThenFail => l.(pc := Failing)
    case ThenFinalize(end) => l.(pc := Finalizing(end))
    case ThenHalt(end) => l.(pc := Halted(end))
  }

  function GateAnswered(g: Graph, l: Local, ask: Asking, resolution: Label): Local {
    match ask
    case AtGate => l.(pc := Closing(Done, Some(Verdict(resolution)), ThenRoute(Some(resolution))))
    case OverCap(route) => l.(pc := if resolution == Rejected then Finalizing(OverBudgetRun) else Overriding(route))
  }

  function AfterFinalize(l: Local, end: End): Local {
    match end
    case Completed => l.(pc := Closing(Done, Some(Shipped), ThenHalt(end)))
    case RejectedRun => l.(pc := Closing(Done, Some(Stopped), ThenHalt(end)))
    case _ => l.(pc := Halted(end))
  }

  function SpecKeyOf(l: Local): SpecKey {
    if l.hasSpec then Revision(l.current, l.n) else FirstDraft
  }

  function Action(g: Graph, l: Local): Act {
    match l.pc
    case Arriving => Goto(Arrive(g, l))
    case Lost => Goto(l.(pc := Failing))
    case Opening => Call(OpenInvocation(l.current, l.n))
    case Running => Call(RunAgent(l.current, l.n, EmitsOutcome(g.edges, l.current)))
    case Spending(r) =>
      if r.usage.tokens != 0 || r.usage.cost != 0 then Call(PersistCost(l.current, l.n, r.usage))
      else Goto(AfterSpending(g, l, r))
    case Specifying => Call(RecordSpec(SpecKeyOf(l)))
    case Rescuing(_) => Call(ClosingMessage(l.current, l.n))
    case Closing(status, outcome, _) => Call(CloseInvocation(l.current, l.n, status, outcome))
    case Budgeting(_) => Call(BudgetCheck)
    case GateOpening(ask) => Call(OpenGate(TopicOf(l, ask)))
    case AutoAsking(ask) => Call(AutoResolve(TopicOf(l, ask)))
    case Waiting(ask) => Call(Receive(TopicOf(l, ask)))
    case GateClosing(ask, resolution) => Call(CloseGate(TopicOf(l, ask), resolution))
    case Overriding(_) => Call(MarkOverridden)
    case Shipping => Call(ShipStep)
    case Finalizing(end) => Call(Finalize(end))
    case Failing => Call(MarkFailed)
    case Halted(_) => Stop
  }

  /** The walk's reaction to a step's output, fresh or replayed. */
  function Advance(g: Graph, l: Local, out: Output): Local {
    match l.pc
    case Opening =>
      (match if l.current in g.nodes then g.nodes[l.current] else StopEnd
       case Agent(_) => l.(pc := Running)
       case Gate => l.(pc := GateOpening(AtGate))
       case ShipEnd => l.(pc := Shipping)
       case StopEnd => l.(pc := Finalizing(RejectedRun)))
    case Running => if out.AgentOut? then AfterRun(g, l, out.result) else l
    case Spending(r) => AfterSpending(g, l.(paid := Some(r.usage)), r)
    case Rescuing(_) =>
      if out == Flag(true) then l.(pc := Specifying) else l.(pc := Closing(FailedNode, None, ThenFail))
    case Specifying => AgentDone(g, l.(hasSpec := true))
    case Closing(status, outcome, then_) =>
      AfterClose(g, l.(trail := l.trail + [Visit(l.current, l.n, status, outcome, l.paid)]), then_)
    case Budgeting(route) => if out == Flag(true) then l.(pc := GateOpening(OverCap(route))) else Follow(g, l, route)
    case GateOpening(ask) => l.(pc := AutoAsking(ask))
    case AutoAsking(ask) =>
      if out.Answer? && out.answer.Some? then l.(pc := GateClosing(ask, out.answer.value)) else l.(pc := Waiting(ask))
    case Waiting(ask) =>
      if out == Answer(Some(Approved)) || out == Answer(Some(Rejected)) then l.(pc := GateClosing(ask, out.answer.value))
      else l
    case GateClosing(ask, resolution) => GateAnswered(g, l, ask, resolution)
    case Overriding(route) => Follow(g, l, route)
    case Shipping => if out.ShipOut? && out.sha.Some? then l.(pc := Finalizing(Completed)) else l.(pc := Halted(ShipRefused))
    case Finalizing(end) => AfterFinalize(l, end)
    case Failing => l.(pc := Halted(FailedRun))
    case Arriving => l
    case Lost => l
    case Halted(_) => l
  }

  /** What durable execution needs to know of a workflow body: where it starts, what it does next,
      and how an output moves it on. */
  datatype Program = Program(boot: Local, act: Local -> Act, advance: (Local, Output) -> Local)

  function WalkOf(g: Graph): Program {
    Program(Boot(g), l => Action(g, l), (l, out) => Advance(g, l, out))
  }
}
