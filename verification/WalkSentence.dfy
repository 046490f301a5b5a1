/** The log of a walk, read as a sentence: which step may follow which records, and how a run may end.
    Nothing here mentions the walk's own state. The theorem is that every log of every schedule, crashes
    included, is such a sentence. */
module WalkSentence {
  import opened Common
  import opened TeamGraph
  import opened RunTables
  import opened RunWalk
  import opened CrashReplay
  import opened WalkTables

  // ----- what a log tells -----

  datatype Execution = Execution(node: NodeId, n: nat, result: AgentResult)

  /** The latest agent execution. */
  function LatestRun(past: seq<Record>): Option<Execution> {
    if past == [] then None
    else
      var last := past[|past| - 1];
      if last.step.RunAgent? && last.out.AgentOut? then Some(Execution(last.step.node, last.step.n, last.out.result))
      else LatestRun(past[..|past| - 1])
  }

  /** How many rounds of a node have been opened. */
  function Opened(past: seq<Record>, v: NodeId): nat {
    if past == [] then 0
    else
      var last := past[|past| - 1].step;
      Opened(past[..|past| - 1], v) + if last.OpenInvocation? && last.node == v then 1 else 0
  }

  predicate SpecRecorded(past: seq<Record>) {
    past != [] && (past[|past| - 1].step.RecordSpec? || SpecRecorded(past[..|past| - 1]))
  }

  predicate Charged(u: Usage) {
    u.tokens != 0 || u.cost != 0
  }

  // ----- what may follow -----

  /** A failed round continues at the failure path: there is one, and the node's limit allows the round. */
  predicate Rescued(g: Graph, v: NodeId, n: nat) {
    FailureTarget(g.edges, v).Some? && n <= LoopLimitFor(g.edges, v, g.maxReviewIterations)
  }

  /** The agent has an escalation edge and as many rounds behind it as its limit. */
  predicate UsedUp(g: Graph, past: seq<Record>, v: NodeId) {
    && v in g.nodes && g.nodes[v].Agent? && EscalationTarget(g.edges, v).Some?
    && Opened(past, v) >= LoopLimitFor(g.edges, v, g.maxReviewIterations)
  }

  /** Sent to `from`, the walk comes to `to`: there, or on by the escalation edges of used-up agents. */
  ghost predicate Reaches(g: Graph, past: seq<Record>, from: NodeId, to: NodeId, hops: nat)
    decreases hops
  {
    if hops == 0 then from == to
    else exists v :: Reaches(g, past, from, v, hops - 1) && UsedUp(g, past, v) && EscalationTarget(g.edges, v) == Some(to)
  }

  ghost predicate Sent(g: Graph, past: seq<Record>, from: NodeId, to: NodeId) {
    exists hops: nat :: Reaches(g, past, from, to, hops)
  }

  function OutcomeOf(g: Graph, v: NodeId, verdict: Option<Label>): Outcome {
    if v in g.nodes && g.nodes[v] == Agent(false) && !EmitsOutcome(g.edges, v) then Reported
    else if verdict.Some? then Verdict(verdict.value)
    else Built
  }

  function DraftKey(past: seq<Record>, v: NodeId, n: nat): SpecKey {
    if SpecRecorded(past) then Revision(v, n) else FirstDraft
  }

  /** After an agent round whose spending, if any, is on record. */
  predicate AfterAgent(g: Graph, past: seq<Record>, v: NodeId, n: nat, r: AgentResult, b: Step) {
    match r.status
    case CutOff => b == CloseInvocation(v, n, StoppedNode, Some(OverBudgetCut))
    case Broken => b == CloseInvocation(v, n, FailedNode, Some(FailurePath))
    case CompletedAgent =>
      if v != g.start then b == CloseInvocation(v, n, Done, Some(OutcomeOf(g, v, r.verdict)))
      else if r.report then b == RecordSpec(DraftKey(past, v, n))
      else b == ClosingMessage(v, n)
  }

  /** The latest agent's verdict leads to the target. */
  predicate Routed(g: Graph, past: seq<Record>, target: Option<NodeId>) {
    LatestRun(past).Some? && target == NextNode(g.edges, LatestRun(past).value.node, LatestRun(past).value.result.verdict)
  }

  /** A gate's closed visit sends the walk where its answer leads, a rescued failure to the failure path. */
  predicate ClosedTo(g: Graph, v: NodeId, status: InvocationStatus, outcome: Option<Outcome>, target: Option<NodeId>) {
    if status.FailedNode? then outcome == Some(FailurePath) && target.Some? && target == FailureTarget(g.edges, v)
    else
      && status.Done? && outcome.Some? && outcome.value.Verdict? && v in g.nodes && g.nodes[v].Gate?
      && target == NextNode(g.edges, v, Some(outcome.value.verdict))
  }

  /** Where the walk is sent by the last record, when that record sends it anywhere; `None`: nowhere. */
  predicate Due(g: Graph, past: seq<Record>, target: Option<NodeId>) {
    if past == [] then target == Some(g.start)
    else
      var a := past[|past| - 1];
      if a.step.CloseInvocation? then ClosedTo(g, a.step.node, a.step.status, a.step.outcome, target)
      else (a.step == MarkOverridden || (a.step == BudgetCheck && a.out == Flag(false))) && Routed(g, past, target)
  }

  /** Going to a node is opening its next round; with nowhere to go the run is marked failed. */
  ghost predicate Goes(g: Graph, past: seq<Record>, b: Step) {
    || (b == MarkFailed && Due(g, past, None))
    || (b.OpenInvocation? && b.n == Opened(past, b.node) + 1 && b.node in g.nodes
        && exists from :: Due(g, past, Some(from)) && Sent(g, past, from, b.node))
  }

  /** A round that has been opened. */
  predicate AfterOpen(g: Graph, v: NodeId, n: nat, b: Step) {
    v in g.nodes &&
    match g.nodes[v]
    case Agent(_) => b == RunAgent(v, n, EmitsOutcome(g.edges, v))
    case Gate => b == OpenGate(GateTopic(v, n))
    case ShipEnd => b == ShipStep
    case StopEnd => b == Finalize(RejectedRun)
  }

  /** An agent has answered. */
  predicate AfterRunning(g: Graph, past: seq<Record>, v: NodeId, n: nat, r: AgentResult, b: Step) {
    if r.status.Broken? && !Rescued(g, v, n) then b == CloseInvocation(v, n, FailedNode, None)
    else if Charged(r.usage) then b == PersistCost(v, n, r.usage)
    else AfterAgent(g, past, v, n, r, b)
  }

  /** Its spending is on record. */
  predicate AfterPaying(g: Graph, past: seq<Record>, v: NodeId, n: nat, usage: Usage, b: Step) {
    LatestRun(past).Some? && LatestRun(past).value.result.usage == usage && AfterAgent(g, past, v, n, LatestRun(past).value.result, b)
  }

  /** The specification is on record. */
  predicate AfterDraft(g: Graph, past: seq<Record>, b: Step) {
    LatestRun(past).Some? && LatestRun(past).value.node == g.start &&
    b == CloseInvocation(g.start, LatestRun(past).value.n, Done, Some(PrdWritten))
  }

  /** A visit is closed. */
  ghost predicate AfterClosing(g: Graph, past: seq<Record>, v: NodeId, status: InvocationStatus, outcome: Option<Outcome>, b: Step) {
    if v in g.nodes && g.nodes[v].Agent? && status.Done? then b == BudgetCheck
    else if status.StoppedNode? then b == Finalize(OverBudgetRun)
    else if status.FailedNode? && outcome.None? then b == MarkFailed
    else Goes(g, past, b)
  }

  /** The budget is checked. */
  ghost predicate AfterChecking(g: Graph, past: seq<Record>, over: bool, b: Step) {
    if over then LatestRun(past).Some? && b == OpenGate(BudgetTopic(LatestRun(past).value.node, LatestRun(past).value.n))
    else Goes(g, past, b)
  }

  /** A question has been put to the harness, or to a human. */
  predicate AfterAsking(topic: Topic, human: bool, answer: Option<Label>, b: Step) {
    if answer.Some? && (!human || answer.value == Approved || answer.value == Rejected) then b == CloseGate(topic, answer.value)
    else b == Receive(topic)
  }

  /** A question is answered. */
  predicate AfterAnswer(topic: Topic, resolution: Label, b: Step) {
    match topic
    case GateTopic(v, n) => b == CloseInvocation(v, n, Done, Some(Verdict(resolution)))
    case BudgetTopic(_, _) => if resolution == Rejected then b == Finalize(OverBudgetRun) else b == MarkOverridden
  }

  /** The run row is final; a ship and a stop still close their own row. */
  predicate AfterFinal(g: Graph, end: End, b: Step) {
    b.CloseInvocation? && b.status == Done && b.node in g.nodes &&
    ((end.Completed? && g.nodes[b.node].ShipEnd? && b.outcome == Some(Shipped)) ||
     (end.RejectedRun? && g.nodes[b.node].StopEnd? && b.outcome == Some(Stopped)))
  }

  ghost predicate Follows(g: Graph, past: seq<Record>, a: Record, b: Step) {
    match a.step
    case OpenInvocation(v, n) => AfterOpen(g, v, n, b)
    case RunAgent(v, n, _) => a.out.AgentOut? && AfterRunning(g, past, v, n, a.out.result, b)
    case PersistCost(v, n, usage) => AfterPaying(g, past, v, n, usage, b)
    case RecordSpec(_) => AfterDraft(g, past, b)
    case ClosingMessage(v, n) =>
      if a.out == Flag(true) then b == RecordSpec(DraftKey(past, v, n)) else b == CloseInvocation(v, n, FailedNode, None)
    case CloseInvocation(v, _, status, outcome) => AfterClosing(g, past, v, status, outcome, b)
    case BudgetCheck => AfterChecking(g, past, a.out == Flag(true), b)
    case OpenGate(topic) => b == AutoResolve(topic)
    case AutoResolve(topic) => a.out.Answer? && AfterAsking(topic, false, a.out.answer, b)
    case Receive(topic) => a.out.Answer? && AfterAsking(topic, true, a.out.answer, b)
    case CloseGate(topic, resolution) => AfterAnswer(topic, resolution, b)
    case MarkOverridden => Goes(g, past, b)
    case ShipStep => a.out.ShipOut? && a.out.sha.Some? && b == Finalize(Completed)
    case Finalize(end) => AfterFinal(g, end, b)
    case MarkFailed => false
  }

  /** The step `b` may follow the records `past`. */
  ghost predicate Succeeds(g: Graph, past: seq<Record>, b: Step) {
    if past == [] then Goes(g, past, b) else Follows(g, past, past[|past| - 1], b)
  }

  /** A run may end so after the records `past`. */
  ghost predicate EndsAfter(g: Graph, past: seq<Record>, end: End) {
    match end
    case Completed => past != [] && past[|past| - 1].step.CloseInvocation? && past[|past| - 1].step.outcome == Some(Shipped)
    case RejectedRun => past != [] && past[|past| - 1].step.CloseInvocation? && past[|past| - 1].step.outcome == Some(Stopped)
    case OverBudgetRun => past != [] && past[|past| - 1].step == Finalize(OverBudgetRun)
    case FailedRun => past != [] && past[|past| - 1].step == MarkFailed
    case ShipRefused => past != [] && past[|past| - 1].step == ShipStep && past[|past| - 1].out == ShipOut(None)
    case Errored => exists from, to :: Due(g, past, Some(from)) && Sent(g, past, from, to) && to !in g.nodes
  }

  // ----- what the walk's state says of its log -----

  predicate OutFits(step: Step, out: Output) {
    match step
    case RunAgent(_, _, _) => out.AgentOut?
    case ClosingMessage(_, _) => out.Flag?
    case BudgetCheck => out.Flag?
    case AutoResolve(_) => out.Answer?
    case Receive(_) => out.Answer?
    case ShipStep => out.ShipOut?
    case _ => true
  }

  /** The latest execution is the current round's. */
  predicate RanHere(past: seq<Record>, l: Local) {
    LatestRun(past).Some? && LatestRun(past).value.node == l.current && LatestRun(past).value.n == l.n
  }

  predicate RouteOf(past: seq<Record>, l: Local, route: Option<Label>) {
    LatestRun(past).Some? && LatestRun(past).value.node == l.current && route == LatestRun(past).value.result.verdict
  }

  predicate AskFits(past: seq<Record>, l: Local, ask: Asking) {
    ask.OverCap? ==> RouteOf(past, l, ask.route) && LatestRun(past).value.n == l.n
  }

  predicate ThenFits(g: Graph, past: seq<Record>, l: Local, status: InvocationStatus, outcome: Option<Outcome>, then_: Then) {
    l.current in g.nodes &&
    match then_
    case ThenBudget(route) => g.nodes[l.current].Agent? && status.Done? && RouteOf(past, l, route) && LatestRun(past).value.n == l.n
    case ThenRoute(route) => g.nodes[l.current].Gate? && status.Done? && route.Some? && outcome == Some(Verdict(route.value))
    case ThenGo(target) => g.nodes[l.current].Agent? && status.FailedNode? && outcome == Some(FailurePath) && FailureTarget(g.edges, l.current) == Some(target)
    case ThenFail => g.nodes[l.current].Agent? && status.FailedNode? && outcome.None?
    case ThenFinalize(end) => g.nodes[l.current].Agent? && status.StoppedNode? && end.OverBudgetRun?
    case ThenHalt(end) =>
      if end.Completed? then status.Done? && outcome == Some(Shipped) else end.RejectedRun? && status.Done? && outcome == Some(Stopped)
  }

  ghost predicate ArrivesAt(g: Graph, past: seq<Record>, v: NodeId) {
    exists from :: Due(g, past, Some(from)) && Sent(g, past, from, v)
  }

  /** What the log tells of the walk's state, place by place. */
  ghost predicate Placed(g: Graph, past: seq<Record>, l: Local) {
    match l.pc
    case Arriving => ArrivesAt(g, past, l.current)
    case Lost => Due(g, past, None)
    case Spending(r) =>
      && past != [] && past[|past| - 1].step.RunAgent? && RanHere(past, l) && past[|past| - 1].out == AgentOut(r)
      && (r.status.Broken? ==> Rescued(g, l.current, l.n))
    case Specifying => RanHere(past, l) && l.current == g.start && l.verdict == LatestRun(past).value.result.verdict
    case Rescuing(_) => RanHere(past, l) && l.current == g.start && l.verdict == LatestRun(past).value.result.verdict
    case Closing(status, outcome, then_) => ThenFits(g, past, l, status, outcome, then_)
    case Budgeting(route) => RouteOf(past, l, route) && LatestRun(past).value.n == l.n
    case GateOpening(ask) => AskFits(past, l, ask)
    case AutoAsking(ask) => AskFits(past, l, ask)
    case Waiting(ask) => AskFits(past, l, ask)
    case GateClosing(ask, _) => AskFits(past, l, ask)
    case Overriding(route) => RouteOf(past, l, route)
    case _ => true
  }

  /** The step the walk asks for may follow its log, or it may end there. */
  ghost predicate MayGoOn(g: Graph, past: seq<Record>, l: Local) {
    match Action(g, l)
    case Call(step) => Succeeds(g, past, step)
    case Goto(_) => true
    case Stop => l.pc.Halted? && EndsAfter(g, past, l.pc.end)
  }

  ghost predicate Known(g: Graph, past: seq<Record>, l: Local) {
    Placed(g, past, l) && MayGoOn(g, past, l)
  }

  /** Rounds counted, rounds opened. */
  ghost predicate Numbers(g: Graph, past: seq<Record>, l: Local) {
    && (forall v :: Opened(past, v) == CountOf(l.trail, v) + if RowOpen(l.pc) && l.current == v then 1 else 0)
    && (forall v :: RoundsTold(g, past, l, v))
  }

  predicate RoundsTold(g: Graph, past: seq<Record>, l: Local, v: NodeId) {
    || Rounds(l, v) <= Opened(past, v) + (if l.pc.Opening? && l.current == v then 1 else 0)
    || Opened(past, v) >= LoopLimitFor(g.edges, v, g.maxReviewIterations)
  }

  ghost predicate Told(g: Graph, past: seq<Record>, l: Local) {
    Known(g, past, l) && Numbers(g, past, l) && l.hasSpec == SpecRecorded(past)
  }
}
