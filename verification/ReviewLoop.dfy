/** The review-loop team (PM, PRD gate, Engineer, Reviewer, escalation gate) driven by a forced
    number of revisions: the durable outcome, whatever crashes. */
module ReviewLoop {
  import opened Common
  import opened TeamGraph
  import opened RunTables
  import opened RunWalk
  import opened CrashReplay
  import opened WalkTables
  import opened ExactlyOnce

  const PM: NodeId := 0
  const PRD_GATE: NodeId := 1
  const ENGINEER: NodeId := 2
  const REVIEWER: NodeId := 3
  const ESCALATION: NodeId := 4
  const SHIP: NodeId := 5
  const STOP: NodeId := 6

  function TeamEdges(limit: nat): seq<Edge> {
    [Edge(PM, PRD_GATE, Work, None, None),
     Edge(PRD_GATE, ENGINEER, Work, Some(Approved), None),
     Edge(PRD_GATE, STOP, Work, Some(Rejected), None),
     Edge(ENGINEER, REVIEWER, Review, None, None),
     Edge(REVIEWER, ENGINEER, Review, None, Some(limit)),
     Edge(REVIEWER, SHIP, Review, Some(Approved), None),
     Edge(ENGINEER, ESCALATION, Escalation, None, None),
     Edge(ESCALATION, SHIP, Work, Some(Approved), None),
     Edge(ESCALATION, STOP, Work, Some(Rejected), None)]
  }

  function Team(limit: nat): Graph {
    Graph(
      map[PM := Agent(false), PRD_GATE := Gate, ENGINEER := Agent(true), REVIEWER := Agent(false),
          ESCALATION := Gate, SHIP := ShipEnd, STOP := StopEnd],
      TeamEdges(limit), PM, limit)
  }

  lemma {:induction false} TeamRoutes(limit: nat)
    ensures
      var es := TeamEdges(limit);
      && NextNode(es, PM, None) == Some(PRD_GATE)
      && NextNode(es, PRD_GATE, Some(Approved)) == Some(ENGINEER)
      && NextNode(es, ENGINEER, None) == Some(REVIEWER)
      && NextNode(es, REVIEWER, Some(ChangesRequested)) == Some(ENGINEER)
      && NextNode(es, REVIEWER, Some(Approved)) == Some(SHIP)
      && NextNode(es, ESCALATION, Some(Approved)) == Some(SHIP)
  {
    var es := TeamEdges(limit);
    NextNodeFollowsChosen(es, 0, PM, None);
    NextNodeFollowsChosen(es, 3, ENGINEER, None);
    NextNodeFollowsChosen(es, 4, REVIEWER, Some(ChangesRequested));
    assert Matches(es[1], PRD_GATE, Some(Approved)) && Matches(es[5], REVIEWER, Some(Approved)) && Matches(es[7], ESCALATION, Some(Approved));
    NextNodeFollowsChosen(es, 1, PRD_GATE, Some(Approved));
    NextNodeFollowsChosen(es, 5, REVIEWER, Some(Approved));
    NextNodeFollowsChosen(es, 7, ESCALATION, Some(Approved));
  }

  /** Either gate, rejected, leads to the stop. */
  lemma {:induction false} TeamRejects(limit: nat)
    ensures NextNode(TeamEdges(limit), PRD_GATE, Some(Rejected)) == Some(STOP)
    ensures NextNode(TeamEdges(limit), ESCALATION, Some(Rejected)) == Some(STOP)
  {
    var es := TeamEdges(limit);
    assert Matches(es[2], PRD_GATE, Some(Rejected)) && Matches(es[8], ESCALATION, Some(Rejected));
    NextNodeFollowsChosen(es, 2, PRD_GATE, Some(Rejected));
    NextNodeFollowsChosen(es, 8, ESCALATION, Some(Rejected));
  }

  lemma {:induction false} TeamEscapes(limit: nat)
    ensures
      var es := TeamEdges(limit);
      && EscalationTarget(es, ENGINEER) == Some(ESCALATION)
      && EscalationTarget(es, PM) == None && EscalationTarget(es, REVIEWER) == None
  {
    EscalationAt(TeamEdges(limit), 6, ENGINEER);
    EscalationAt(TeamEdges(limit), 9, PM);
    EscalationAt(TeamEdges(limit), 9, REVIEWER);
  }

  lemma {:induction false} TeamLimit(limit: nat)
    ensures LoopLimitFor(TeamEdges(limit), ENGINEER, limit) == limit
  {
    LimitAt(TeamEdges(limit), 4, ENGINEER, limit);
  }

  lemma {:induction false} TeamEmits(limit: nat)
    ensures
      var es := TeamEdges(limit);
      EmitsOutcome(es, REVIEWER) && !EmitsOutcome(es, PM) && !EmitsOutcome(es, ENGINEER)
  {
    EmitsIff(TeamEdges(limit), PM);
    EmitsIff(TeamEdges(limit), ENGINEER);
    EmitsIff(TeamEdges(limit), REVIEWER);
    assert TeamEdges(limit)[5].source == REVIEWER;
  }

  /** All the walk needs to know of the team: its kinds, routes, escape and cap. */
  ghost predicate LoopTeam(g: Graph, limit: nat) {
    && g.start == PM
    && g.nodes == map[PM := Agent(false), PRD_GATE := Gate, ENGINEER := Agent(true), REVIEWER := Agent(false),
                      ESCALATION := Gate, SHIP := ShipEnd, STOP := StopEnd]
    && NextNode(g.edges, PM, None) == Some(PRD_GATE)
    && NextNode(g.edges, PRD_GATE, Some(Approved)) == Some(ENGINEER)
    && NextNode(g.edges, ENGINEER, None) == Some(REVIEWER)
    && NextNode(g.edges, REVIEWER, Some(ChangesRequested)) == Some(ENGINEER)
    && NextNode(g.edges, REVIEWER, Some(Approved)) == Some(SHIP)
    && NextNode(g.edges, ESCALATION, Some(Approved)) == Some(SHIP)
    && EscalationTarget(g.edges, ENGINEER) == Some(ESCALATION)
    && EscalationTarget(g.edges, PM) == None && EscalationTarget(g.edges, REVIEWER) == None
    && LoopLimitFor(g.edges, ENGINEER, g.maxReviewIterations) == limit
    && EmitsOutcome(g.edges, REVIEWER) && !EmitsOutcome(g.edges, PM) && !EmitsOutcome(g.edges, ENGINEER)
  }

  lemma {:induction false} TeamIsLoop(limit: nat)
    ensures LoopTeam(Team(limit), limit)
  {
    TeamRoutes(limit);
    TeamEscapes(limit);
    TeamLimit(limit);
    TeamEmits(limit);
  }

  // ----- the script: what each round brings, and the visits it leads to -----

  /** The Reviewer is forced to ask for changes in its first `revisions` rounds, gates are approved
      automatically, there is no budget cap; the agents' usage, workspaces and hashes are free. */
  datatype Script = Script(revisions: nat, limit: nat)

  predicate Escalates(sc: Script) {
    sc.revisions + 1 > sc.limit
  }

  /** How many rounds the Engineer and the Reviewer work. */
  function WorkRounds(sc: Script): nat {
    if Escalates(sc) then sc.limit else sc.revisions + 1
  }

  /** The index of the ship visit: PM, gate, the rounds, perhaps the escalation gate. */
  function LastVisit(sc: Script): nat {
    2 + 2 * WorkRounds(sc) + if Escalates(sc) then 1 else 0
  }

  function NodeAt(sc: Script, i: nat): NodeId {
    if i == 0 then PM
    else if i == 1 then PRD_GATE
    else if i < 2 + 2 * WorkRounds(sc) then (if i % 2 == 0 then ENGINEER else REVIEWER)
    else if i == LastVisit(sc) then SHIP
    else ESCALATION
  }

  function RoundAt(sc: Script, i: nat): nat {
    if 2 <= i < 2 + 2 * WorkRounds(sc) then i / 2 else 1
  }

  function VerdictAt(sc: Script, n: nat): Label {
    if n <= sc.revisions then ChangesRequested else Approved
  }

  function OutcomeAt(sc: Script, i: nat): Outcome {
    var v := NodeAt(sc, i);
    if v == PM then PrdWritten
    else if v == ENGINEER then Built
    else if v == REVIEWER then Verdict(VerdictAt(sc, RoundAt(sc, i)))
    else if v == SHIP then Shipped
    else Verdict(Approved)
  }

  function RouteAt(sc: Script, i: nat): Option<Label> {
    var v := NodeAt(sc, i);
    if v == REVIEWER then Some(VerdictAt(sc, RoundAt(sc, i)))
    else if v == PRD_GATE || v == ESCALATION then Some(Approved)
    else None
  }

  predicate Spends(v: NodeId) {
    v == PM || v == ENGINEER
  }

  predicate IsAgent(v: NodeId) {
    v == PM || v == ENGINEER || v == REVIEWER
  }

  predicate NonZero(u: Usage) {
    u.tokens != 0 || u.cost != 0
  }

  predicate FitsResult(sc: Script, v: NodeId, n: nat, r: AgentResult) {
    && r.status == CompletedAgent
    && (v == PM ==> r.verdict == None && r.report && NonZero(r.usage))
    && (v == ENGINEER ==> r.verdict == None && NonZero(r.usage))
    && (v == REVIEWER ==> r.verdict == Some(VerdictAt(sc, n)) && !NonZero(r.usage))
  }

  predicate FitsOut(sc: Script, step: Step, out: Output) {
    match step
    case RunAgent(v, n, _) => out.AgentOut? && FitsResult(sc, v, n, out.result)
    case AutoResolve(_) => out == Answer(Some(Approved))
    case BudgetCheck => out == Flag(false)
    case _ => true
  }

  // ----- where the walk stands -----

  ghost predicate TrailFits(sc: Script, trail: seq<Visit>) {
    forall i | 0 <= i < |trail| ::
      && trail[i].node == NodeAt(sc, i) && trail[i].n == RoundAt(sc, i)
      && trail[i].status == Done && trail[i].outcome == Some(OutcomeAt(sc, i))
      && (trail[i].paid.Some? <==> Spends(trail[i].node))
  }

  predicate Here(sc: Script, l: Local) {
    |l.trail| <= LastVisit(sc) && l.current == NodeAt(sc, |l.trail|) && l.n == RoundAt(sc, |l.trail|)
  }

  function ThenAt(sc: Script, i: nat): Then {
    var v := NodeAt(sc, i);
    if IsAgent(v) then ThenBudget(RouteAt(sc, i)) else if v == SHIP then ThenHalt(Completed) else ThenRoute(Some(Approved))
  }

  /** Standing at the Engineer although its rounds are used up: the cap guard comes next. */
  predicate AtCap(sc: Script, l: Local) {
    Escalates(sc) && |l.trail| == 2 + 2 * WorkRounds(sc) && l.current == ENGINEER
  }

  predicate Standing(sc: Script, l: Local) {
    var k := |l.trail|;
    match l.pc
    case Arriving => k <= LastVisit(sc) && (l.current == NodeAt(sc, k) || AtCap(sc, l))
    case Opening => Here(sc, l) && l.paid.None?
    case Running => Here(sc, l) && IsAgent(l.current) && l.paid.None?
    case Spending(r) => Here(sc, l) && IsAgent(l.current) && FitsResult(sc, l.current, l.n, r) && l.paid.None?
    case Specifying => Here(sc, l) && l.current == PM && l.paid.Some? && l.verdict.None?
    case Closing(status, outcome, then_) =>
      && Here(sc, l) && status == Done && outcome == Some(OutcomeAt(sc, k)) && then_ == ThenAt(sc, k)
      && (l.paid.Some? <==> Spends(l.current))
    case Budgeting(route) => 0 < k <= LastVisit(sc) && l.current == NodeAt(sc, k - 1) && IsAgent(l.current) && route == RouteAt(sc, k - 1)
    case GateOpening(ask) => Here(sc, l) && ask == AtGate && (l.current == PRD_GATE || l.current == ESCALATION) && l.paid.None?
    case AutoAsking(ask) => Here(sc, l) && ask == AtGate && (l.current == PRD_GATE || l.current == ESCALATION) && l.paid.None?
    case GateClosing(ask, resolution) =>
      Here(sc, l) && ask == AtGate && resolution == Approved && (l.current == PRD_GATE || l.current == ESCALATION) && l.paid.None?
    case Shipping => Here(sc, l) && l.current == SHIP && l.paid.None?
    case Finalizing(end) => Here(sc, l) && l.current == SHIP && end == Completed && l.paid.None?
    case Halted(end) => (end == Completed && k == LastVisit(sc) + 1) || (end == ShipRefused && k == LastVisit(sc))
    case _ => false
  }

  /** Rounds the closed visits stand for. */
  function ClosedRounds(sc: Script, v: NodeId, k: nat): nat {
    if v == PM then (if k > 0 then 1 else 0)
    else if v == PRD_GATE then (if k > 1 then 1 else 0)
    else if v == ENGINEER then (if k <= 2 then 0 else if k < 2 + 2 * WorkRounds(sc) then (k - 1) / 2 else WorkRounds(sc))
    else if v == REVIEWER then (if k <= 2 then 0 else if k < 2 + 2 * WorkRounds(sc) then (k - 2) / 2 else WorkRounds(sc))
    else 0
  }

  predicate Counted(sc: Script, l: Local, v: NodeId) {
    Rounds(l, v) == ClosedRounds(sc, v, |l.trail|) + if Visiting(l.pc) && l.current == v then 1 else 0
  }

  /** Until the walk leaves the loop, entries are the closed rounds plus the open one; the escalation
      gate is entered once. */
  predicate CountsFit(sc: Script, l: Local) {
    if l.current == SHIP then true
    else if l.current == ESCALATION then Rounds(l, ESCALATION) == if Visiting(l.pc) then 1 else 0
    else Counted(sc, l, PM) && Counted(sc, l, PRD_GATE) && Counted(sc, l, ENGINEER) && Counted(sc, l, REVIEWER)
         && Rounds(l, ESCALATION) == 0
  }

  ghost predicate OnScript(sc: Script, l: Local) {
    TrailFits(sc, l.trail) && Standing(sc, l) && CountsFit(sc, l)
  }

  lemma {:induction false} BootOnScript(g: Graph, sc: Script)
    requires LoopTeam(g, sc.limit)
    ensures OnScript(sc, Boot(g))
  {
  }

  /** The next entry of a looping node is the round its place in the script calls for. */
  lemma {:induction false} RoundsLineUp(sc: Script, k: nat)
    requires k <= LastVisit(sc) && NodeAt(sc, k) != SHIP && NodeAt(sc, k) != ESCALATION
    ensures RoundAt(sc, k) == ClosedRounds(sc, NodeAt(sc, k), k) + 1
    ensures NodeAt(sc, k) == ENGINEER ==> RoundAt(sc, k) <= sc.limit
  {
  }

  lemma {:induction false} ClosedRoundsStep(sc: Script, k: nat, v: NodeId)
    requires k <= LastVisit(sc) && v in {PM, PRD_GATE, ENGINEER, REVIEWER}
    ensures ClosedRounds(sc, v, k + 1) == ClosedRounds(sc, v, k) + if NodeAt(sc, k) == v then 1 else 0
  {
  }

  function Entered(l: Local): Local {
    var n := Rounds(l, l.current) + 1;
    l.(rounds := l.rounds[l.current := n], n := n, verdict := None, paid := None, pc := Opening)
  }

  lemma {:induction false} TeamEnter(g: Graph, limit: nat, l: Local)
    requires LoopTeam(g, limit)
    requires l.current in {PM, PRD_GATE, ENGINEER, REVIEWER, ESCALATION}
    requires l.current == ENGINEER ==> Rounds(l, ENGINEER) < limit
    ensures Arrive(g, l) == Entered(l)
  {
  }

  lemma {:induction false} TeamCapped(g: Graph, limit: nat, l: Local)
    requires LoopTeam(g, limit)
    requires l.current == ENGINEER && Rounds(l, ENGINEER) >= limit
    ensures Arrive(g, l) == Entered(l).(current := ESCALATION, pc := l.pc)
  {
  }

  lemma {:induction false} EnterOnScript(sc: Script, l: Local)
    requires OnScript(sc, l) && l.pc.Arriving? && l.current != SHIP && !AtCap(sc, l)
    ensures OnScript(sc, Entered(l))
    ensures l.current == ENGINEER ==> Rounds(l, ENGINEER) < sc.limit
  {
    if l.current != ESCALATION {
      RoundsLineUp(sc, |l.trail|);
    }
  }

  lemma {:induction false} CapOnScript(sc: Script, l: Local)
    requires OnScript(sc, l) && l.pc.Arriving? && AtCap(sc, l)
    ensures OnScript(sc, Entered(l).(current := ESCALATION, pc := l.pc))
    ensures Rounds(l, ENGINEER) >= sc.limit
  {
    assert Rounds(l, ENGINEER) == WorkRounds(sc);
  }

  lemma {:induction false} ArriveOnScript(g: Graph, sc: Script, l: Local)
    requires LoopTeam(g, sc.limit)
    requires OnScript(sc, l) && l.pc.Arriving?
    ensures OnScript(sc, Arrive(g, l))
  {
    if l.current == SHIP {
      assert Arrive(g, l) == l.(n := 1, verdict := None, paid := None, pc := Opening);
    } else if AtCap(sc, l) {
      CapOnScript(sc, l);
      TeamCapped(g, sc.limit, l);
    } else {
      EnterOnScript(sc, l);
      TeamEnter(g, sc.limit, l);
    }
  }

  /** Every outcome of the script leads to the next visit, or back to the Engineer at its cap. */
  lemma {:induction false} ScriptRoutes(g: Graph, sc: Script, k: nat)
    requires LoopTeam(g, sc.limit) && k < LastVisit(sc)
    ensures
      NextNode(g.edges, NodeAt(sc, k), RouteAt(sc, k)) ==
      Some(if Escalates(sc) && k + 1 == 2 + 2 * WorkRounds(sc) then ENGINEER else NodeAt(sc, k + 1))
  {
    if NodeAt(sc, k) == REVIEWER {
      assert k == 2 * RoundAt(sc, k) + 1;
    }
  }

  lemma {:induction false} FollowOnScript(g: Graph, sc: Script, l: Local)
    requires LoopTeam(g, sc.limit)
    requires TrailFits(sc, l.trail) && 0 < |l.trail| <= LastVisit(sc) && l.current == NodeAt(sc, |l.trail| - 1)
    requires (l.current != ESCALATION ==> CountsFit(sc, l)) && !Visiting(l.pc)
    ensures OnScript(sc, Follow(g, l, RouteAt(sc, |l.trail| - 1)))
  {
    ScriptRoutes(g, sc, |l.trail| - 1);
    var next := if Escalates(sc) && |l.trail| == 2 + 2 * WorkRounds(sc) then ENGINEER else NodeAt(sc, |l.trail|);
    assert Follow(g, l, RouteAt(sc, |l.trail| - 1)) == l.(current := next, pc := Arriving);
  }

  lemma {:induction false} OpeningOnScript(g: Graph, sc: Script, l: Local, out: Output)
    requires LoopTeam(g, sc.limit)
    requires OnScript(sc, l) && l.pc.Opening?
    ensures OnScript(sc, Advance(g, l, out))
  {
    var pc := if IsAgent(l.current) then Running else if l.current == SHIP then Shipping else GateOpening(AtGate);
    assert Advance(g, l, out) == l.(pc := pc);
  }

  lemma {:induction false} RunningOnScript(g: Graph, sc: Script, l: Local, r: AgentResult)
    requires LoopTeam(g, sc.limit)
    requires OnScript(sc, l) && l.pc.Running? && FitsResult(sc, l.current, l.n, r)
    ensures OnScript(sc, Advance(g, l, AgentOut(r)))
  {
    assert Advance(g, l, AgentOut(r)) == l.(pc := Spending(r));
  }

  lemma {:induction false} StoredOnScript(g: Graph, sc: Script, l: Local)
    requires LoopTeam(g, sc.limit)
    requires Here(sc, l) && IsAgent(l.current)
    requires l.verdict == RouteAt(sc, |l.trail|)
    ensures AgentDone(g, l) ==
            l.(pc := Closing(Done, Some(OutcomeAt(sc, |l.trail|)), ThenAt(sc, |l.trail|)))
  {
  }

  lemma {:induction false} SpentOnScript(g: Graph, sc: Script, l: Local, r: AgentResult)
    requires LoopTeam(g, sc.limit)
    requires OnScript(sc, l.(paid := None)) && l.pc == Spending(r)
    requires l.paid.Some? <==> Spends(l.current)
    ensures OnScript(sc, AfterSpending(g, l, r))
  {
    var heard := l.(verdict := r.verdict);
    if l.current != PM {
      StoredOnScript(g, sc, heard);
      assert AfterSpending(g, l, r) == AgentDone(g, heard);
    } else {
      assert AfterSpending(g, l, r) == heard.(pc := Specifying);
    }
  }

  lemma {:induction false} SpecOnScript(g: Graph, sc: Script, l: Local, out: Output)
    requires LoopTeam(g, sc.limit)
    requires OnScript(sc, l) && l.pc.Specifying?
    ensures OnScript(sc, Advance(g, l, out))
  {
    StoredOnScript(g, sc, l.(hasSpec := true));
  }

  lemma {:induction false} ClosedTrail(sc: Script, l: Local, x: Visit)
    requires OnScript(sc, l) && l.pc.Closing?
    requires x == Visit(l.current, l.n, Done, Some(OutcomeAt(sc, |l.trail|)), l.paid)
    ensures TrailFits(sc, l.trail + [x])
  {
  }

  lemma {:induction false} ClosedOnScript(g: Graph, sc: Script, l: Local)
    requires LoopTeam(g, sc.limit)
    requires OnScript(sc, l) && l.pc.Closing?
    ensures OnScript(sc, Advance(g, l, Nothing))
  {
    var k := |l.trail|;
    var x := Visit(l.current, l.n, Done, Some(OutcomeAt(sc, k)), l.paid);
    var closed := l.(trail := l.trail + [x]);
    ClosedTrail(sc, l, x);
    if l.current != SHIP {
      var after := closed.(pc := Budgeting(RouteAt(sc, k)));
      if l.current != ESCALATION {
        ClosedCounts(sc, l, after);
      }
      if IsAgent(l.current) {
        assert Advance(g, l, Nothing) == after;
      } else {
        FollowOnScript(g, sc, after);
        assert Advance(g, l, Nothing) == Follow(g, after, RouteAt(sc, k));
      }
    }
  }

  lemma {:induction false} ClosedCounts(sc: Script, l: Local, l': Local)
    requires CountsFit(sc, l) && Visiting(l.pc) && l.current == NodeAt(sc, |l.trail|) && |l.trail| <= LastVisit(sc)
    requires l'.current == l.current && l'.rounds == l.rounds && |l'.trail| == |l.trail| + 1 && !Visiting(l'.pc)
    requires l.current != SHIP && l.current != ESCALATION
    ensures CountsFit(sc, l')
  {
    ClosedRoundsStep(sc, |l.trail|, PM);
    ClosedRoundsStep(sc, |l.trail|, PRD_GATE);
    ClosedRoundsStep(sc, |l.trail|, ENGINEER);
    ClosedRoundsStep(sc, |l.trail|, REVIEWER);
  }

  lemma {:induction false} EndOnScript(g: Graph, sc: Script, l: Local, out: Output)
    requires LoopTeam(g, sc.limit)
    requires OnScript(sc, l) && (l.pc.Shipping? || l.pc.Finalizing?)
    ensures OnScript(sc, Advance(g, l, out))
  {
    if l.pc.Finalizing? {
      assert Advance(g, l, out) == l.(pc := Closing(Done, Some(Shipped), ThenHalt(Completed)));
    }
  }

  lemma {:induction false} GateOnScript(g: Graph, sc: Script, l: Local, step: Step, out: Output)
    requires LoopTeam(g, sc.limit)
    requires OnScript(sc, l) && (l.pc.GateOpening? || l.pc.AutoAsking? || l.pc.GateClosing?)
    requires Action(g, l) == Call(step) && FitsOut(sc, step, out)
    ensures OnScript(sc, Advance(g, l, out))
  {
    var l' := Advance(g, l, out);
    assert l' == l.(pc := l'.pc);
  }

  lemma {:induction false} AgentOnScript(g: Graph, sc: Script, l: Local, step: Step, out: Output)
    requires LoopTeam(g, sc.limit)
    requires OnScript(sc, l) && (l.pc.Running? || l.pc.Spending? || l.pc.Specifying? || l.pc.Budgeting?)
    requires Action(g, l) == Call(step) && FitsOut(sc, step, out)
    ensures OnScript(sc, Advance(g, l, out))
  {
    match l.pc
    case Running => RunningOnScript(g, sc, l, out.result);
    case Spending(r) => SpentOnScript(g, sc, l.(paid := Some(r.usage)), r);
    case Specifying => SpecOnScript(g, sc, l, out);
    case Budgeting(route) => FollowOnScript(g, sc, l);
    case _ =>
  }

  lemma {:induction false} CallOnScript(g: Graph, sc: Script, l: Local, step: Step, out: Output)
    requires LoopTeam(g, sc.limit)
    requires OnScript(sc, l) && Action(g, l) == Call(step) && FitsOut(sc, step, out)
    ensures OnScript(sc, Advance(g, l, out))
  {
    if l.pc.Opening? {
      OpeningOnScript(g, sc, l, out);
    } else if l.pc.Closing? {
      ClosedOnScript(g, sc, l);
      assert Advance(g, l, out) == Advance(g, l, Nothing);
    } else if l.pc.Running? || l.pc.Spending? || l.pc.Specifying? || l.pc.Budgeting? {
      AgentOnScript(g, sc, l, step, out);
    } else if l.pc.Shipping? || l.pc.Finalizing? {
      EndOnScript(g, sc, l, out);
    } else {
      GateOnScript(g, sc, l, step, out);
    }
  }

  lemma {:induction false} GotoOnScript(g: Graph, sc: Script, l: Local)
    requires LoopTeam(g, sc.limit)
    requires OnScript(sc, l) && Action(g, l).Goto?
    ensures OnScript(sc, Action(g, l).next)
  {
    if l.pc.Arriving? {
      ArriveOnScript(g, sc, l);
    } else {
      SpentOnScript(g, sc, l, l.pc.result);
    }
  }

  // ----- schedules on the script -----

  /** What an execution may bring on the script, whenever it happens and however often. */
  predicate FitsLuck(sc: Script, step: Step, luck: Luck) {
    match step
    case RunAgent(v, n, _) =>
      && luck.result.status == CompletedAgent && luck.attempted == Spends(v)
      && (v == PM ==> luck.result.report)
      && (Spends(v) ==> NonZero(luck.result.usage))
      && (v == REVIEWER ==> luck.result.verdict == Some(VerdictAt(sc, n)) && !NonZero(luck.result.usage))
    case AutoResolve(_) => luck.auto == Some(Approved)
    case _ => true
  }

  /** Every execution the schedule starts is on the script; crashes fall anywhere. */
  ghost predicate FollowsScript(g: Graph, sc: Script, events: seq<Event>) {
    events == [] ||
    var before := events[..|events| - 1];
    var last := events[|events| - 1];
    && FollowsScript(g, sc, before)
    && (last.Begin? ==>
          var act := Action(g, After(WalkOf(g), None, before).local);
          act.Call? ==> FitsLuck(sc, act.step, last.luck))
  }

  ghost predicate AllFit(sc: Script, history: seq<Entry>) {
    forall e | e in history :: FitsLuck(sc, e.step, e.luck)
  }

  ghost predicate BodyFits(g: Graph, sc: Script, s: System) {
    s.exec.Body? ==> Action(g, s.local).Call? && FitsLuck(sc, Action(g, s.local).step, s.exec.luck)
  }

  lemma {:induction false} BodyStaysFit(g: Graph, sc: Script, s: System, e: Event)
    requires BodyFits(g, sc, s)
    requires e.Begin? && Action(g, s.local).Call? ==> FitsLuck(sc, Action(g, s.local).step, e.luck)
    ensures BodyFits(g, sc, Happen(WalkOf(g), s, e))
  {
    var p := WalkOf(g);
    assert p.act(s.local) == Action(g, s.local);
    if e.Move? && !s.exec.Idle? {
      assert Happen(p, s, e) == s;
    }
  }

  lemma {:induction false} ScriptStep(g: Graph, sc: Script, s: System, e: Event, w: Witness) returns (w': Witness)
    requires Explained(WalkOf(g), None, s, w) && AllFit(sc, w.history) && BodyFits(g, sc, s)
    ensures Explained(WalkOf(g), None, Happen(WalkOf(g), s, e), w') && AllFit(sc, w'.history)
    ensures w'.lost == w.lost + if e.Crash? && Attempting(WalkOf(g), s) then 1 else 0
  {
    w' := HappenExplained(WalkOf(g), None, s, e, w);
    if w'.history != w.history {
      var step := Action(g, s.local).step;
      SettleFits(sc, step, w.prior, s.exec.luck);
      assert forall x | x in w'.history :: x in w.history || FitsLuck(sc, x.step, x.luck);
    }
  }

  lemma {:induction false} ScriptExplained(g: Graph, sc: Script, events: seq<Event>) returns (w: Witness)
    requires FollowsScript(g, sc, events)
    ensures
      var s := After(WalkOf(g), None, events);
      && Explained(WalkOf(g), None, s, w) && w.lost == LostAttempts(WalkOf(g), None, events)
      && AllFit(sc, w.history) && BodyFits(g, sc, s)
  {
    if events == [] {
      w := ScheduleExplained(WalkOf(g), None, events);
      assert w.history == [];
    } else {
      var before, last := events[..|events| - 1], events[|events| - 1];
      var w0 := ScriptExplained(g, sc, before);
      var s := After(WalkOf(g), None, before);
      w := ScriptStep(g, sc, s, last, w0);
      BodyStaysFit(g, sc, s, last);
    }
  }

  lemma {:induction false} SettleFits(sc: Script, step: Step, prior: Luck, luck: Luck)
    requires FitsLuck(sc, step, luck)
    ensures FitsLuck(sc, step, Settle(prior, luck))
  {
  }

  /** No step ever sets a budget cap. */
  lemma {:induction false} CapKept(cap: Option<nat>, history: seq<Entry>)
    ensures TablesAfter(cap, history).run.cap == cap
  {
    if history != [] {
      var last := history[|history| - 1];
      CapKept(cap, history[..|history| - 1]);
      PartialCap(TablesAfter(cap, history[..|history| - 1]), last.step, last.luck, EffectCount(last.step));
    }
  }

  lemma {:induction false} PartialCap(t: Tables, step: Step, luck: Luck, k: nat)
    ensures Partial(t, step, luck, k, 0).run.cap == t.run.cap
  {
    if k > 0 {
      PartialCap(t, step, luck, k - 1);
    }
  }

  /** Agent executions recorded by the time the walk stands at `l`. */
  function AttemptsAt(sc: Script, l: Local): nat {
    ClosedRounds(sc, PM, |l.trail|) + ClosedRounds(sc, ENGINEER, |l.trail|)
    + if (l.pc.Spending? || l.pc.Specifying? || l.pc.Closing?) && Spends(l.current) then 1 else 0
  }

  /** A move that neither runs an agent nor closes a visit. */
  predicate SameAttempts(l: Local, l': Local) {
    && |l'.trail| == |l.trail| && ((l.pc.Spending? || l.pc.Specifying? || l.pc.Closing?) ==> l'.current == l.current)
    && ((l.pc.Spending? || l.pc.Specifying? || l.pc.Closing?) && Spends(l.current) <==>
        (l'.pc.Spending? || l'.pc.Specifying? || l'.pc.Closing?) && Spends(l'.current))
  }

  lemma {:induction false} SpendingAttempts(g: Graph, l: Local, r: AgentResult)
    requires l.pc.Spending? && r.status == CompletedAgent && (l.current == g.start ==> r.report)
    ensures SameAttempts(l, AfterSpending(g, l, r))
  {
  }

  lemma {:induction false} AttemptsMove(g: Graph, sc: Script, l: Local)
    requires LoopTeam(g, sc.limit) && OnScript(sc, l) && Action(g, l).Goto?
    ensures AttemptsAt(sc, Action(g, l).next) == AttemptsAt(sc, l)
  {
    if l.pc.Spending? {
      SpendingAttempts(g, l, l.pc.result);
    } else {
      assert Action(g, l).next.trail == l.trail && Action(g, l).next.pc in {Arriving, Opening, Halted(Errored)};
    }
  }

  lemma {:induction false} ClosingAttempts(g: Graph, sc: Script, l: Local)
    requires OnScript(sc, l) && l.pc.Closing?
    ensures AttemptsAt(sc, Advance(g, l, Nothing)) == AttemptsAt(sc, l)
  {
    AfterCloseStays(g, l.(trail := l.trail + [VisitOf(l)]), l.pc.then_);
    ClosedRoundsStep(sc, |l.trail|, PM);
    ClosedRoundsStep(sc, |l.trail|, ENGINEER);
  }

  lemma {:induction false} QuietAttempts(g: Graph, sc: Script, l: Local, step: Step, out: Output)
    requires LoopTeam(g, sc.limit) && OnScript(sc, l) && Action(g, l) == Call(step) && FitsOut(sc, step, out)
    requires !l.pc.Running? && !l.pc.Closing? && !l.pc.Spending?
    ensures SameAttempts(l, Advance(g, l, out))
  {
    if l.pc.Budgeting? {
      FollowStays(g, l, l.pc.route);
    }
  }

  lemma {:induction false} AttemptsCall(g: Graph, sc: Script, l: Local, step: Step, luck: Luck, out: Output)
    requires LoopTeam(g, sc.limit) && OnScript(sc, l) && Action(g, l) == Call(step)
    requires FitsLuck(sc, step, luck) && FitsOut(sc, step, out)
    ensures AttemptsAt(sc, Advance(g, l, out)) == AttemptsAt(sc, l) + if step.RunAgent? && luck.attempted then 1 else 0
  {
    if l.pc.Closing? {
      ClosingAttempts(g, sc, l);
      assert Advance(g, l, out) == Advance(g, l, Nothing);
    } else if l.pc.Spending? {
      SpendingAttempts(g, l.(paid := Some(l.pc.result.usage)), l.pc.result);
    } else if l.pc.Running? {
      assert Advance(g, l, out) == l.(pc := Spending(out.result));
    } else {
      QuietAttempts(g, sc, l, step, out);
    }
  }

  lemma {:induction false} LuckGivesOut(g: Graph, sc: Script, t: Tables, l: Local, step: Step, luck: Luck)
    requires LoopTeam(g, sc.limit) && OnScript(sc, l) && Action(g, l) == Call(step) && FitsLuck(sc, step, luck)
    requires t.run.cap == None
    ensures FitsOut(sc, step, OutputOf(t, step, luck))
  {
  }

  // ----- progress: every recorded step brings the walk strictly nearer to its end -----

  function Phase(pc: Pc): int {
    match pc
    case Budgeting(_) => -1
    case Running => 1
    case GateOpening(_) => 1
    case Shipping => 1
    case Spending(_) => 2
    case AutoAsking(_) => 2
    case Finalizing(_) => 2
    case Specifying => 3
    case GateClosing(_, _) => 3
    case Closing(_, _, _) => 4
    case Halted(end) => if end.ShipRefused? then 2 else 0
    case _ => 0
  }

  function Rank(l: Local): int {
    10 * |l.trail| + Phase(l.pc)
  }

  lemma {:induction false} SpendingRank(g: Graph, l: Local, r: AgentResult)
    requires l.pc.Spending? && r.status == CompletedAgent && (l.current == g.start ==> r.report)
    ensures Rank(AfterSpending(g, l, r)) > Rank(l)
  {
  }

  lemma {:induction false} ClosingRank(g: Graph, l: Local)
    requires l.pc.Closing? && FinalFits(l.pc)
    ensures Rank(Advance(g, l, Nothing)) > Rank(l)
  {
    AfterCloseStays(g, l.(trail := l.trail + [VisitOf(l)]), l.pc.then_);
  }

  lemma {:induction false} AgentRank(g: Graph, sc: Script, l: Local, step: Step, out: Output)
    requires OnScript(sc, l) && Action(g, l) == Call(step) && FitsOut(sc, step, out)
    requires l.pc.Running? || l.pc.Specifying? || l.pc.Budgeting?
    ensures Rank(Advance(g, l, out)) > Rank(l)
  {
    if l.pc.Budgeting? {
      FollowStays(g, l, l.pc.route);
    } else if l.pc.Running? {
      assert Advance(g, l, out) == l.(pc := Spending(out.result));
    }
  }

  lemma {:induction false} GateRank(g: Graph, sc: Script, l: Local, step: Step, out: Output)
    requires OnScript(sc, l) && Action(g, l) == Call(step) && FitsOut(sc, step, out)
    requires l.pc.GateOpening? || l.pc.AutoAsking? || l.pc.GateClosing?
    ensures Rank(Advance(g, l, out)) > Rank(l)
  {
  }

  lemma {:induction false} EndRank(g: Graph, sc: Script, l: Local, out: Output)
    requires OnScript(sc, l) && (l.pc.Shipping? || l.pc.Finalizing?)
    ensures Rank(Advance(g, l, out)) > Rank(l)
  {
  }

  lemma {:induction false} RankCall(g: Graph, sc: Script, l: Local, step: Step, out: Output)
    requires LoopTeam(g, sc.limit) && OnScript(sc, l) && Action(g, l) == Call(step) && FitsOut(sc, step, out)
    ensures Rank(Advance(g, l, out)) > Rank(l)
  {
    if l.pc.Closing? {
      ClosingRank(g, l);
      assert Advance(g, l, out) == Advance(g, l, Nothing);
    } else if l.pc.Spending? {
      SpendingRank(g, l.(paid := Some(l.pc.result.usage)), l.pc.result);
    } else if l.pc.Running? || l.pc.Specifying? || l.pc.Budgeting? {
      AgentRank(g, sc, l, step, out);
    } else if l.pc.Opening? {
      OpeningOnScript(g, sc, l, out);
      OpeningMoves(g, l, out);
    } else if l.pc.Shipping? || l.pc.Finalizing? {
      EndRank(g, sc, l, out);
    } else {
      GateRank(g, sc, l, step, out);
    }
  }

  lemma {:induction false} RankMove(g: Graph, sc: Script, l: Local)
    requires LoopTeam(g, sc.limit) && OnScript(sc, l) && Action(g, l).Goto?
    ensures Rank(Action(g, l).next) >= Rank(l)
  {
    if l.pc.Spending? {
      SpendingRank(g, l, l.pc.result);
    } else {
      assert Action(g, l).next.trail == l.trail && Action(g, l).next.pc in {Arriving, Opening, Halted(Errored)};
    }
  }

  ghost predicate Along(sc: Script, history: seq<Entry>, l: Local, pos: nat) {
    pos <= |history| && OnScript(sc, l) && RecordedAttempts(history[..pos]) == AttemptsAt(sc, l) && pos <= Rank(l)
  }

  lemma {:induction false} MoveAlong(g: Graph, sc: Script, history: seq<Entry>, l: Local, pos: nat)
    requires LoopTeam(g, sc.limit) && Along(sc, history, l, pos) && Action(g, l).Goto?
    ensures Along(sc, history, Action(g, l).next, pos)
  {
    GotoOnScript(g, sc, l);
    AttemptsMove(g, sc, l);
    RankMove(g, sc, l);
  }

  lemma {:induction false} BootAlong(g: Graph, sc: Script, history: seq<Entry>)
    requires LoopTeam(g, sc.limit)
    ensures Along(sc, history, Boot(g), 0)
  {
    BootOnScript(g, sc);
  }

  /** A run without crashes on the script stays on it, and records one attempt per paying round. */
  lemma {:induction false} OnScriptAlong(g: Graph, sc: Script, history: seq<Entry>, t: nat, l: Local, pos: nat)
    requires LoopTeam(g, sc.limit) && CrashFree(WalkOf(g), None, history) && AllFit(sc, history)
    requires Play(WalkOf(g), LogOf(history), t) == Some((l, pos))
    ensures Along(sc, history, l, pos)
  {
    var p, log := WalkOf(g), LogOf(history);
    var inv := (m: Local, k: nat) => Along(sc, history, m, k);
    BootAlong(g, sc, history);
    forall u: nat, m: Local, k: nat, m': Local, k': nat
      | Play(p, log, u) == Some((m, k)) && inv(m, k) && Moves(p, log, m, k, m', k')
      ensures inv(m', k')
    {
      NextAlong(g, sc, history, u, m, k, m', k');
    }
    PlayInduction(p, log, inv, t, l, pos);
  }

  lemma {:induction false} NextAlong(g: Graph, sc: Script, history: seq<Entry>, t: nat, l: Local, pos: nat, l': Local, pos': nat)
    requires LoopTeam(g, sc.limit) && CrashFree(WalkOf(g), None, history) && AllFit(sc, history)
    requires Play(WalkOf(g), LogOf(history), t) == Some((l, pos)) && Along(sc, history, l, pos)
    requires Moves(WalkOf(g), LogOf(history), l, pos, l', pos')
    ensures Along(sc, history, l', pos')
  {
    assert WalkOf(g).act(l) == Action(g, l);
    if Action(g, l).Goto? {
      MoveAlong(g, sc, history, l, pos);
    } else {
      StepAlong(g, sc, history, t, l, pos);
    }
  }

  lemma {:induction false} StepAlong(g: Graph, sc: Script, history: seq<Entry>, t: nat, l: Local, pos: nat)
    requires LoopTeam(g, sc.limit) && CrashFree(WalkOf(g), None, history) && AllFit(sc, history)
    requires pos < |history| && Play(WalkOf(g), LogOf(history), t) == Some((l, pos)) && Action(g, l).Call?
    requires Along(sc, history, l, pos)
    ensures Along(sc, history, Advance(g, l, history[pos].out), pos + 1)
  {
    var e := history[pos];
    RecordedAtPlace(g, None, history, t, l, pos);
    assert e in history;
    CapKept(None, history[..pos + 1]);
    LuckGivesOut(g, sc, TablesAfter(None, history[..pos + 1]), l, e.step, e.luck);
    assert history[..pos + 1][..pos] == history[..pos];
    EntryAlong(g, sc, history, l, pos, e);
  }

  lemma {:induction false} EntryAlong(g: Graph, sc: Script, history: seq<Entry>, l: Local, pos: nat, e: Entry)
    requires LoopTeam(g, sc.limit) && pos < |history| && e == history[pos] && Along(sc, history, l, pos)
    requires Action(g, l) == Call(e.step) && FitsLuck(sc, e.step, e.luck) && FitsOut(sc, e.step, e.out)
    ensures Along(sc, history, Advance(g, l, e.out), pos + 1)
  {
    CallOnScript(g, sc, l, e.step, e.out);
    AttemptsCall(g, sc, l, e.step, e.luck, e.out);
    RankCall(g, sc, l, e.step, e.out);
    assert history[..pos + 1][..pos] == history[..pos];
  }

  // ----- what the tables then hold -----

  lemma {:induction false} TrailCounts(sc: Script, trail: seq<Visit>, v: NodeId)
    requires TrailFits(sc, trail) && |trail| <= LastVisit(sc) + 1
    ensures v in {PM, PRD_GATE, ENGINEER, REVIEWER} ==> CountOf(trail, v) == ClosedRounds(sc, v, |trail|)
    ensures v == SHIP ==> CountOf(trail, v) == if |trail| == LastVisit(sc) + 1 then 1 else 0
    ensures v == ESCALATION ==> CountOf(trail, v) == if Escalates(sc) && |trail| >= LastVisit(sc) then 1 else 0
    ensures v > SHIP ==> CountOf(trail, v) == 0
  {
    if trail != [] {
      var shorter := trail[..|trail| - 1];
      assert TrailFits(sc, shorter);
      TrailCounts(sc, shorter, v);
      if v in {PM, PRD_GATE, ENGINEER, REVIEWER} {
        ClosedRoundsStep(sc, |shorter|, v);
      }
    }
  }

  lemma {:induction false} TrailRows(sc: Script, trail: seq<Visit>, i: nat)
    requires TrailFits(sc, trail) && Numbered(trail) && i < |trail|
    ensures (NodeAt(sc, i), RoundAt(sc, i)) in Rows(trail)
    ensures Rows(trail)[(NodeAt(sc, i), RoundAt(sc, i))] == Invocation(Done, Some(OutcomeAt(sc, i)))
  {
    var shorter, last := trail[..|trail| - 1], trail[|trail| - 1];
    if i < |trail| - 1 {
      NumberedPrefix(trail);
      assert TrailFits(sc, shorter);
      TrailRows(sc, shorter, i);
      RowKeys(shorter, last.node, last.n);
    }
  }

  lemma {:induction false} TrailCosts(sc: Script, trail: seq<Visit>, v: NodeId, n: nat)
    requires TrailFits(sc, trail) && Numbered(trail)
    ensures HasCost(CostRows(trail), v, n) <==> Spends(v) && 1 <= n <= CountOf(trail, v)
    ensures |CostRows(trail)| == CountOf(trail, PM) + CountOf(trail, ENGINEER)
  {
    if trail != [] {
      var shorter, last := trail[..|trail| - 1], trail[|trail| - 1];
      NumberedPrefix(trail);
      assert TrailFits(sc, shorter);
      TrailCosts(sc, shorter, v, n);
      assert last.paid.Some? <==> Spends(last.node);
      var rows := CostRows(trail);
      assert last.paid.Some? ==> rows[|rows| - 1] in rows;
      assert forall row | row in CostRows(shorter) :: row in rows;
    }
  }

  /** What the review loop leaves when it has ended with a ship: the exact invocation rows, cost
      rows and ship of the script. */
  ghost predicate LoopResult(sc: Script, t: Tables) {
    && t.run.status == Ended(Completed) && t.run.total == Some(Spent(t.costs))
    && (forall v: NodeId, n: nat :: (v, n) in t.invocations <==> 1 <= n <= RoundsOf(sc, v))
    && (forall v: NodeId, n: nat | (v, n) in t.invocations :: t.invocations[(v, n)] == Invocation(Done, Some(ResultOf(sc, v, n))))
    && |t.costs| == 1 + WorkRounds(sc)
    && (forall v: NodeId, n: nat :: HasCost(t.costs, v, n) <==> Spends(v) && 1 <= n <= RoundsOf(sc, v))
    && t.repo.tag.Some? && t.run.shipped == t.repo.tag && |t.repo.shipCommits| <= 1
  }

  /** Rounds of each node: the cap cuts the loop exactly when the script asks for more revisions
      than fit below it, and only then the escalation gate is visited. */
  function RoundsOf(sc: Script, v: NodeId): nat {
    if v == PM || v == PRD_GATE || v == SHIP then 1
    else if v == ENGINEER || v == REVIEWER then WorkRounds(sc)
    else if v == ESCALATION && Escalates(sc) then 1
    else 0
  }

  function ResultOf(sc: Script, v: NodeId, n: nat): Outcome {
    if v == PM then PrdWritten
    else if v == ENGINEER then Built
    else if v == REVIEWER then Verdict(if n <= sc.revisions then ChangesRequested else Approved)
    else if v == SHIP then Shipped
    else Verdict(Approved)
  }

  /** The index of round `n` of node `v` in the script. */
  function IndexOf(sc: Script, v: NodeId, n: nat): nat {
    if v == PM then 0 else if v == PRD_GATE then 1
    else if v == ENGINEER then 2 * n else if v == REVIEWER then 2 * n + 1
    else if v == SHIP then LastVisit(sc) else 2 + 2 * WorkRounds(sc)
  }

  lemma {:induction false} IndexFits(sc: Script, v: NodeId, n: nat)
    requires 1 <= n <= RoundsOf(sc, v)
    ensures IndexOf(sc, v, n) <= LastVisit(sc)
    ensures NodeAt(sc, IndexOf(sc, v, n)) == v && RoundAt(sc, IndexOf(sc, v, n)) == n
    ensures OutcomeAt(sc, IndexOf(sc, v, n)) == ResultOf(sc, v, n)
  {
  }

  lemma {:induction false} WholeTrail(sc: Script, trail: seq<Visit>, v: NodeId, n: nat)
    requires TrailFits(sc, trail) && Numbered(trail) && |trail| == LastVisit(sc) + 1
    ensures (v, n) in Rows(trail) <==> 1 <= n <= RoundsOf(sc, v)
    ensures (v, n) in Rows(trail) ==> Rows(trail)[(v, n)] == Invocation(Done, Some(ResultOf(sc, v, n)))
    ensures HasCost(CostRows(trail), v, n) <==> Spends(v) && 1 <= n <= RoundsOf(sc, v)
    ensures |CostRows(trail)| == 1 + WorkRounds(sc)
  {
    TrailCounts(sc, trail, v);
    TrailCounts(sc, trail, PM);
    TrailCounts(sc, trail, ENGINEER);
    RowKeys(trail, v, n);
    TrailCosts(sc, trail, v, n);
    if 1 <= n <= RoundsOf(sc, v) {
      IndexFits(sc, v, n);
      TrailRows(sc, trail, IndexOf(sc, v, n));
    }
  }

  /** The review loop, crashed anywhere and any number of times: when it has ended it either found
      nothing to ship, or left exactly the script's result. The attempt log shows one attempt for
      the PM and for each Engineer round, plus the attempts that crashes lost; the snapshot is the one
      written last, if any was. */
  lemma {:induction false} ReviewLoopOutcome(g: Graph, sc: Script, events: seq<Event>)
    requires LoopTeam(g, sc.limit) && FollowsScript(g, sc, events)
    requires After(WalkOf(g), None, events).local.pc.Halted?
    ensures
      var s := After(WalkOf(g), None, events);
      && (if s.local.pc.end == Completed then LoopResult(sc, s.tables)
          else s.local.pc.end == ShipRefused && s.tables.repo.tree.Untouched? && s.tables.artifact.None?)
      && SnapshotIsLatest(WalkOf(g), None, events)
      && |s.tables.attempts| == 1 + WorkRounds(sc) + LostAttempts(WalkOf(g), None, events)
  {
    var p := WalkOf(g);
    var s := After(p, None, events);
    var trail := s.local.trail;
    var w := ScriptExplained(g, sc, events);
    LoopEnded(g, sc, events, w);
    EndedRunIsExact(g, None, events);
    SnapshotKept(p, None, events);
    if s.local.pc.end == Completed {
      forall v: NodeId, n: nat
        ensures (v, n) in s.tables.invocations <==> 1 <= n <= RoundsOf(sc, v)
        ensures (v, n) in s.tables.invocations ==> s.tables.invocations[(v, n)] == Invocation(Done, Some(ResultOf(sc, v, n)))
        ensures HasCost(s.tables.costs, v, n) <==> Spends(v) && 1 <= n <= RoundsOf(sc, v)
      {
        WholeTrail(sc, trail, v, n);
      }
      WholeTrail(sc, trail, PM, 1);
      AlwaysSafe(g, None, events);
    }
  }

  lemma {:induction false} LoopEnded(g: Graph, sc: Script, events: seq<Event>, w: Witness)
    requires LoopTeam(g, sc.limit) && AllFit(sc, w.history)
    requires Explained(WalkOf(g), None, After(WalkOf(g), None, events), w)
    requires w.lost == LostAttempts(WalkOf(g), None, events)
    requires After(WalkOf(g), None, events).local.pc.Halted?
    ensures
      var s := After(WalkOf(g), None, events);
      && OnScript(sc, s.local)
      && |s.tables.attempts| == 1 + WorkRounds(sc) + LostAttempts(WalkOf(g), None, events)
  {
    var p := WalkOf(g);
    var s := After(p, None, events);
    assert p.act(s.local) == Action(g, s.local);
    ReplayMeetsItsRecord(p, None, events);
    assert s.pos == |w.history|;
    OnScriptAlong(g, sc, w.history, s.moves, s.local, s.pos);
    assert w.history[..s.pos] == w.history;
  }

  lemma {:induction false} RankBound(sc: Script, l: Local)
    requires OnScript(sc, l)
    ensures Rank(l) <= 10 * (LastVisit(sc) + 1)
  {
  }

  /** The log of a scripted run is bounded, whatever crashes: a crash never makes the run longer. */
  lemma {:induction false} ReviewLoopIsBounded(g: Graph, sc: Script, events: seq<Event>)
    requires LoopTeam(g, sc.limit) && FollowsScript(g, sc, events)
    ensures |After(WalkOf(g), None, events).log| <= 10 * (LastVisit(sc) + 1)
  {
    var w := ScriptExplained(g, sc, events);
    var t, l := LastMove(WalkOf(g), None, w.history);
    OnScriptAlong(g, sc, w.history, t, l, |w.history|);
    RankBound(sc, l);
  }
}
