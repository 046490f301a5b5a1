/** What the walk over any team graph writes: every visit of a node has exactly one invocation row
    and at most one cost row, numbered 1, 2, 3, … per node, a capped worker stays within its limit,
    and the run row and the ship agree with where the walk ended. */
module WalkTables {
  import opened Common
  import opened TeamGraph
  import opened RunTables
  import opened RunWalk
  import opened CrashReplay

  // ----- the rows a trail of closed visits stands for -----

  function CountOf(trail: seq<Visit>, v: NodeId): nat {
    if trail == [] then 0
    else CountOf(trail[..|trail| - 1], v) + if trail[|trail| - 1].node == v then 1 else 0
  }

  function Rows(trail: seq<Visit>): map<(NodeId, nat), Invocation> {
    if trail == [] then map[]
    else
      var last := trail[|trail| - 1];
      Rows(trail[..|trail| - 1])[(last.node, last.n) := Invocation(last.status, last.outcome)]
  }

  function CostRows(trail: seq<Visit>): seq<CostRow> {
    if trail == [] then []
    else
      var last := trail[|trail| - 1];
      CostRows(trail[..|trail| - 1]) + if last.paid.Some? then [CostRow(last.node, last.n, last.paid.value)] else []
  }

  /** Each visit carries the next number of its node. */
  ghost predicate Numbered(trail: seq<Visit>) {
    forall i | 0 <= i < |trail| :: trail[i].n == CountOf(trail[..i], trail[i].node) + 1
  }

  lemma {:induction false} NumberedPrefix(trail: seq<Visit>)
    requires Numbered(trail) && trail != []
    ensures Numbered(trail[..|trail| - 1])
    ensures trail[|trail| - 1].n == CountOf(trail[..|trail| - 1], trail[|trail| - 1].node) + 1
  {
    var shorter := trail[..|trail| - 1];
    forall i | 0 <= i < |shorter| ensures shorter[i].n == CountOf(shorter[..i], shorter[i].node) + 1 {
      assert shorter[..i] == trail[..i];
    }
  }

  /** A numbered trail has one invocation row for each of 1..k of each node, and no other. */
  lemma {:induction false} RowKeys(trail: seq<Visit>, v: NodeId, k: nat)
    requires Numbered(trail)
    ensures (v, k) in Rows(trail) <==> 1 <= k <= CountOf(trail, v)
  {
    if trail != [] {
      NumberedPrefix(trail);
      RowKeys(trail[..|trail| - 1], v, k);
    }
  }

  lemma {:induction false} CostKeys(trail: seq<Visit>, v: NodeId, k: nat)
    requires Numbered(trail) && HasCost(CostRows(trail), v, k)
    ensures 1 <= k <= CountOf(trail, v)
  {
    if trail != [] {
      NumberedPrefix(trail);
      var before := CostRows(trail[..|trail| - 1]);
      if HasCost(before, v, k) {
        CostKeys(trail[..|trail| - 1], v, k);
      }
    }
  }

  ghost predicate UniqueCosts(costs: seq<CostRow>) {
    forall i, j | 0 <= i < j < |costs| :: costs[i].node != costs[j].node || costs[i].iteration != costs[j].iteration
  }

  lemma {:induction false} CostsUnique(trail: seq<Visit>)
    requires Numbered(trail)
    ensures UniqueCosts(CostRows(trail))
  {
    if trail != [] {
      NumberedPrefix(trail);
      var last := trail[|trail| - 1];
      var before := CostRows(trail[..|trail| - 1]);
      CostsUnique(trail[..|trail| - 1]);
      if HasCost(before, last.node, last.n) {
        CostKeys(trail[..|trail| - 1], last.node, last.n);
      }
      assert forall row | row in before :: row.node != last.node || row.iteration != last.n;
    }
  }

  // ----- the walk's own bookkeeping -----

  /** The current visit has an open invocation row. */
  predicate RowOpen(pc: Pc) {
    match pc
    case Running => true
    case Spending(_) => true
    case Specifying => true
    case Rescuing(_) => true
    case Closing(_, _, _) => true
    case GateOpening(ask) => ask.AtGate?
    case AutoAsking(ask) => ask.AtGate?
    case Waiting(ask) => ask.AtGate?
    case GateClosing(ask, _) => ask.AtGate?
    case Shipping => true
    case Finalizing(end) => end.Completed? || end.RejectedRun?
    case Halted(end) => end.ShipRefused?
    case _ => false
  }

  predicate Looping(g: Graph, v: NodeId) {
    v in g.nodes && (g.nodes[v].Agent? || g.nodes[v].Gate?)
  }

  predicate KindFits(g: Graph, v: NodeId, pc: Pc) {
    v in g.nodes &&
    match pc
    case Opening => true
    case GateOpening(_) => g.nodes[v].Gate?
    case AutoAsking(_) => g.nodes[v].Gate?
    case Waiting(_) => g.nodes[v].Gate?
    case GateClosing(_, _) => g.nodes[v].Gate?
    case Shipping => g.nodes[v].ShipEnd?
    case Halted(_) => g.nodes[v].ShipEnd?
    case Finalizing(end) => if end.Completed? then g.nodes[v].ShipEnd? else g.nodes[v].StopEnd?
    case Closing(_, _, ThenHalt(end)) =>
      if end.Completed? then g.nodes[v].ShipEnd? else end.RejectedRun? && g.nodes[v].StopEnd?
    case Closing(_, _, ThenRoute(_)) => g.nodes[v].Gate?
    case Closing(_, _, ThenFinalize(end)) => g.nodes[v].Agent? && end.OverBudgetRun?
    case _ => g.nodes[v].Agent?
  }

  predicate Visiting(pc: Pc) {
    pc.Opening? || RowOpen(pc)
  }

  /** The number of entries of `v` is the number of its visits, closed or current; only a worker
      that has been cut off may have been counted once too often. */
  ghost predicate RoundsFit(g: Graph, l: Local, v: NodeId) {
    || Rounds(l, v) == CountOf(l.trail, v) + (if Visiting(l.pc) && l.current == v then 1 else 0)
    || (v in g.nodes && g.nodes[v].Agent? && Capped(g, v, Rounds(l, v)) && !(Visiting(l.pc) && l.current == v))
  }

  ghost predicate WithinCap(g: Graph, trail: seq<Visit>) {
    forall x | x in trail :: x.node in g.nodes && (g.nodes[x.node].Agent? ==> !Capped(g, x.node, x.n))
  }

  /** The ways a walk is finalized. */
  predicate FinalFits(pc: Pc) {
    match pc
    case Finalizing(end) => end.Completed? || end.RejectedRun? || end.OverBudgetRun?
    case Closing(_, _, ThenHalt(end)) => end.Completed? || end.RejectedRun?
    case Closing(_, _, ThenFinalize(end)) => end.OverBudgetRun?
    case _ => true
  }

  ghost predicate LocalOk(g: Graph, l: Local) {
    && Numbered(l.trail) && WithinCap(g, l.trail) && FinalFits(l.pc)
    && (!l.pc.Halted? ==> forall x | x in l.trail :: Looping(g, x.node))
    && (!l.pc.Halted? ==> forall v | Looping(g, v) :: RoundsFit(g, l, v))
    && (Visiting(l.pc) ==>
          && KindFits(g, l.current, l.pc) && l.n == CountOf(l.trail, l.current) + 1
          && (g.nodes[l.current].Agent? ==> !Capped(g, l.current, l.n)))
  }

  function RowsNow(l: Local): map<(NodeId, nat), Invocation> {
    if RowOpen(l.pc) then Rows(l.trail)[(l.current, l.n) := Invocation(InProgress, None)] else Rows(l.trail)
  }

  function CostsNow(l: Local): seq<CostRow> {
    CostRows(l.trail) + if RowOpen(l.pc) && l.paid.Some? then [CostRow(l.current, l.n, l.paid.value)] else []
  }

  lemma {:induction false} CountAppend(trail: seq<Visit>, x: Visit, v: NodeId)
    ensures CountOf(trail + [x], v) == CountOf(trail, v) + if x.node == v then 1 else 0
  {
    assert (trail + [x])[..|trail|] == trail;
  }

  lemma {:induction false} CloseVisit(trail: seq<Visit>, x: Visit)
    requires Numbered(trail) && x.n == CountOf(trail, x.node) + 1
    ensures Numbered(trail + [x])
    ensures Rows(trail + [x]) == Rows(trail)[(x.node, x.n) := Invocation(x.status, x.outcome)]
    ensures CostRows(trail + [x]) == CostRows(trail) + if x.paid.Some? then [CostRow(x.node, x.n, x.paid.value)] else []
  {
    var longer := trail + [x];
    assert longer[..|trail|] == trail;
    forall i | 0 <= i < |longer| ensures longer[i].n == CountOf(longer[..i], longer[i].node) + 1 {
      if i < |trail| {
        assert longer[..i] == trail[..i];
      }
    }
  }

  lemma {:induction false} NoVisitsNoCount(trail: seq<Visit>, v: NodeId)
    requires forall x | x in trail :: x.node != v
    ensures CountOf(trail, v) == 0
  {
    if trail != [] {
      NoVisitsNoCount(trail[..|trail| - 1], v);
    }
  }

  /** Counting one more entry of `l.current` and nothing else. */
  lemma {:induction false} EntryCounted(g: Graph, l: Local, l': Local, v: NodeId)
    requires RoundsFit(g, l, v) && l.pc.Arriving? && l'.trail == l.trail
    requires v != l.current ==> Rounds(l', v) == Rounds(l, v) && !(Visiting(l'.pc) && l'.current == v)
    requires v == l.current ==> Rounds(l', v) == Rounds(l, v) + 1
    requires v == l.current ==> (if Visiting(l'.pc) then l'.current == v && !CappedAgent(g, v, Rounds(l', v)) else CappedAgent(g, v, Rounds(l', v)))
    ensures RoundsFit(g, l', v)
    ensures v == l.current && Visiting(l'.pc) ==> Rounds(l', v) == CountOf(l.trail, v) + 1
  {
  }

  predicate CappedAgent(g: Graph, v: NodeId, n: int) {
    v in g.nodes && g.nodes[v].Agent? && Capped(g, v, n)
  }

  lemma {:induction false} ArriveOk(g: Graph, l: Local)
    requires LocalOk(g, l) && l.pc.Arriving?
    ensures LocalOk(g, Arrive(g, l))
  {
    var l' := Arrive(g, l);
    if l.current in g.nodes {
      if Looping(g, l.current) {
        EntryCounted(g, l, l', l.current);
        forall v | Looping(g, v) ensures RoundsFit(g, l', v) {
          EntryCounted(g, l, l', v);
        }
      } else {
        NoVisitsNoCount(l.trail, l.current);
        forall v | Looping(g, v) ensures RoundsFit(g, l', v) {
          assert RoundsFit(g, l, v);
        }
      }
    }
  }

  /** Closing a visit keeps the bookkeeping, wherever the walk goes next. */
  lemma {:induction false} ClosedOk(g: Graph, l: Local, x: Visit, l': Local)
    requires LocalOk(g, l) && Visiting(l.pc) && !Visiting(l'.pc) && x.node == l.current && x.n == l.n
    requires l'.trail == l.trail + [x] && l'.rounds == l.rounds
    requires FinalFits(l'.pc) && (l'.pc.Halted? || Looping(g, l.current))
    ensures LocalOk(g, l')
  {
    assert Numbered(l'.trail) by {
      CloseVisit(l.trail, x);
    }
    assert forall y | y in l'.trail :: y in l.trail || y == x;
    if !l'.pc.Halted? {
      forall v | Looping(g, v) ensures RoundsFit(g, l', v) {
        ClosedRounds(g, l, x, l', v);
      }
    }
  }

  lemma {:induction false} ClosedRounds(g: Graph, l: Local, x: Visit, l': Local, v: NodeId)
    requires RoundsFit(g, l, v) && Visiting(l.pc) && !Visiting(l'.pc) && x.node == l.current
    requires l'.trail == l.trail + [x] && l'.rounds == l.rounds
    ensures RoundsFit(g, l', v)
  {
    CountAppend(l.trail, x, v);
  }

  function VisitOf(l: Local): Visit
    requires l.pc.Closing?
  {
    Visit(l.current, l.n, l.pc.status, l.pc.outcome, l.paid)
  }

  ghost predicate Leaves(g: Graph, l: Local, l': Local)
    requires l.pc.Closing?
  {
    && l'.trail == l.trail + [VisitOf(l)] && l'.rounds == l.rounds && !Visiting(l'.pc)
    && FinalFits(l'.pc) && (l'.pc.Halted? || Looping(g, l.current))
  }

  lemma {:induction false} FollowStays(g: Graph, l: Local, route: Option<Label>)
    ensures
      var l' := Follow(g, l, route);
      l'.trail == l.trail && l'.rounds == l.rounds && (l'.pc.Arriving? || l'.pc.Lost?)
  {
  }

  lemma {:induction false} AfterCloseStays(g: Graph, l: Local, then_: Then)
    requires then_.ThenFinalize? ==> then_.end.OverBudgetRun?
    requires then_.ThenHalt? ==> !then_.end.ShipRefused?
    ensures
      var l' := AfterClose(g, l, then_);
      FinalFits(l'.pc) && l'.trail == l.trail && l'.rounds == l.rounds && !Visiting(l'.pc) && (l'.pc.Halted? ==> then_.ThenHalt?)
  {
    if then_.ThenRoute? {
      FollowStays(g, l, then_.route);
    }
  }

  lemma {:induction false} CloseLeaves(g: Graph, l: Local)
    requires LocalOk(g, l) && l.pc.Closing?
    ensures Leaves(g, l, Advance(g, l, Nothing))
  {
    AfterCloseStays(g, l.(trail := l.trail + [VisitOf(l)]), l.pc.then_);
  }

  /** A move that neither closes nor enters a visit. */
  ghost predicate Stays(g: Graph, l: Local, l': Local) {
    && FinalFits(l'.pc)
    && l'.trail == l.trail && l'.rounds == l.rounds
    && (Visiting(l.pc) <==> Visiting(l'.pc))
    && (Visiting(l.pc) ==> l'.current == l.current && l'.n == l.n && KindFits(g, l.current, l'.pc))
  }

  lemma {:induction false} StaysOk(g: Graph, l: Local, l': Local)
    requires LocalOk(g, l) && !l.pc.Halted? && Stays(g, l, l')
    ensures LocalOk(g, l')
  {
    forall v | !l'.pc.Halted? && Looping(g, v) ensures RoundsFit(g, l', v) {
      assert RoundsFit(g, l, v);
    }
  }

  lemma {:induction false} HaltedOk(g: Graph, l: Local, l': Local)
    requires LocalOk(g, l) && l'.trail == l.trail && l'.pc.Halted?
    requires Visiting(l'.pc) ==> Visiting(l.pc) && KindFits(g, l.current, l'.pc) && l'.current == l.current && l'.n == l.n
    ensures LocalOk(g, l')
  {
  }

  lemma {:induction false} SpendingStays(g: Graph, l: Local, r: AgentResult)
    requires l.pc.Spending? && KindFits(g, l.current, l.pc)
    ensures Stays(g, l, AfterSpending(g, l, r)) && !AfterSpending(g, l, r).pc.Halted?
  {
  }

  lemma {:induction false} AgentStays(g: Graph, l: Local, out: Output)
    requires l.pc.Running? || l.pc.Spending? || l.pc.Specifying? || l.pc.Rescuing?
    requires KindFits(g, l.current, l.pc)
    ensures Stays(g, l, Advance(g, l, out))
  {
    if l.pc.Spending? {
      SpendingStays(g, l.(paid := Some(l.pc.result.usage)), l.pc.result);
    }
  }

  predicate AsksOverCap(pc: Pc) {
    match pc
    case Budgeting(_) => true
    case Overriding(_) => true
    case GateOpening(ask) => ask.OverCap?
    case AutoAsking(ask) => ask.OverCap?
    case Waiting(ask) => ask.OverCap?
    case GateClosing(ask, _) => ask.OverCap?
    case _ => false
  }

  lemma {:induction false} BudgetStays(g: Graph, l: Local, out: Output)
    requires AsksOverCap(l.pc)
    ensures Stays(g, l, Advance(g, l, out)) && !Visiting(Advance(g, l, out).pc)
  {
    if l.pc.Budgeting? || l.pc.Overriding? {
      FollowStays(g, l, l.pc.route);
    }
  }

  lemma {:induction false} OtherStays(g: Graph, l: Local, out: Output)
    requires Action(g, l).Call? && !l.pc.Closing? && !AsksOverCap(l.pc)
    requires !l.pc.Running? && !l.pc.Spending? && !l.pc.Specifying? && !l.pc.Rescuing?
    requires FinalFits(l.pc) && (Visiting(l.pc) ==> KindFits(g, l.current, l.pc))
    ensures Advance(g, l, out).trail == l.trail
    ensures Advance(g, l, out).pc.Halted? || Stays(g, l, Advance(g, l, out))
    ensures Visiting(Advance(g, l, out).pc) ==> Stays(g, l, Advance(g, l, out))
  {
  }

  lemma {:induction false} MoveOk(g: Graph, l: Local)
    requires LocalOk(g, l) && Action(g, l).Goto?
    ensures LocalOk(g, Action(g, l).next)
  {
    if l.pc.Arriving? {
      ArriveOk(g, l);
    } else if l.pc.Spending? {
      SpendingStays(g, l, l.pc.result);
      StaysOk(g, l, Action(g, l).next);
    } else {
      StaysOk(g, l, Action(g, l).next);
    }
  }

  lemma {:induction false} AdvanceOk(g: Graph, l: Local, out: Output)
    requires LocalOk(g, l) && Action(g, l).Call?
    ensures LocalOk(g, Advance(g, l, out))
  {
    var l' := Advance(g, l, out);
    if l.pc.Closing? {
      CloseLeaves(g, l);
      ClosedOk(g, l, VisitOf(l), l');
    } else {
      if l.pc.Running? || l.pc.Spending? || l.pc.Specifying? || l.pc.Rescuing? {
        AgentStays(g, l, out);
      } else if AsksOverCap(l.pc) {
        BudgetStays(g, l, out);
      } else {
        OtherStays(g, l, out);
      }
      if l'.pc.Halted? {
        HaltedOk(g, l, l');
      } else {
        StaysOk(g, l, l');
      }
    }
  }

  // ----- the tables -----

  /** A visit is paid for between its agent step and its close. */
  predicate PaidOk(l: Local) {
    l.paid.Some? && Visiting(l.pc) ==> l.pc.Specifying? || l.pc.Rescuing? || l.pc.Closing?
  }

  predicate AwaitsAnswer(l: Local, topic: Topic) {
    match l.pc
    case AutoAsking(ask) => topic == TopicOf(l, ask)
    case Waiting(ask) => topic == TopicOf(l, ask)
    case GateClosing(ask, _) => topic == TopicOf(l, ask)
    case _ => false
  }

  /** Only the question the walk is waiting on is open, and the run says so. */
  ghost predicate TasksOk(t: Tables, l: Local) {
    && (forall topic | topic in t.tasks :: t.tasks[topic].Pending? ==> AwaitsAnswer(l, topic))
    && (t.run.status.AwaitingHuman? ==> l.pc.AutoAsking? || l.pc.Waiting? || l.pc.GateClosing?)
  }

  /** The run row is final exactly when the walk is through its last writing step. */
  predicate RunOk(t: Tables, l: Local) {
    match l.pc
    case Halted(end) => end.Errored? || end.ShipRefused? || (t.run.status == Ended(end) && t.run.total == Some(Spent(t.costs)))
    case Closing(_, _, ThenHalt(end)) => t.run.status == Ended(end) && t.run.total == Some(Spent(t.costs))
    case _ => !t.run.status.Ended?
  }

  predicate HasShipped(pc: Pc) {
    match pc
    case Finalizing(end) => end.Completed?
    case Closing(_, _, ThenHalt(end)) => end.Completed?
    case Halted(end) => end.Completed?
    case _ => false
  }

  /** One ship at most: the tag, the run row and any ship commit name the same commit, and nothing
      is tagged, recorded or snapshotted before. */
  predicate RepoOk(t: Tables, l: Local) {
    if HasShipped(l.pc) then
      && t.repo.tag.Some? && t.run.shipped == t.repo.tag
      && (t.repo.shipCommits == [] || t.repo.shipCommits == [t.repo.tag.value])
    else
      && t.repo.shipCommits == [] && t.repo.tag.None? && t.run.shipped.None? && t.artifact.None?
      && (l.pc == Halted(ShipRefused) ==> t.repo.tree.Untouched?)
  }

  ghost predicate Written(t: Tables, l: Local) {
    && PaidOk(l)
    && t.invocations == RowsNow(l)
    && t.costs == CostsNow(l)
    && TasksOk(t, l) && RunOk(t, l) && RepoOk(t, l)
  }

  lemma {:induction false} CompleteSingle(t: Tables, step: Step, luck: Luck)
    ensures EffectCount(step) == 0 ==> Complete(t, step, luck, 0) == t
    ensures EffectCount(step) == 1 ==> Complete(t, step, luck, 0) == Effect(t, step, luck, 0, 0)
    ensures EffectCount(step) == 2 ==> Complete(t, step, luck, 0) == Effect(Effect(t, step, luck, 0, 0), step, luck, 1, 0)
  {
    assert Partial(t, step, luck, 0, 0) == t;
    assert Partial(t, step, luck, 1, 0) == Effect(t, step, luck, 0, 0);
  }

  predicate LeadsTo(then_: Then, pc: Pc) {
    match then_
    case ThenHalt(end) => pc == Halted(end)
    case ThenFinalize(end) => pc == Finalizing(end)
    case _ => pc.Budgeting? || pc.Arriving? || pc.Lost? || pc.Failing?
  }

  // In each lemma below `t'` is the durable part of the tables after the whole step, spelled out.

  ghost predicate SamePlace(l: Local, l': Local) {
    l'.trail == l.trail && l'.paid == l.paid && l'.current == l.current && l'.n == l.n
  }

  lemma {:induction false} OpeningWritten(t: Tables, l: Local, t': Tables, l': Local)
    requires Written(t, l) && l.pc.Opening? && (l.current, l.n) !in Rows(l.trail)
    requires t' == Durable(t).(invocations := t.invocations[(l.current, l.n) := Invocation(InProgress, None)])
    requires SamePlace(l, l') && l'.pc in {Running, GateOpening(AtGate), Shipping, Finalizing(RejectedRun)}
    ensures Written(t', l')
  {
    assert t'.invocations == RowsNow(l');
  }

  lemma {:induction false} RunningWritten(g: Graph, t: Tables, l: Local, t': Tables, out: Output)
    requires Written(t, l) && l.pc.Running? && t' == Durable(t).(repo := t'.repo)
    requires t'.repo == t.repo.(tree := t'.repo.tree)
    ensures Written(t', Advance(g, l, out))
  {
    assert RowOpen(Advance(g, l, out).pc) && SamePlace(l, Advance(g, l, out));
  }

  lemma {:induction false} AfterSpendingWritten(g: Graph, t: Tables, l: Local, r: AgentResult)
    requires l.pc.Spending?
    requires t.invocations == RowsNow(l) && t.costs == CostsNow(l) && TasksOk(t, l) && RunOk(t, l) && RepoOk(t, l)
    ensures Written(t, AfterSpending(g, l, r))
  {
    assert RowOpen(AfterSpending(g, l, r).pc) && SamePlace(l, AfterSpending(g, l, r));
  }

  lemma {:induction false} SpendingWritten(g: Graph, t: Tables, l: Local, t': Tables)
    requires Written(t, l) && l.pc.Spending?
    requires t' == Durable(t).(costs := t.costs + [CostRow(l.current, l.n, l.pc.result.usage)])
    ensures Written(t', Advance(g, l, Nothing))
  {
    AfterSpendingWritten(g, t', l.(paid := Some(l.pc.result.usage)), l.pc.result);
  }

  lemma {:induction false} SpecWritten(g: Graph, t: Tables, l: Local, t': Tables, out: Output)
    requires Written(t, l) && (l.pc.Specifying? || l.pc.Rescuing?)
    requires t' == Durable(t).(specs := t'.specs, run := t.run.(specDocument := t'.run.specDocument))
    ensures Written(t', Advance(g, l, out))
  {
    assert RowOpen(Advance(g, l, out).pc) && SamePlace(l, Advance(g, l, out));
  }

  lemma {:induction false} ClosingWritten(t: Tables, l: Local, t': Tables, l': Local)
    requires Written(t, l) && l.pc.Closing? && !Visiting(l'.pc) && FinalFits(l.pc)
    requires LeadsTo(l.pc.then_, l'.pc)
    requires t' == Durable(t).(invocations := t.invocations[(l.current, l.n) := Invocation(l.pc.status, l.pc.outcome)])
    requires Rows(l'.trail) == Rows(l.trail)[(l.current, l.n) := Invocation(l.pc.status, l.pc.outcome)]
    requires CostRows(l'.trail) == CostsNow(l)
    ensures Written(t', l')
  {
    assert t'.invocations == Rows(l'.trail);
  }

  /** What closing can lead to. */
  lemma {:induction false} ClosePhase(g: Graph, l: Local, then_: Then)
    ensures LeadsTo(then_, AfterClose(g, l, then_).pc)
  {
    if then_.ThenRoute? {
      FollowStays(g, l, then_.route);
    }
  }

  lemma {:induction false} GateOpeningWritten(g: Graph, t: Tables, l: Local, t': Tables)
    requires Written(t, l) && l.pc.GateOpening?
    requires t' == Durable(t).(tasks := t'.tasks, run := t.run.(status := AwaitingHuman))
    requires var topic := TopicOf(l, l.pc.ask); t'.tasks == if topic in t.tasks then t.tasks else t.tasks[topic := Pending]
    ensures Written(t', Advance(g, l, Nothing))
  {
    assert SamePlace(l, Advance(g, l, Nothing));
  }

  lemma {:induction false} WaitingWritten(g: Graph, t: Tables, l: Local, out: Output)
    requires Written(t, l) && (l.pc.AutoAsking? || l.pc.Waiting?)
    ensures Written(Durable(t), Advance(g, l, out))
  {
    assert SamePlace(l, Advance(g, l, out)) && RowOpen(Advance(g, l, out).pc) == RowOpen(l.pc);
  }

  lemma {:induction false} AnsweredWritten(g: Graph, t: Tables, l: Local, t': Tables)
    requires Written(t, l) && l.pc.GateClosing?
    requires t' == Durable(t).(tasks := t'.tasks, run := t.run.(status := Live))
    requires forall topic | topic in t'.tasks && t'.tasks[topic].Pending? :: topic in t.tasks && t.tasks[topic].Pending? && topic != TopicOf(l, l.pc.ask)
    ensures Written(t', Advance(g, l, Nothing))
  {
    assert SamePlace(l, Advance(g, l, Nothing)) && RowOpen(Advance(g, l, Nothing).pc) == RowOpen(l.pc);
  }

  lemma {:induction false} BudgetWritten(g: Graph, t: Tables, l: Local, t': Tables, out: Output)
    requires Written(t, l) && (l.pc.Budgeting? || l.pc.Overriding?)
    requires t' == Durable(t).(run := t.run.(overridden := t'.run.overridden))
    ensures Written(t', Advance(g, l, out))
  {
    FollowStays(g, l, l.pc.route);
  }

  lemma {:induction false} ShipWhole(t: Tables, luck: Luck)
    requires t.repo.tag.None? && t.repo.shipCommits == []
    ensures
      var t' := Complete(t, ShipStep, luck, 0);
      && t' == t.(repo := t'.repo, run := t'.run, artifact := t'.artifact)
      && (t.repo.tree.Untouched? <==> t'.repo.tag.None?)
      && t'.run == (if t'.repo.tag.Some? then t.run.(shipped := t'.repo.tag) else t.run)
      && (t'.repo.tag.None? ==> t'.repo == t.repo && t'.artifact == t.artifact)
      && (t'.repo.tag.Some? ==> t'.repo.shipCommits == [] || t'.repo.shipCommits == [t'.repo.tag.value])
      && (t'.repo.tag.Some? ==> t'.artifact == if luck.snapshot.Some? then luck.snapshot else t.artifact)
  {
    var t1 := t.(repo := CommitTree(t.repo, luck.sha));
    var t2 := t1.(repo := TagHead(t1.repo));
    assert Partial(t, ShipStep, luck, 0, 0) == t;
    assert Partial(t, ShipStep, luck, 1, 0) == t1;
    assert Partial(t, ShipStep, luck, 2, 0) == t2;
    assert Partial(t, ShipStep, luck, 3, 0) == ShipEffect(t2, luck, 2);
  }

  /** What the tag names: the commit of what was left uncommitted, or the agent's own last commit. */
  lemma {:induction false} ShipTagsHead(t: Tables, luck: Luck)
    requires t.repo.tag.None? && t.repo.shipCommits == []
    ensures
      var repo := Complete(t, ShipStep, luck, 0).repo;
      && (t.repo.tree.Uncommitted? ==> repo == Repo(ShipHead(luck.sha), [luck.sha], Some(luck.sha)))
      && (t.repo.tree.OwnCommits? ==> repo == Repo(t.repo.tree, [], Some(t.repo.tree.sha)))
      && (t.repo.tree.ShipHead? ==> repo == Repo(t.repo.tree, [], Some(t.repo.tree.sha)))
      && (t.repo.tree.Untouched? ==> repo == t.repo)
  {
    var t1 := t.(repo := CommitTree(t.repo, luck.sha));
    assert Partial(t, ShipStep, luck, 0, 0) == t;
    assert Partial(t, ShipStep, luck, 1, 0) == t1;
    assert Partial(t, ShipStep, luck, 2, 0) == t1.(repo := TagHead(t1.repo));
    assert Partial(t, ShipStep, luck, 3, 0).repo == TagHead(t1.repo);
  }

  lemma {:induction false} ShippingWritten(g: Graph, t: Tables, l: Local, t': Tables)
    requires Written(t, l) && l.pc.Shipping?
    requires t' == Durable(t).(repo := t'.repo, run := t'.run, artifact := t'.artifact)
    requires if t'.repo.tag.Some?
             then t'.run == t.run.(shipped := t'.repo.tag) && (t'.repo.shipCommits == [] || t'.repo.shipCommits == [t'.repo.tag.value])
             else t' == Durable(t) && t.repo.tree.Untouched?
    ensures Written(t', Advance(g, l, ShipOut(t'.repo.tag)))
  {
    assert SamePlace(l, Advance(g, l, ShipOut(t'.repo.tag)));
  }

  lemma {:induction false} FinalizingWritten(t: Tables, l: Local, t': Tables)
    requires Written(t, l) && l.pc.Finalizing? && FinalFits(l.pc)
    requires t' == Durable(t).(run := t.run.(status := Ended(l.pc.end), total := Some(Spent(t.costs))))
    ensures Written(t', AfterFinalize(l, l.pc.end))
  {
    var l' := AfterFinalize(l, l.pc.end);
    assert SamePlace(l, l') && RowOpen(l'.pc) == RowOpen(l.pc);
    assert TasksOk(t', l') && RunOk(t', l') && RepoOk(t', l');
  }

  lemma {:induction false} FailingWritten(t: Tables, l: Local, t': Tables, l': Local)
    requires Written(t, l) && l.pc.Failing? && l' == l.(pc := Halted(FailedRun))
    requires t' == Durable(t).(run := t.run.(status := Ended(FailedRun), total := Some(Spent(t.costs))))
    ensures Written(t', l')
  {
  }

  // ----- every step of the walk -----

  /** The walk's bookkeeping and the tables agree. */
  ghost predicate Good(g: Graph, t: Tables, l: Local) {
    LocalOk(g, l) && Written(t, l)
  }

  lemma {:induction false} StartGood(g: Graph, cap: Option<nat>)
    ensures Good(g, Fresh(cap), Boot(g))
  {
  }

  lemma {:induction false} MoveWritten(g: Graph, t: Tables, l: Local)
    requires Written(t, l) && Action(g, l).Goto?
    ensures Written(t, Action(g, l).next)
  {
    if l.pc.Spending? {
      AfterSpendingWritten(g, t, l, l.pc.result);
    }
  }

  lemma {:induction false} AgentStepWritten(g: Graph, t: Tables, l: Local, step: Step, luck: Luck)
    requires Good(g, t, l) && Action(g, l) == Call(step)
    requires step.RunAgent? || step.PersistCost? || step.RecordSpec? || step.ClosingMessage? || step.BudgetCheck? || step.MarkOverridden?
    ensures Written(Durable(Complete(t, step, luck, 0)), Advance(g, l, OutputOf(Complete(t, step, luck, 0), step, luck)))
  {
    var t' := Durable(Complete(t, step, luck, 0));
    var out := OutputOf(Complete(t, step, luck, 0), step, luck);
    CompleteSingle(t, step, luck);
    match l.pc
    case Running => RunningWritten(g, t, l, t', out);
    case Spending(_) =>
      CurrentUnwritten(g, l);
      SpendingWritten(g, t, l, t');
    case Specifying => SpecWritten(g, t, l, t', out);
    case Rescuing(_) => SpecWritten(g, t, l, t', out);
    case Budgeting(_) => BudgetWritten(g, t, l, t', out);
    case Overriding(_) => BudgetWritten(g, t, l, t', out);
    case _ =>
  }

  lemma {:induction false} GateStepWritten(g: Graph, t: Tables, l: Local, step: Step, luck: Luck)
    requires Written(t, l) && Action(g, l) == Call(step)
    requires step.OpenGate? || step.AutoResolve? || step.Receive? || step.CloseGate?
    ensures Written(Durable(Complete(t, step, luck, 0)), Advance(g, l, OutputOf(Complete(t, step, luck, 0), step, luck)))
  {
    var t' := Durable(Complete(t, step, luck, 0));
    var out := OutputOf(Complete(t, step, luck, 0), step, luck);
    CompleteSingle(t, step, luck);
    match l.pc
    case GateOpening(_) => GateOpeningWritten(g, t, l, t');
    case AutoAsking(_) => WaitingWritten(g, t, l, out);
    case Waiting(_) => WaitingWritten(g, t, l, out);
    case GateClosing(_, _) => AnsweredWritten(g, t, l, t');
    case _ =>
  }

  lemma {:induction false} EndStepWritten(g: Graph, t: Tables, l: Local, step: Step, luck: Luck)
    requires Written(t, l) && FinalFits(l.pc) && Action(g, l) == Call(step)
    requires step.ShipStep? || step.Finalize? || step.MarkFailed?
    ensures Written(Durable(Complete(t, step, luck, 0)), Advance(g, l, OutputOf(Complete(t, step, luck, 0), step, luck)))
  {
    var t' := Durable(Complete(t, step, luck, 0));
    if step.ShipStep? {
      ShipWhole(t, luck);
      ShippingWritten(g, t, l, t');
    } else {
      CompleteSingle(t, step, luck);
      if step.Finalize? {
        FinalizingWritten(t, l, t');
      } else {
        FailingWritten(t, l, t', Advance(g, l, Nothing));
      }
    }
  }

  lemma {:induction false} CurrentUnwritten(g: Graph, l: Local)
    requires LocalOk(g, l) && Visiting(l.pc)
    ensures (l.current, l.n) !in Rows(l.trail) && !HasCost(CostRows(l.trail), l.current, l.n)
  {
    RowKeys(l.trail, l.current, l.n);
    if HasCost(CostRows(l.trail), l.current, l.n) {
      CostKeys(l.trail, l.current, l.n);
    }
  }

  lemma {:induction false} OpenStepWritten(t: Tables, l: Local, luck: Luck, l': Local)
    requires Written(t, l) && l.pc.Opening? && (l.current, l.n) !in Rows(l.trail)
    requires SamePlace(l, l') && l'.pc in {Running, GateOpening(AtGate), Shipping, Finalizing(RejectedRun)}
    ensures Written(Durable(Complete(t, OpenInvocation(l.current, l.n), luck, 0)), l')
  {
    CompleteSingle(t, OpenInvocation(l.current, l.n), luck);
    OpeningWritten(t, l, Durable(t).(invocations := t.invocations[(l.current, l.n) := Invocation(InProgress, None)]), l');
  }

  lemma {:induction false} OpeningMoves(g: Graph, l: Local, out: Output)
    requires l.pc.Opening?
    ensures SamePlace(l, Advance(g, l, out))
    ensures Advance(g, l, out).pc in {Running, GateOpening(AtGate), Shipping, Finalizing(RejectedRun)}
  {
  }

  lemma {:induction false} ClosingMoves(g: Graph, l: Local)
    requires LocalOk(g, l) && l.pc.Closing?
    ensures
      var l' := Advance(g, l, Nothing);
      && !Visiting(l'.pc) && LeadsTo(l.pc.then_, l'.pc)
      && Rows(l'.trail) == Rows(l.trail)[(l.current, l.n) := Invocation(l.pc.status, l.pc.outcome)]
      && CostRows(l'.trail) == CostsNow(l)
  {
    CloseVisit(l.trail, VisitOf(l));
    CloseLeaves(g, l);
    ClosePhase(g, l.(trail := l.trail + [VisitOf(l)]), l.pc.then_);
  }

  lemma {:induction false} CloseWhole(t: Tables, v: NodeId, n: nat, status: InvocationStatus, outcome: Option<Outcome>, luck: Luck)
    requires (v, n) in t.invocations
    ensures Complete(t, CloseInvocation(v, n, status, outcome), luck, 0)
         == t.(invocations := t.invocations[(v, n) := Invocation(status, outcome)])
  {
    CompleteSingle(t, CloseInvocation(v, n, status, outcome), luck);
  }

  lemma {:induction false} CloseStepWritten(t: Tables, l: Local, luck: Luck, l': Local)
    requires Written(t, l) && l.pc.Closing? && FinalFits(l.pc) && !Visiting(l'.pc) && LeadsTo(l.pc.then_, l'.pc)
    requires Rows(l'.trail) == Rows(l.trail)[(l.current, l.n) := Invocation(l.pc.status, l.pc.outcome)]
    requires CostRows(l'.trail) == CostsNow(l)
    ensures Written(Durable(Complete(t, CloseInvocation(l.current, l.n, l.pc.status, l.pc.outcome), luck, 0)), l')
  {
    var t' := t.(invocations := t.invocations[(l.current, l.n) := Invocation(l.pc.status, l.pc.outcome)]);
    ClosingWritten(t, l, Durable(t'), l');
    CloseWhole(t, l.current, l.n, l.pc.status, l.pc.outcome, luck);
  }

  lemma {:induction false} CallGood(g: Graph, t: Tables, l: Local, step: Step, luck: Luck)
    requires Good(g, t, l) && Action(g, l) == Call(step)
    ensures Good(g, Durable(Complete(t, step, luck, 0)), Advance(g, l, OutputOf(Complete(t, step, luck, 0), step, luck)))
  {
    AdvanceOk(g, l, OutputOf(Complete(t, step, luck, 0), step, luck));
    if step.OpenInvocation? {
      CurrentUnwritten(g, l);
      OpeningMoves(g, l, Nothing);
      OpenStepWritten(t, l, luck, Advance(g, l, Nothing));
    } else if step.CloseInvocation? {
      ClosingMoves(g, l);
      CloseStepWritten(t, l, luck, Advance(g, l, Nothing));
    } else if step.RunAgent? || step.PersistCost? || step.RecordSpec? || step.ClosingMessage? || step.BudgetCheck? || step.MarkOverridden? {
      AgentStepWritten(g, t, l, step, luck);
    } else if step.ShipStep? || step.Finalize? || step.MarkFailed? {
      EndStepWritten(g, t, l, step, luck);
    } else {
      GateStepWritten(g, t, l, step, luck);
    }
  }
}
