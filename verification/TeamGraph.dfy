/** The authored team graph and the pure routers the walk uses: which edge a node's outcome
    follows, where a capped node escapes to, how often a node may be re-entered. */
module TeamGraph {
  import opened Common

  type NodeId = nat

  /** Routing labels: a reviewer's verdict or a gate's resolution. */
  datatype Label = Approved | ChangesRequested | Rejected | Named(name: string)

  datatype EdgeType = Work | Review | Escalation | Failure

  /** An edge without conditions carries `None` in both fields; the loop-back edge carries only a
      limit. */
  datatype Edge = Edge(source: NodeId, target: NodeId, kind: EdgeType, when: Option<Label>, loopLimit: Option<int>)

  datatype Kind = Agent(editsAllowed: bool) | Gate | ShipEnd | StopEnd

  datatype Graph = Graph(nodes: map<NodeId, Kind>, edges: seq<Edge>, start: NodeId, maxReviewIterations: int)

  predicate Routes(e: Edge, source: NodeId) {
    e.source == source && e.kind != Escalation && e.kind != Failure
  }

  /** The target of the first routing edge out of `source` whose condition is exactly `when`. */
  function FirstRoute(edges: seq<Edge>, source: NodeId, when: Option<Label>): Option<NodeId> {
    if edges == [] then None
    else if Routes(edges[0], source) && edges[0].when == when then Some(edges[0].target)
    else FirstRoute(edges[1..], source, when)
  }

  /** Ordinary routing: the first out-edge that names the outcome, else the first catch-all. */
  function NextNode(edges: seq<Edge>, source: NodeId, outcome: Option<Label>): Option<NodeId> {
    var named := if outcome.Some? then FirstRoute(edges, source, outcome) else None;
    if named.Some? then named else FirstRoute(edges, source, None)
  }

  function EscalationTarget(edges: seq<Edge>, source: NodeId): Option<NodeId> {
    if edges == [] then None
    else if edges[0].source == source && edges[0].kind == Escalation then Some(edges[0].target)
    else EscalationTarget(edges[1..], source)
  }

  function FailureTarget(edges: seq<Edge>, source: NodeId): Option<NodeId> {
    if edges == [] then None
    else if edges[0].source == source && edges[0].kind == Failure then Some(edges[0].target)
    else FailureTarget(edges[1..], source)
  }

  /** The cap on entering `node`: the first loop-back edge into it that carries one. */
  function LoopLimitFor(edges: seq<Edge>, node: NodeId, default: int): int {
    if edges == [] then default
    else if edges[0].target == node && edges[0].loopLimit.Some? then edges[0].loopLimit.value
    else LoopLimitFor(edges[1..], node, default)
  }

  /** A node branches the walk iff some non-escalation out-edge names an outcome. */
  predicate EmitsOutcome(edges: seq<Edge>, node: NodeId) {
    edges != [] &&
    ((edges[0].source == node && edges[0].kind != Escalation && edges[0].when.Some?) || EmitsOutcome(edges[1..], node))
  }

  /** The review cap reaches a node only through its escalation edge: without one it is never cut off. */
  predicate Capped(g: Graph, v: NodeId, n: int) {
    EscalationTarget(g.edges, v).Some? && n > LoopLimitFor(g.edges, v, g.maxReviewIterations)
  }

  predicate Matches(e: Edge, source: NodeId, when: Option<Label>) {
    Routes(e, source) && e.when == when
  }

  /** Edge `k` is the one an outcome follows: it names the outcome and none before it does, or it
      is the first catch-all and nothing names the outcome. */
  ghost predicate Chosen(edges: seq<Edge>, k: nat, source: NodeId, outcome: Option<Label>) {
    k < |edges| &&
    if outcome.Some? && (exists i | 0 <= i < |edges| :: Matches(edges[i], source, outcome))
    then Matches(edges[k], source, outcome) && forall i | 0 <= i < k :: !Matches(edges[i], source, outcome)
    else Matches(edges[k], source, None) && forall i | 0 <= i < k :: !Matches(edges[i], source, None)
  }

  lemma {:induction false} FirstRouteAt(edges: seq<Edge>, k: nat, source: NodeId, when: Option<Label>)
    requires k < |edges| && Matches(edges[k], source, when)
    requires forall i | 0 <= i < k :: !Matches(edges[i], source, when)
    ensures FirstRoute(edges, source, when) == Some(edges[k].target)
  {
    if k > 0 {
      FirstRouteAt(edges[1..], k - 1, source, when);
    }
  }

  lemma {:induction false} NoRoute(edges: seq<Edge>, source: NodeId, when: Option<Label>)
    requires forall i | 0 <= i < |edges| :: !Matches(edges[i], source, when)
    ensures FirstRoute(edges, source, when) == None
  {
    if edges != [] {
      NoRoute(edges[1..], source, when);
    }
  }

  /** The walk goes where the chosen edge leads; without one it has nowhere to go. */
  lemma {:induction false} NextNodeFollowsChosen(edges: seq<Edge>, k: nat, source: NodeId, outcome: Option<Label>)
    requires Chosen(edges, k, source, outcome)
    ensures NextNode(edges, source, outcome) == Some(edges[k].target)
  {
    if outcome.Some? && exists i | 0 <= i < |edges| :: Matches(edges[i], source, outcome) {
      FirstRouteAt(edges, k, source, outcome);
    } else {
      if outcome.Some? {
        NoRoute(edges, source, outcome);
      }
      FirstRouteAt(edges, k, source, None);
    }
  }

  lemma {:induction false} SomeRoute(edges: seq<Edge>, k: nat, source: NodeId, when: Option<Label>)
    requires k < |edges| && Matches(edges[k], source, when)
    ensures FirstRoute(edges, source, when).Some?
  {
    if k > 0 {
      SomeRoute(edges[1..], k - 1, source, when);
    }
  }

  /** An outcome leads nowhere exactly when no routing edge names it and none is a catch-all. */
  lemma {:induction false} NextNodeLost(edges: seq<Edge>, source: NodeId, outcome: Option<Label>)
    ensures NextNode(edges, source, outcome) == None <==>
      forall i | 0 <= i < |edges| :: !Matches(edges[i], source, None) && !Matches(edges[i], source, outcome)
  {
    if k :| 0 <= k < |edges| && Matches(edges[k], source, None) {
      SomeRoute(edges, k, source, None);
    } else if k :| 0 <= k < |edges| && Matches(edges[k], source, outcome) {
      SomeRoute(edges, k, source, outcome);
    } else {
      NoRoute(edges, source, outcome);
      NoRoute(edges, source, None);
    }
  }

  /** Escalation and failure edges never change where an outcome leads. */
  lemma {:induction false} RoutingSkipsEscapeEdges(edges: seq<Edge>, e: Edge, k: nat, source: NodeId, outcome: Option<Label>)
    requires k <= |edges| && (e.kind == Escalation || e.kind == Failure)
    ensures NextNode(edges[..k] + [e] + edges[k..], source, outcome) == NextNode(edges, source, outcome)
  {
    InsertUnmatched(edges, e, k, source, outcome);
    InsertUnmatched(edges, e, k, source, None);
  }

  lemma {:induction false} InsertUnmatched(edges: seq<Edge>, e: Edge, k: nat, source: NodeId, when: Option<Label>)
    requires k <= |edges| && !Routes(e, source)
    ensures FirstRoute(edges[..k] + [e] + edges[k..], source, when) == FirstRoute(edges, source, when)
  {
    var longer := edges[..k] + [e] + edges[k..];
    if k == 0 {
      assert longer[1..] == edges;
    } else if !Matches(edges[0], source, when) {
      InsertUnmatched(edges[1..], e, k - 1, source, when);
      assert longer[1..] == edges[1..][..k - 1] + [e] + edges[1..][k - 1..];
    }
  }

  /** A node escapes by its first escalation edge, and only by one. */
  lemma {:induction false} EscalationAt(edges: seq<Edge>, k: nat, source: NodeId)
    requires k <= |edges| && forall i | 0 <= i < k :: edges[i].source != source || edges[i].kind != Escalation
    requires k < |edges| ==> edges[k].source == source && edges[k].kind == Escalation
    ensures EscalationTarget(edges, source) == if k < |edges| then Some(edges[k].target) else None
  {
    if k > 0 {
      EscalationAt(edges[1..], k - 1, source);
    }
  }

  /** A failed node continues by its first failure edge, and only by one. */
  lemma {:induction false} FailureAt(edges: seq<Edge>, k: nat, source: NodeId)
    requires k <= |edges| && forall i | 0 <= i < k :: edges[i].source != source || edges[i].kind != Failure
    requires k < |edges| ==> edges[k].source == source && edges[k].kind == Failure
    ensures FailureTarget(edges, source) == if k < |edges| then Some(edges[k].target) else None
  {
    if k > 0 {
      FailureAt(edges[1..], k - 1, source);
    }
  }

  /** The cap is the first one an edge into the node carries, else the default. */
  lemma {:induction false} LimitAt(edges: seq<Edge>, k: nat, node: NodeId, default: int)
    requires k <= |edges| && forall i | 0 <= i < k :: edges[i].target != node || edges[i].loopLimit.None?
    requires k < |edges| ==> edges[k].target == node && edges[k].loopLimit.Some?
    ensures LoopLimitFor(edges, node, default) == if k < |edges| then edges[k].loopLimit.value else default
  {
    if k > 0 {
      LimitAt(edges[1..], k - 1, node, default);
    }
  }

  lemma {:induction false} EmitsIff(edges: seq<Edge>, node: NodeId)
    ensures EmitsOutcome(edges, node) <==>
            exists i | 0 <= i < |edges| :: edges[i].source == node && edges[i].kind != Escalation && edges[i].when.Some?
  {
    if edges != [] {
      EmitsIff(edges[1..], node);
      if i: nat :| 1 <= i < |edges| && edges[i].source == node && edges[i].kind != Escalation && edges[i].when.Some? {
        assert edges[1..][i - 1] == edges[i];
      }
    }
  }
}
