/** What a human's answers decide, over any team graph, any cap and any schedule, crashes included:
    the question of an overspent run, and a gate whose rejection leads to a stop. */
module HumanAnswers {
  import opened Common
  import opened TeamGraph
  import opened RunTables
  import opened RunWalk
  import opened CrashReplay
  import opened WalkTables
  import opened ExactlyOnce
  import opened WalkSentence
  import opened WalkLog
  import opened LogTables
  import opened ReviewLoop

  /** Record `k` gives the question its answer: the harness or a human says it, or it is written. */
  predicate Answers(log: seq<Record>, k: int, topic: Topic, resolution: Label) {
    && 0 <= k < |log|
    && ((log[k].step in {AutoResolve(topic), Receive(topic)} && log[k].out == Answer(Some(resolution)))
        || log[k].step == CloseGate(topic, resolution))
  }

  function LogOfRun(g: Graph, cap: Option<nat>, events: seq<Event>): seq<Record> {
    After(WalkOf(g), cap, events).log
  }

  function EndOf(g: Graph, cap: Option<nat>, events: seq<Event>): Option<End> {
    var pc := After(WalkOf(g), cap, events).local.pc;
    if pc.Halted? then Some(pc.end) else None
  }

  // ----- reading one record on -----

  lemma {:induction false} NextFollows(g: Graph, log: seq<Record>, k: nat)
    requires WellFormed(g, log) && k + 1 < |log|
    ensures Follows(g, log[..k + 1], log[k], log[k + 1].step)
  {
    assert Succeeds(g, log[..k + 1], log[k + 1].step);
    assert log[..k + 1][|log[..k + 1]| - 1] == log[k];
  }

  /** A question is asked of a known answer: what is said is what is written. */
  lemma {:induction false} SaidIsWritten(g: Graph, log: seq<Record>, k: nat, topic: Topic, resolution: Label)
    requires WellFormed(g, log) && k + 1 < |log| && Answers(log, k, topic, resolution)
    requires !log[k].step.CloseGate? && resolution in {Approved, Rejected}
    ensures log[k + 1].step == CloseGate(topic, resolution)
  {
    NextFollows(g, log, k);
  }

  lemma {:induction false} WrittenActs(g: Graph, log: seq<Record>, k: nat, topic: Topic, resolution: Label)
    requires WellFormed(g, log) && k + 1 < |log| && log[k].step == CloseGate(topic, resolution)
    ensures AfterAnswer(topic, resolution, log[k + 1].step)
  {
    NextFollows(g, log, k);
  }

  lemma {:induction false} NothingAfterOverBudget(g: Graph, log: seq<Record>, k: nat)
    requires WellFormed(g, log) && k < |log| && log[k].step == Finalize(OverBudgetRun)
    ensures k + 1 == |log|
  {
    if k + 1 < |log| {
      NextFollows(g, log, k);
    }
  }

  /** Where the log may end: not while an answer is on its way. */
  predicate Quiet(log: seq<Record>, end: End) {
    log != [] ==>
      var last := log[|log| - 1].step;
      && !last.AutoResolve? && !last.Receive? && !last.CloseGate? && !last.OpenInvocation?
      && (last.Finalize? ==> last == Finalize(OverBudgetRun) && end == OverBudgetRun)
      && (last.CloseInvocation? && last.outcome == Some(Stopped) ==> end == RejectedRun)
  }

  lemma {:induction false} EndIsQuiet(g: Graph, log: seq<Record>, end: End)
    requires EndsAfter(g, log, end)
    ensures Quiet(log, end)
  {
    if end.Errored? {
      var from, to :| Due(g, log, Some(from)) && Sent(g, log, from, to) && to !in g.nodes;
    }
  }

  lemma {:induction false} AnswerIsNotLast(log: seq<Record>, end: End, k: nat, topic: Topic, resolution: Label)
    requires Quiet(log, end) && Answers(log, k, topic, resolution)
    ensures k + 1 < |log|
  {
  }

  /** From the answer to what it is answered with. */
  lemma {:induction false} AnswerIsWritten(g: Graph, log: seq<Record>, end: End, k: nat, topic: Topic, resolution: Label) returns (c: nat)
    requires WellFormed(g, log) && Quiet(log, end)
    requires Answers(log, k, topic, resolution) && (log[k].step.CloseGate? || resolution in {Approved, Rejected})
    ensures k <= c && c + 1 < |log| && log[c].step == CloseGate(topic, resolution) && AfterAnswer(topic, resolution, log[c + 1].step)
  {
    c := k;
    AnswerIsNotLast(log, end, k, topic, resolution);
    if !log[k].step.CloseGate? {
      SaidIsWritten(g, log, k, topic, resolution);
      c := k + 1;
      AnswerIsNotLast(log, end, c, topic, resolution);
    }
    WrittenActs(g, log, c, topic, resolution);
  }

  lemma {:induction false} EndedLog(g: Graph, cap: Option<nat>, events: seq<Event>) returns (end: End)
    requires EndOf(g, cap, events).Some?
    ensures EndOf(g, cap, events) == Some(end)
    ensures WellFormed(g, LogOfRun(g, cap, events)) && EndsAfter(g, LogOfRun(g, cap, events), end)
    ensures Quiet(LogOfRun(g, cap, events), end)
  {
    end := EndOf(g, cap, events).value;
    LogIsWellFormed(g, cap, events);
    EndIsWellFormed(g, cap, events);
    EndIsQuiet(g, LogOfRun(g, cap, events), end);
  }

  // ----- the budget -----

  /** A rejected overspend ends the run over budget: the answer is followed by the final write, that
      write is the end, and nothing is shipped. */
  lemma {:induction false} RejectedOverspendStops(g: Graph, cap: Option<nat>, events: seq<Event>, k: nat, v: NodeId, n: nat)
    requires EndOf(g, cap, events).Some? && Answers(LogOfRun(g, cap, events), k, BudgetTopic(v, n), Rejected)
    ensures EndOf(g, cap, events) == Some(OverBudgetRun)
    ensures
      var run := After(WalkOf(g), cap, events).tables.run;
      run.status == Ended(OverBudgetRun) && run.shipped.None?
  {
    var end := EndedLog(g, cap, events);
    RejectedOverspendEnds(g, LogOfRun(g, cap, events), end, k, v, n);
    EndedUnshipped(g, cap, events);
  }

  lemma {:induction false} RejectedOverspendEnds(g: Graph, log: seq<Record>, end: End, k: nat, v: NodeId, n: nat)
    requires WellFormed(g, log) && Quiet(log, end) && Answers(log, k, BudgetTopic(v, n), Rejected)
    ensures end == OverBudgetRun
  {
    var c := AnswerIsWritten(g, log, end, k, BudgetTopic(v, n), Rejected);
    NothingAfterOverBudget(g, log, c + 1);
  }

  /** A run that ended over budget or rejected says so and has shipped nothing. */
  lemma {:induction false} EndedUnshipped(g: Graph, cap: Option<nat>, events: seq<Event>)
    requires EndOf(g, cap, events) == Some(OverBudgetRun) || EndOf(g, cap, events) == Some(RejectedRun)
    ensures
      var run := After(WalkOf(g), cap, events).tables.run;
      run.status == Ended(EndOf(g, cap, events).value) && run.shipped.None?
  {
    EndedRunIsExact(g, cap, events);
  }

  /** What a recorded budget check says: the run is over iff a cap is set, no override is on record,
      and the spending on record exceeds the cap. */
  lemma {:induction false} CheckIsExact(g: Graph, cap: Option<nat>, events: seq<Event>, k: nat)
    requires k < |LogOfRun(g, cap, events)| && LogOfRun(g, cap, events)[k].step == BudgetCheck
    ensures
      var log := LogOfRun(g, cap, events);
      log[k].out == Flag(cap.Some? && !Did(log[..k], MarkOverridden) && LogCost(log[..k]) > cap.value)
  {
    var w := ScheduleExplained(WalkOf(g), cap, events);
    CheckInHistory(WalkOf(g), cap, w.history, k);
  }

  lemma {:induction false} CheckInHistory(p: Program, cap: Option<nat>, history: seq<Entry>, k: nat)
    requires CrashFree(p, cap, history) && k < |history| && history[k].step == BudgetCheck
    ensures
      var past := LogOf(history)[..k];
      history[k].out == Flag(cap.Some? && !Did(past, MarkOverridden) && LogCost(past) > cap.value)
  {
    var upTo, before := history[..k + 1], history[..k];
    RecordedOut(p, cap, history, k);
    assert upTo[..k] == before && upTo[|upTo| - 1] == history[k];
    assert LogOf(before) == LogOf(history)[..k];
    HistoryTells(cap, before);
    CompleteSingle(TablesAfter(cap, before), BudgetCheck, history[k].luck);
  }

  lemma {:induction false} QuestionFollowsCheck(g: Graph, log: seq<Record>, m: nat, v: NodeId, n: nat)
    requires WellFormed(g, log) && m < |log| && log[m].step == OpenGate(BudgetTopic(v, n))
    ensures m > 0 && log[m - 1] == Record(BudgetCheck, Flag(true))
  {
    assert Succeeds(g, log[..m], log[m].step);
    if m > 0 {
      NextFollows(g, log, m - 1);
    }
  }

  lemma {:induction false} DidBefore(log: seq<Record>, k: nat, m: nat)
    requires k < m <= |log|
    ensures Did(log[..m], log[k].step)
  {
    assert log[..m][k] == log[k];
  }

  lemma {:induction false} OverrideIsUnder(g: Graph, cap: Option<nat>, events: seq<Event>, k: nat, m: nat)
    requires
      var log := LogOfRun(g, cap, events);
      k < m < |log| && log[k].step == MarkOverridden && log[m].step == BudgetCheck
    ensures LogOfRun(g, cap, events)[m].out == Flag(false)
  {
    DidBefore(LogOfRun(g, cap, events), k, m);
    CheckIsExact(g, cap, events, m);
  }

  lemma {:induction false} AskedAfterCheck(g: Graph, cap: Option<nat>, events: seq<Event>, m: nat, v: NodeId, n: nat)
    requires m < |LogOfRun(g, cap, events)| && LogOfRun(g, cap, events)[m].step == OpenGate(BudgetTopic(v, n))
    ensures m > 0 && LogOfRun(g, cap, events)[m - 1] == Record(BudgetCheck, Flag(true))
  {
    LogIsWellFormed(g, cap, events);
    QuestionFollowsCheck(g, LogOfRun(g, cap, events), m, v, n);
  }

  /** With an override on record no later question about the budget is asked. */
  lemma {:induction false} OverrideSilences(g: Graph, cap: Option<nat>, events: seq<Event>, k: nat, m: nat, v: NodeId, n: nat)
    requires
      var log := LogOfRun(g, cap, events);
      k < m < |log| && log[k].step == MarkOverridden
    ensures LogOfRun(g, cap, events)[m].step != OpenGate(BudgetTopic(v, n))
  {
    if LogOfRun(g, cap, events)[m].step == OpenGate(BudgetTopic(v, n)) {
      AskedAfterCheck(g, cap, events, m, v, n);
      OverrideIsUnder(g, cap, events, k, m - 1);
    }
  }

  /** An approved overspend lets the run go on: the override follows the answer, and at no later
      moment, crashes or not, is another question about the budget on record. */
  lemma {:induction false} ApprovedOverspendAsksNoMore(g: Graph, cap: Option<nat>, events: seq<Event>, k: nat, m: nat, v: NodeId, n: nat, v': NodeId, n': nat)
    requires Answers(LogOfRun(g, cap, events), k, BudgetTopic(v, n), Approved)
    requires k < m < |LogOfRun(g, cap, events)|
    ensures LogOfRun(g, cap, events)[m].step != OpenGate(BudgetTopic(v', n'))
    ensures m == k + 1 ==> LogOfRun(g, cap, events)[m].step in {CloseGate(BudgetTopic(v, n), Approved), MarkOverridden}
    ensures m == k + 2 ==> Did(LogOfRun(g, cap, events)[..m + 1], MarkOverridden)
  {
    var log := LogOfRun(g, cap, events);
    LogIsWellFormed(g, cap, events);
    var c := k;
    if !log[k].step.CloseGate? {
      SaidIsWritten(g, log, k, BudgetTopic(v, n), Approved);
      c := k + 1;
    }
    if c < m {
      WrittenActs(g, log, c, BudgetTopic(v, n), Approved);
      assert log[c + 1].step == MarkOverridden;
      if c + 1 < m {
        OverrideSilences(g, cap, events, c + 1, m, v', n');
      }
      assert m == k + 2 ==> log[..m + 1][c + 1].step == MarkOverridden;
    }
  }

  /** The override stands at every moment after it is on record, inside a step's body too. */
  lemma {:induction false} OverrideStands(p: Program, cap: Option<nat>, events: seq<Event>)
    requires Did(After(p, cap, events).log, MarkOverridden)
    ensures After(p, cap, events).tables.run.overridden
  {
    var s := After(p, cap, events);
    var w := ScheduleExplained(p, cap, events);
    HistoryTells(cap, w.history);
    PartialKeepsOverride(TablesAfter(cap, w.history), w.pending, w.prior, w.reached);
  }

  lemma {:induction false} PartialKeepsOverride(t: Tables, step: Step, luck: Luck, k: nat)
    requires t.run.overridden
    ensures Partial(t, step, luck, k, 0).run.overridden
  {
    if k > 0 {
      PartialKeepsOverride(t, step, luck, k - 1);
    }
  }

  /** An ended run whose overspend was approved carries the override. */
  lemma {:induction false} ApprovedOverspendIsOverridden(g: Graph, cap: Option<nat>, events: seq<Event>, k: nat, v: NodeId, n: nat)
    requires EndOf(g, cap, events).Some? && Answers(LogOfRun(g, cap, events), k, BudgetTopic(v, n), Approved)
    ensures After(WalkOf(g), cap, events).tables.run.overridden
  {
    var log := LogOfRun(g, cap, events);
    var end := EndedLog(g, cap, events);
    var c := AnswerIsWritten(g, log, end, k, BudgetTopic(v, n), Approved);
    OverrideStands(WalkOf(g), cap, events);
  }

  /** A run ends over budget only because a human rejected an overspend or the proxy cut an agent off. */
  lemma {:induction false} OverBudgetIsAnswered(g: Graph, cap: Option<nat>, events: seq<Event>)
    requires EndOf(g, cap, events) == Some(OverBudgetRun)
    ensures
      var log := LogOfRun(g, cap, events);
      |log| >= 2 &&
      var before := log[|log| - 2].step;
      if before.CloseGate? then before.topic.BudgetTopic? && before.resolution == Rejected
      else before.CloseInvocation? && before.status == StoppedNode
  {
    var log := LogOfRun(g, cap, events);
    var end := EndedLog(g, cap, events);
    LastIsOverBudget(g, log);
    BeforeOverBudget(g, log);
  }

  lemma {:induction false} LastIsOverBudget(g: Graph, log: seq<Record>)
    requires EndsAfter(g, log, OverBudgetRun)
    ensures log != [] && log[|log| - 1].step == Finalize(OverBudgetRun)
  {
  }

  lemma {:induction false} BeforeOverBudget(g: Graph, log: seq<Record>)
    requires WellFormed(g, log) && log != [] && log[|log| - 1].step == Finalize(OverBudgetRun)
    ensures |log| >= 2
    ensures
      var before := log[|log| - 2].step;
      if before.CloseGate? then before.topic.BudgetTopic? && before.resolution == Rejected
      else before.CloseInvocation? && before.status == StoppedNode
  {
    assert Succeeds(g, log[..|log| - 1], log[|log| - 1].step);
    if |log| >= 2 {
      NextFollows(g, log, |log| - 2);
    }
  }

  // ----- a gate -----

  lemma {:induction false} StaysPut(g: Graph, past: seq<Record>, from: NodeId, to: NodeId, hops: nat)
    requires Reaches(g, past, from, to, hops) && from in g.nodes && !g.nodes[from].Agent?
    ensures to == from
    decreases hops
  {
    if hops > 0 {
      var v :| Reaches(g, past, from, v, hops - 1) && UsedUp(g, past, v) && EscalationTarget(g.edges, v) == Some(to);
      StaysPut(g, past, from, v, hops - 1);
    }
  }

  /** A closed gate visit leads to the next round of the node its answer points to, an agent apart. */
  lemma {:induction false} GateLeadsOn(g: Graph, past: seq<Record>, v: NodeId, n: nat, resolution: Label, target: NodeId, b: Step)
    requires past != [] && past[|past| - 1].step == CloseInvocation(v, n, Done, Some(Verdict(resolution)))
    requires v in g.nodes && g.nodes[v].Gate? && NextNode(g.edges, v, Some(resolution)) == Some(target)
    requires target in g.nodes && !g.nodes[target].Agent? && Succeeds(g, past, b)
    ensures b == OpenInvocation(target, Opened(past, target) + 1)
  {
    assert Goes(g, past, b);
    if b.OpenInvocation? {
      var from :| Due(g, past, Some(from)) && Sent(g, past, from, b.node);
      var hops: nat :| Reaches(g, past, from, b.node, hops);
      StaysPut(g, past, from, b.node, hops);
    }
  }

  lemma {:induction false} StopWritesItsEnd(g: Graph, log: seq<Record>, k: nat, v: NodeId, n: nat)
    requires WellFormed(g, log) && k + 1 < |log| && log[k].step == OpenInvocation(v, n) && v in g.nodes && g.nodes[v].StopEnd?
    ensures log[k + 1].step == Finalize(RejectedRun)
    ensures k + 2 < |log| ==> log[k + 2].step.CloseInvocation? && log[k + 2].step.outcome == Some(Stopped)
    ensures |log| <= k + 3
  {
    NextFollows(g, log, k);
    if k + 2 < |log| {
      NextFollows(g, log, k + 1);
      if k + 3 < |log| {
        NextFollows(g, log, k + 2);
      }
    }
  }

  /** A gate rejected towards a stop ends the run rejected, with nothing shipped. */
  lemma {:induction false} RejectedGateStops(g: Graph, cap: Option<nat>, events: seq<Event>, k: nat, v: NodeId, n: nat, stop: NodeId)
    requires v in g.nodes && g.nodes[v].Gate? && NextNode(g.edges, v, Some(Rejected)) == Some(stop)
    requires stop in g.nodes && g.nodes[stop].StopEnd?
    requires EndOf(g, cap, events).Some? && Answers(LogOfRun(g, cap, events), k, GateTopic(v, n), Rejected)
    ensures EndOf(g, cap, events) == Some(RejectedRun)
    ensures
      var run := After(WalkOf(g), cap, events).tables.run;
      run.status == Ended(RejectedRun) && run.shipped.None?
  {
    var end := EndedLog(g, cap, events);
    RejectedGateEnds(g, LogOfRun(g, cap, events), end, k, v, n, stop);
    EndedUnshipped(g, cap, events);
  }

  lemma {:induction false} RejectedGateEnds(g: Graph, log: seq<Record>, end: End, k: nat, v: NodeId, n: nat, stop: NodeId)
    requires v in g.nodes && g.nodes[v].Gate? && NextNode(g.edges, v, Some(Rejected)) == Some(stop)
    requires stop in g.nodes && g.nodes[stop].StopEnd?
    requires WellFormed(g, log) && EndsAfter(g, log, end) && Answers(log, k, GateTopic(v, n), Rejected)
    ensures end == RejectedRun
  {
    EndIsQuiet(g, log, end);
    var c := AnswerIsWritten(g, log, end, k, GateTopic(v, n), Rejected);
    RejectedGateClosed(g, log, end, c + 1, v, n, stop);
  }

  lemma {:induction false} GateOpensStop(g: Graph, log: seq<Record>, k: nat, v: NodeId, n: nat, stop: NodeId) returns (m: nat)
    requires v in g.nodes && g.nodes[v].Gate? && NextNode(g.edges, v, Some(Rejected)) == Some(stop)
    requires stop in g.nodes && g.nodes[stop].StopEnd?
    requires WellFormed(g, log) && k + 1 < |log| && log[k].step == CloseInvocation(v, n, Done, Some(Verdict(Rejected)))
    ensures log[k + 1].step == OpenInvocation(stop, m)
  {
    var past := log[..k + 1];
    assert past[|past| - 1] == log[k];
    m := Opened(past, stop) + 1;
    GateLeadsOn(g, past, v, n, Rejected, stop, log[k + 1].step);
  }

  lemma {:induction false} RejectedGateClosed(g: Graph, log: seq<Record>, end: End, k: nat, v: NodeId, n: nat, stop: NodeId)
    requires v in g.nodes && g.nodes[v].Gate? && NextNode(g.edges, v, Some(Rejected)) == Some(stop)
    requires stop in g.nodes && g.nodes[stop].StopEnd?
    requires WellFormed(g, log) && EndsAfter(g, log, end)
    requires k < |log| && log[k].step == CloseInvocation(v, n, Done, Some(Verdict(Rejected)))
    ensures end == RejectedRun
  {
    if k + 1 == |log| {
      NotTheEnd(g, log, end, v, n, stop);
    }
    var m := GateOpensStop(g, log, k, v, n, stop);
    EndIsQuiet(g, log, end);
    StopEnds(g, log, end, k + 1, stop, m);
  }

  lemma {:induction false} StopEnds(g: Graph, log: seq<Record>, end: End, k: nat, stop: NodeId, m: nat)
    requires WellFormed(g, log) && Quiet(log, end) && stop in g.nodes && g.nodes[stop].StopEnd?
    requires k < |log| && log[k].step == OpenInvocation(stop, m)
    ensures end == RejectedRun
  {
    StopWritesItsEnd(g, log, k, stop, m);
  }

  /** A run does not end on a gate's close: there is somewhere to go. */
  lemma {:induction false} NotTheEnd(g: Graph, log: seq<Record>, end: End, v: NodeId, n: nat, stop: NodeId)
    requires v in g.nodes && g.nodes[v].Gate? && NextNode(g.edges, v, Some(Rejected)) == Some(stop)
    requires stop in g.nodes && g.nodes[stop].StopEnd?
    requires log != [] && log[|log| - 1].step == CloseInvocation(v, n, Done, Some(Verdict(Rejected)))
    ensures !EndsAfter(g, log, end)
  {
    if end.Errored? && EndsAfter(g, log, end) {
      var from, to :| Due(g, log, Some(from)) && Sent(g, log, from, to) && to !in g.nodes;
      var hops: nat :| Reaches(g, log, from, to, hops);
      StaysPut(g, log, from, to, hops);
    }
  }

  /** The review-loop team: rejecting the specification or the escalation ends the run unshipped. */
  lemma {:induction false} RejectedTeamRunStops(limit: nat, cap: Option<nat>, events: seq<Event>, k: nat, v: NodeId, n: nat)
    requires v in {PRD_GATE, ESCALATION}
    requires EndOf(Team(limit), cap, events).Some?
    requires Answers(LogOfRun(Team(limit), cap, events), k, GateTopic(v, n), Rejected)
    ensures EndOf(Team(limit), cap, events) == Some(RejectedRun)
    ensures After(WalkOf(Team(limit)), cap, events).tables.run.shipped.None?
  {
    TeamRejects(limit);
    RejectedGateStops(Team(limit), cap, events, k, v, n, STOP);
  }
}
