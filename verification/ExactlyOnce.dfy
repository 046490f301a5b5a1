/** Main results on the durable walk over any team graph, under every crash schedule. */
module ExactlyOnce {
  import opened Common
  import opened TeamGraph
  import opened RunTables
  import opened RunWalk
  import opened CrashReplay
  import opened WalkTables

  lemma {:induction false} OutputOfDurable(t: Tables, step: Step, luck: Luck)
    ensures OutputOf(Durable(t), step, luck) == OutputOf(t, step, luck)
  {
  }

  /** The step recorded at a place is the one the walk calls there. */
  lemma {:induction false} RecordedAtPlace(g: Graph, cap: Option<nat>, history: seq<Entry>, t: nat, l: Local, pos: nat)
    requires CrashFree(WalkOf(g), cap, history)
    requires pos < |history| && Play(WalkOf(g), LogOf(history), t) == Some((l, pos)) && Action(g, l).Call?
    ensures Action(g, l) == Call(history[pos].step)
    ensures history[pos].out == OutputOf(TablesAfter(cap, history[..pos + 1]), history[pos].step, history[pos].luck)
  {
    var p, log := WalkOf(g), LogOf(history);
    PlayShorter(p, log, pos, t);
    CrashFreePrefix(p, cap, history, pos);
    assert AsksAt(p, log[..pos], t, Action(g, l).step);
    AsksOneStep(p, log[..pos], Action(g, l).step, history[pos].step);
    var upTo := history[..pos + 1];
    if pos + 1 < |history| {
      CrashFreePrefix(p, cap, history, pos + 1);
    } else {
      assert upTo == history;
    }
  }

  lemma {:induction false} MoveGood(g: Graph, t: Tables, l: Local)
    requires Good(g, t, l) && Action(g, l).Goto?
    ensures Good(g, t, Action(g, l).next)
  {
    MoveOk(g, l);
    MoveWritten(g, t, l);
  }

  ghost predicate GoodAt(g: Graph, cap: Option<nat>, history: seq<Entry>, l: Local, pos: nat) {
    pos <= |history| && Good(g, TablesAfter(cap, history[..pos]), l)
  }

  lemma {:induction false} StepGood(g: Graph, cap: Option<nat>, history: seq<Entry>, t: nat, l: Local, pos: nat)
    requires CrashFree(WalkOf(g), cap, history) && pos < |history|
    requires Play(WalkOf(g), LogOf(history), t) == Some((l, pos)) && Action(g, l).Call? && GoodAt(g, cap, history, l, pos)
    ensures GoodAt(g, cap, history, Advance(g, l, history[pos].out), pos + 1)
  {
    var e, base := history[pos], TablesAfter(cap, history[..pos]);
    RecordedAtPlace(g, cap, history, t, l, pos);
    assert history[..pos + 1][..pos] == history[..pos];
    CallGood(g, base, l, e.step, e.luck);
    OutputOfDurable(Complete(base, e.step, e.luck, 0), e.step, e.luck);
  }

  lemma {:induction false} NextGood(g: Graph, cap: Option<nat>, history: seq<Entry>, t: nat, l: Local, pos: nat, l': Local, pos': nat)
    requires CrashFree(WalkOf(g), cap, history)
    requires Play(WalkOf(g), LogOf(history), t) == Some((l, pos)) && GoodAt(g, cap, history, l, pos)
    requires Moves(WalkOf(g), LogOf(history), l, pos, l', pos')
    ensures GoodAt(g, cap, history, l', pos')
  {
    assert WalkOf(g).act(l) == Action(g, l);
    if Action(g, l).Goto? {
      MoveGood(g, TablesAfter(cap, history[..pos]), l);
    } else {
      StepGood(g, cap, history, t, l, pos);
    }
  }

  /** The tables of a run without crashes agree with where its walk stands, at every point. */
  lemma {:induction false} GoodAlong(g: Graph, cap: Option<nat>, history: seq<Entry>, t: nat, l: Local)
    requires CrashFree(WalkOf(g), cap, history)
    requires Play(WalkOf(g), LogOf(history), t) == Some((l, |history|))
    ensures Good(g, TablesAfter(cap, history), l)
  {
    var p, log := WalkOf(g), LogOf(history);
    var inv := (m: Local, k: nat) => GoodAt(g, cap, history, m, k);
    StartGood(g, cap);
    forall u: nat, m: Local, k: nat, m': Local, k': nat
      | Play(p, log, u) == Some((m, k)) && inv(m, k) && Moves(p, log, m, k, m', k')
      ensures inv(m', k')
    {
      NextGood(g, cap, history, u, m, k, m', k');
    }
    PlayInduction(p, log, inv, t, l, |history|);
    assert history[..|history|] == history;
  }

  // ----- what holds at every moment, inside step bodies and between crashes -----

  lemma {:induction false} EffectKeepsUnique(t: Tables, step: Step, luck: Luck, i: nat, boot: nat)
    requires UniqueCosts(t.costs)
    ensures UniqueCosts(Effect(t, step, luck, i, boot).costs)
  {
    if step.PersistCost? && !HasCost(t.costs, step.node, step.n) {
      assert forall row | row in t.costs :: row.node != step.node || row.iteration != step.n;
    }
  }

  /** No schedule of crashes, replays and re-executions ever bills one round twice. */
  lemma {:induction false} NeverBilledTwice(p: Program, cap: Option<nat>, events: seq<Event>)
    ensures UniqueCosts(After(p, cap, events).tables.costs)
  {
    if events != [] {
      var s := After(p, cap, events[..|events| - 1]);
      NeverBilledTwice(p, cap, events[..|events| - 1]);
      if s.exec.Body? && p.act(s.local).Call? {
        EffectKeepsUnique(s.tables, p.act(s.local).step, s.exec.luck, s.exec.progress, s.boot);
      }
    }
  }

  ghost predicate RoundsKept(g: Graph, t: Tables) {
    forall v: NodeId, n: nat | (v, n) in t.invocations ::
      && n >= 1
      && (n > 1 ==> (v, n - 1) in t.invocations)
      && (v in g.nodes && g.nodes[v].Agent? ==> !Capped(g, v, n))
  }

  lemma {:induction false} CappedWithin(g: Graph, trail: seq<Visit>, v: NodeId, n: nat)
    requires WithinCap(g, trail) && (v, n) in Rows(trail) && v in g.nodes && g.nodes[v].Agent?
    ensures !Capped(g, v, n)
  {
    var last := trail[|trail| - 1];
    assert last in trail;
    if (v, n) != (last.node, last.n) {
      var shorter := trail[..|trail| - 1];
      assert forall x | x in shorter :: x in trail;
      CappedWithin(g, shorter, v, n);
    }
  }

  lemma {:induction false} GoodKeepsRounds(g: Graph, t: Tables, l: Local)
    requires Good(g, t, l)
    ensures RoundsKept(g, t)
  {
    forall v: NodeId, n: nat | (v, n) in t.invocations
      ensures n >= 1 && (n > 1 ==> (v, n - 1) in t.invocations) && (v in g.nodes && g.nodes[v].Agent? ==> !Capped(g, v, n))
    {
      RowKeys(l.trail, v, n);
      if n > 1 {
        RowKeys(l.trail, v, n - 1);
      }
      if (v, n) in Rows(l.trail) && v in g.nodes && g.nodes[v].Agent? {
        CappedWithin(g, l.trail, v, n);
      }
    }
  }

  /** Where a schedule has left the tables: those of a good walk, plus part of its next step. */
  lemma {:induction false} ScheduleGood(g: Graph, cap: Option<nat>, events: seq<Event>)
    returns (base: Tables, l: Local, luck: Luck, step: Step, k: nat)
    ensures Good(g, base, l) && k <= EffectCount(step)
    ensures k > 0 ==> Action(g, l) == Call(step)
    ensures Durable(After(WalkOf(g), cap, events).tables) == Residue(base, step, luck, k)
  {
    var p := WalkOf(g);
    var s := After(p, cap, events);
    var w := ScheduleExplained(p, cap, events);
    base, luck, step, k := TablesAfter(cap, w.history), w.prior, w.pending, w.reached;
    var t: nat;
    if k > 0 {
      t :| AsksAt(p, s.log, t, step);
      l := Play(p, s.log, t).value.0;
    } else {
      t, l := LastMove(p, cap, w.history);
    }
    GoodAlong(g, cap, w.history, t, l);
  }

  /** A run without crashes is playable to the end of its log. */
  lemma {:induction false} LastMove(p: Program, cap: Option<nat>, history: seq<Entry>) returns (t: nat, l: Local)
    requires CrashFree(p, cap, history)
    ensures Play(p, LogOf(history), t) == Some((l, |history|))
  {
    if history == [] {
      t, l := 0, p.boot;
      assert Play(p, LogOf(history), 0) == Some((p.boot, 0));
    } else {
      var shorter := history[..|history| - 1];
      var last := history[|history| - 1];
      var u: nat :| AsksAt(p, LogOf(shorter), u, last.step);
      PlayPrefix(p, LogOf(shorter), LogOf(history), u);
      t := u + 1;
      l := p.advance(Play(p, LogOf(shorter), u).value.0, last.out);
    }
  }

  lemma {:induction false} ResidueRounds(g: Graph, base: Tables, l: Local, step: Step, luck: Luck, k: nat)
    requires Good(g, base, l) && k <= EffectCount(step) && (k > 0 ==> Action(g, l) == Call(step))
    ensures RoundsKept(g, Residue(base, step, luck, k))
  {
    GoodKeepsRounds(g, base, l);
    if step.OpenInvocation? && k == 1 {
      OpenKeepsRounds(g, base, l, luck);
    } else {
      SameRows(base, step, luck, k);
    }
  }

  lemma {:induction false} OpenKeepsRounds(g: Graph, base: Tables, l: Local, luck: Luck)
    requires Good(g, base, l) && l.pc.Opening? && RoundsKept(g, base)
    ensures RoundsKept(g, Residue(base, OpenInvocation(l.current, l.n), luck, 1))
  {
    var step := OpenInvocation(l.current, l.n);
    PartialStep(base, step, luck, 0);
    assert Residue(base, step, luck, 0) == Durable(base);
    assert Residue(base, step, luck, 1) == Durable(Effect(Durable(base), step, luck, 0, 0));
    if l.n > 1 {
      RowKeys(l.trail, l.current, l.n - 1);
    }
  }

  /** Every effect but the opening of a row leaves the set of invocation rows alone. */
  lemma {:induction false} SameRows(base: Tables, step: Step, luck: Luck, k: nat)
    requires k <= EffectCount(step) && (step.OpenInvocation? ==> k == 0)
    ensures Residue(base, step, luck, k).invocations.Keys == base.invocations.Keys
  {
    if k > 0 {
      SameRows(base, step, luck, k - 1);
      PartialStep(base, step, luck, k - 1);
    }
  }

  lemma {:induction false} ResidueShip(t: Tables, step: Step, luck: Luck, k: nat)
    requires k <= EffectCount(step) && |t.repo.shipCommits| <= 1
    requires step.ShipStep? && k > 0 ==> t.repo.shipCommits == [] && t.repo.tag.None?
    ensures |Residue(t, step, luck, k).repo.shipCommits| <= 1
    ensures k == 0 ==> Residue(t, step, luck, k).repo == t.repo
  {
    if k > 0 {
      ResidueShip(t, step, luck, k - 1);
      PartialStep(t, step, luck, k - 1);
    }
  }

  /** At every moment of every schedule: rounds are numbered without gaps, no capped worker has a
      round beyond its limit, no round is billed twice, and at most one ship commit exists. */
  lemma {:induction false} AlwaysSafe(g: Graph, cap: Option<nat>, events: seq<Event>)
    ensures
      var t := After(WalkOf(g), cap, events).tables;
      RoundsKept(g, t) && UniqueCosts(t.costs) && |t.repo.shipCommits| <= 1
  {
    var t := After(WalkOf(g), cap, events).tables;
    NeverBilledTwice(WalkOf(g), cap, events);
    var base, l, luck, step, k := ScheduleGood(g, cap, events);
    ResidueShip(base, step, luck, k);
    ResidueRounds(g, base, l, step, luck, k);
    assert RoundsKept(g, t);
  }

  // ----- closed visits stay closed -----

  ghost predicate TrailClosed(l: Local) {
    (l.pc.Closing? ==> !l.pc.status.InProgress?) && forall x | x in l.trail :: !x.status.InProgress?
  }

  lemma {:induction false} AdvanceKeepsClosed(g: Graph, l: Local, out: Output)
    requires TrailClosed(l)
    ensures TrailClosed(Advance(g, l, out))
  {
    if l.pc.Closing? {
      var closed := l.trail + [Visit(l.current, l.n, l.pc.status, l.pc.outcome, l.paid)];
      assert Advance(g, l, out).trail == closed && !Advance(g, l, out).pc.Closing?;
    } else {
      assert Advance(g, l, out).trail == l.trail;
    }
  }

  lemma {:induction false} GotoKeepsClosed(g: Graph, l: Local)
    requires TrailClosed(l) && Action(g, l).Goto?
    ensures TrailClosed(Action(g, l).next)
  {
    assert Action(g, l).next.trail == l.trail;
  }

  lemma {:induction false} AlwaysClosed(g: Graph, log: seq<Record>, t: nat, l: Local, pos: nat)
    requires Play(WalkOf(g), log, t) == Some((l, pos))
    ensures TrailClosed(l)
  {
    if t > 0 {
      var (before, p) := Play(WalkOf(g), log, t - 1).value;
      AlwaysClosed(g, log, t - 1, before, p);
      assert WalkOf(g).act(before) == Action(g, before);
      if Action(g, before).Goto? {
        GotoKeepsClosed(g, before);
      } else {
        AdvanceKeepsClosed(g, before, log[p].out);
      }
    }
  }

  lemma {:induction false} ClosedRows(trail: seq<Visit>, key: (NodeId, nat))
    requires (forall x | x in trail :: !x.status.InProgress?) && key in Rows(trail)
    ensures !Rows(trail)[key].status.InProgress?
  {
    var last := trail[|trail| - 1];
    assert last in trail;
    if key != (last.node, last.n) {
      assert forall x | x in trail[..|trail| - 1] :: x in trail;
      ClosedRows(trail[..|trail| - 1], key);
    }
  }

  lemma {:induction false} EndedRowsAreClosed(l: Local)
    requires TrailClosed(l) && l.pc.Halted?
    ensures forall key | key in RowsNow(l) :: RowsNow(l)[key].status.InProgress? <==> l.pc.end.ShipRefused? && key == (l.current, l.n)
  {
    forall key | key in RowsNow(l) ensures RowsNow(l)[key].status.InProgress? <==> l.pc.end.ShipRefused? && key == (l.current, l.n) {
      if !(l.pc.end.ShipRefused? && key == (l.current, l.n)) {
        ClosedRows(l.trail, key);
      }
    }
  }

  /** A run that has ended, after any crashes: exactly one row for every round the walk made,
      closed unless it is the ship that was refused, and one cost row for every round that spent, the
      run's total is their sum, no question is left open, and the run has shipped, the tagged commit on
      the run row and no other ship commit made, iff it ended completed. */
  lemma {:induction false} EndedRunIsExact(g: Graph, cap: Option<nat>, events: seq<Event>)
    requires After(WalkOf(g), cap, events).local.pc.Halted?
    ensures
      var t, l := After(WalkOf(g), cap, events).tables, After(WalkOf(g), cap, events).local;
      && Numbered(l.trail) && WithinCap(g, l.trail)
      && t.invocations == RowsNow(l) && t.costs == CostRows(l.trail)
      && (forall key | key in t.invocations :: t.invocations[key].status.InProgress? <==> l.pc.end.ShipRefused? && key == (l.current, l.n))
      && (t.repo.shipCommits == [] || (l.pc.end == Completed && t.repo.tag.Some? && t.repo.shipCommits == [t.repo.tag.value]))
      && (l.pc.end != Errored && l.pc.end != ShipRefused ==> t.run.status == Ended(l.pc.end) && t.run.total == Some(Spent(t.costs)))
      && (forall topic | topic in t.tasks :: !t.tasks[topic].Pending?)
      && (t.run.shipped.Some? <==> l.pc.end == Completed) && t.run.shipped == t.repo.tag
      && (t.artifact.Some? ==> t.run.shipped.Some?)
      && (l.pc.end == ShipRefused ==> t.repo.tree.Untouched?)
  {
    var p := WalkOf(g);
    var s := After(p, cap, events);
    var history := EndedRunIsCrashFree(p, cap, events);
    GoodAlong(g, cap, history, s.moves, s.local);
    AlwaysClosed(g, LogOf(history), s.moves, s.local, |history|);
    EndedRowsAreClosed(s.local);
  }
}
