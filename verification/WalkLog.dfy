/** Every log of every schedule is a sentence: the walk's own state agrees with its log at every step. */
module WalkLog {
  import opened Common
  import opened TeamGraph
  import opened RunTables
  import opened RunWalk
  import opened CrashReplay
  import opened WalkTables
  import opened ExactlyOnce
  import opened WalkSentence

  lemma {:induction false} AskedMaySucceed(g: Graph, past: seq<Record>, l: Local)
    requires Told(g, past, l) && Action(g, l).Call?
    ensures Succeeds(g, past, Action(g, l).step)
  {
  }

  lemma {:induction false} GoesSucceeds(g: Graph, past: seq<Record>, b: Step)
    requires Goes(g, past, b)
    ensures Succeeds(g, past, b)
  {
    if past != [] {
      assert exists target :: Due(g, past, target);
    }
  }

  // ----- one record more -----

  lemma {:induction false} RecordAdded(past: seq<Record>, rec: Record)
    ensures LatestRun(past + [rec]) ==
      if rec.step.RunAgent? && rec.out.AgentOut? then Some(Execution(rec.step.node, rec.step.n, rec.out.result)) else LatestRun(past)
    ensures SpecRecorded(past + [rec]) <==> rec.step.RecordSpec? || SpecRecorded(past)
    ensures forall v :: Opened(past + [rec], v) == Opened(past, v) + if rec.step.OpenInvocation? && rec.step.node == v then 1 else 0
  {
    assert (past + [rec])[..|past|] == past;
  }

  lemma {:induction false} AtOnce(g: Graph, past: seq<Record>, v: NodeId)
    requires Due(g, past, Some(v))
    ensures ArrivesAt(g, past, v)
  {
    assert Reaches(g, past, v, v, 0);
  }

  lemma {:induction false} OneHopOn(g: Graph, past: seq<Record>, v: NodeId)
    requires ArrivesAt(g, past, v) && UsedUp(g, past, v)
    ensures ArrivesAt(g, past, EscalationTarget(g.edges, v).value)
  {
    var from :| Due(g, past, Some(from)) && Sent(g, past, from, v);
    var hops: nat :| Reaches(g, past, from, v, hops);
    assert Reaches(g, past, from, EscalationTarget(g.edges, v).value, hops + 1);
  }

  lemma {:induction false} FollowKnown(g: Graph, past: seq<Record>, l: Local, route: Option<Label>)
    requires Due(g, past, NextNode(g.edges, l.current, route))
    ensures Known(g, past, Follow(g, l, route))
  {
    var target := NextNode(g.edges, l.current, route);
    if target.Some? {
      AtOnce(g, past, target.value);
    }
  }

  // ----- each kind of step -----

  lemma {:induction false} OpeningKnown(g: Graph, past: seq<Record>, l: Local, out: Output)
    requires Known(g, past, l) && l.pc.Opening? && l.current in g.nodes
    ensures Known(g, past + [Record(OpenInvocation(l.current, l.n), out)], Advance(g, l, out))
  {
  }

  /** Once the spending of a round is on record, or there was none. */
  lemma {:induction false} AfterSpendingKnown(g: Graph, past: seq<Record>, l: Local, r: AgentResult)
    requires past != [] && LatestRun(past) == Some(Execution(l.current, l.n, r)) && l.hasSpec == SpecRecorded(past)
    requires l.current in g.nodes && g.nodes[l.current].Agent?
    requires r.status.Broken? ==> Rescued(g, l.current, l.n)
    requires forall b :: AfterAgent(g, past, l.current, l.n, r, b) ==> Succeeds(g, past, b)
    ensures Known(g, past, AfterSpending(g, l, r))
  {
    var next := AfterSpending(g, l, r);
    if next.pc.Closing? {
      assert AfterAgent(g, past, l.current, l.n, r, CloseInvocation(l.current, l.n, next.pc.status, next.pc.outcome));
    } else if next.pc.Specifying? {
      assert AfterAgent(g, past, l.current, l.n, r, RecordSpec(SpecKeyOf(next)));
    } else {
      assert AfterAgent(g, past, l.current, l.n, r, ClosingMessage(l.current, l.n));
    }
  }

  lemma {:induction false} RunningKnown(g: Graph, past: seq<Record>, l: Local, out: Output)
    requires Known(g, past, l) && l.pc.Running? && out.AgentOut? && l.current in g.nodes && g.nodes[l.current].Agent?
    ensures Known(g, past + [Record(RunAgent(l.current, l.n, EmitsOutcome(g.edges, l.current)), out)], Advance(g, l, out))
  {
    RecordAdded(past, Record(RunAgent(l.current, l.n, EmitsOutcome(g.edges, l.current)), out));
  }

  lemma {:induction false} PersistKnown(g: Graph, past: seq<Record>, l: Local, out: Output)
    requires Known(g, past, l) && l.pc.Spending? && l.hasSpec == SpecRecorded(past) && l.current in g.nodes && g.nodes[l.current].Agent?
    ensures Known(g, past + [Record(PersistCost(l.current, l.n, l.pc.result.usage), out)], Advance(g, l, out))
  {
    var r := l.pc.result;
    var rec := Record(PersistCost(l.current, l.n, r.usage), out);
    LatestIsLast(past);
    RecordAdded(past, rec);
    AfterSpendingKnown(g, past + [rec], l.(paid := Some(r.usage)), r);
  }

  lemma {:induction false} LatestIsLast(past: seq<Record>)
    requires past != [] && past[|past| - 1].step.RunAgent? && past[|past| - 1].out.AgentOut?
    ensures
      var last := past[|past| - 1];
      LatestRun(past) == Some(Execution(last.step.node, last.step.n, last.out.result))
  {
  }

  lemma {:induction false} FreeKnown(g: Graph, past: seq<Record>, l: Local)
    requires Known(g, past, l) && l.pc.Spending? && l.hasSpec == SpecRecorded(past) && l.current in g.nodes && g.nodes[l.current].Agent?
    requires !Charged(l.pc.result.usage)
    ensures Known(g, past, AfterSpending(g, l, l.pc.result))
  {
    LatestIsLast(past);
    AfterSpendingKnown(g, past, l, l.pc.result);
  }

  lemma {:induction false} SpecifyingKnown(g: Graph, past: seq<Record>, l: Local, out: Output)
    requires Known(g, past, l) && l.pc.Specifying? && l.current in g.nodes && g.nodes[l.current].Agent?
    ensures Known(g, past + [Record(RecordSpec(SpecKeyOf(l)), out)], Advance(g, l, out))
  {
    RecordAdded(past, Record(RecordSpec(SpecKeyOf(l)), out));
  }

  lemma {:induction false} RescuingKnown(g: Graph, past: seq<Record>, l: Local, out: Output)
    requires Known(g, past, l) && l.pc.Rescuing? && l.hasSpec == SpecRecorded(past) && out.Flag?
    requires l.current in g.nodes && g.nodes[l.current].Agent?
    ensures Known(g, past + [Record(ClosingMessage(l.current, l.n), out)], Advance(g, l, out))
  {
    RecordAdded(past, Record(ClosingMessage(l.current, l.n), out));
  }

  lemma {:induction false} ClosingKnown(g: Graph, past: seq<Record>, l: Local, out: Output)
    requires Known(g, past, l) && l.pc.Closing?
    ensures Known(g, past + [Record(CloseInvocation(l.current, l.n, l.pc.status, l.pc.outcome), out)], Advance(g, l, out))
  {
    var rec := Record(CloseInvocation(l.current, l.n, l.pc.status, l.pc.outcome), out);
    var longer := past + [rec];
    var closed := l.(trail := l.trail + [Visit(l.current, l.n, l.pc.status, l.pc.outcome, l.paid)]);
    RecordAdded(past, rec);
    match l.pc.then_
    case ThenRoute(route) => FollowKnown(g, longer, closed, route);
    case ThenGo(target) => AtOnce(g, longer, target);
    case _ =>
  }

  lemma {:induction false} BudgetKnown(g: Graph, past: seq<Record>, l: Local, out: Output)
    requires Known(g, past, l) && l.pc.Budgeting? && out.Flag?
    ensures Known(g, past + [Record(BudgetCheck, out)], Advance(g, l, out))
  {
    RecordAdded(past, Record(BudgetCheck, out));
    if out == Flag(false) {
      FollowKnown(g, past + [Record(BudgetCheck, out)], l, l.pc.route);
    }
  }

  lemma {:induction false} OverridingKnown(g: Graph, past: seq<Record>, l: Local, out: Output)
    requires Known(g, past, l) && l.pc.Overriding?
    ensures Known(g, past + [Record(MarkOverridden, out)], Advance(g, l, out))
  {
    RecordAdded(past, Record(MarkOverridden, out));
    FollowKnown(g, past + [Record(MarkOverridden, out)], l, l.pc.route);
  }

  lemma {:induction false} AskingKnown(g: Graph, past: seq<Record>, l: Local, step: Step, out: Output)
    requires Known(g, past, l) && Action(g, l) == Call(step) && OutFits(step, out)
    requires l.pc.GateOpening? || l.pc.AutoAsking? || l.pc.Waiting?
    ensures Known(g, past + [Record(step, out)], Advance(g, l, out))
  {
    RecordAdded(past, Record(step, out));
  }

  lemma {:induction false} AnsweredKnown(g: Graph, past: seq<Record>, l: Local, out: Output)
    requires Known(g, past, l) && l.pc.GateClosing? && (l.pc.ask.AtGate? ==> l.current in g.nodes && g.nodes[l.current].Gate?)
    ensures Known(g, past + [Record(CloseGate(TopicOf(l, l.pc.ask), l.pc.resolution), out)], Advance(g, l, out))
  {
    RecordAdded(past, Record(CloseGate(TopicOf(l, l.pc.ask), l.pc.resolution), out));
  }

  lemma {:induction false} EndingKnown(g: Graph, past: seq<Record>, l: Local, step: Step, out: Output)
    requires Known(g, past, l) && Action(g, l) == Call(step) && OutFits(step, out) && FinalFits(l.pc)
    requires l.pc.Shipping? || l.pc.Finalizing? || l.pc.Failing?
    requires Visiting(l.pc) ==> KindFits(g, l.current, l.pc)
    ensures Known(g, past + [Record(step, out)], Advance(g, l, out))
  {
    RecordAdded(past, Record(step, out));
  }

  // ----- the whole walk -----

  lemma {:induction false} RoundKnown(g: Graph, past: seq<Record>, l: Local, step: Step, out: Output)
    requires Known(g, past, l) && l.hasSpec == SpecRecorded(past) && Action(g, l) == Call(step) && OutFits(step, out)
    requires FinalFits(l.pc) && (Visiting(l.pc) ==> KindFits(g, l.current, l.pc))
    requires l.pc.Opening? || l.pc.Running? || l.pc.Spending?
    ensures Known(g, past + [Record(step, out)], Advance(g, l, out))
  {
    if l.pc.Opening? {
      OpeningKnown(g, past, l, out);
    } else if l.pc.Running? {
      RunningKnown(g, past, l, out);
    } else {
      PersistKnown(g, past, l, out);
    }
  }

  lemma {:induction false} SpecKnown(g: Graph, past: seq<Record>, l: Local, step: Step, out: Output)
    requires Known(g, past, l) && l.hasSpec == SpecRecorded(past) && Action(g, l) == Call(step) && OutFits(step, out)
    requires FinalFits(l.pc) && (Visiting(l.pc) ==> KindFits(g, l.current, l.pc))
    requires l.pc.Specifying? || l.pc.Rescuing?
    ensures Known(g, past + [Record(step, out)], Advance(g, l, out))
  {
    if l.pc.Specifying? {
      SpecifyingKnown(g, past, l, out);
    } else {
      RescuingKnown(g, past, l, out);
    }
  }

  lemma {:induction false} LeavingKnown(g: Graph, past: seq<Record>, l: Local, step: Step, out: Output)
    requires Known(g, past, l) && l.hasSpec == SpecRecorded(past) && Action(g, l) == Call(step) && OutFits(step, out)
    requires FinalFits(l.pc) && (Visiting(l.pc) ==> KindFits(g, l.current, l.pc))
    requires l.pc.Closing? || l.pc.Budgeting? || l.pc.Overriding?
    ensures Known(g, past + [Record(step, out)], Advance(g, l, out))
  {
    if l.pc.Closing? {
      ClosingKnown(g, past, l, out);
    } else if l.pc.Budgeting? {
      BudgetKnown(g, past, l, out);
    } else {
      OverridingKnown(g, past, l, out);
    }
  }

  lemma {:induction false} RestKnown(g: Graph, past: seq<Record>, l: Local, step: Step, out: Output)
    requires Known(g, past, l) && l.hasSpec == SpecRecorded(past) && Action(g, l) == Call(step) && OutFits(step, out)
    requires FinalFits(l.pc) && (Visiting(l.pc) ==> KindFits(g, l.current, l.pc))
    requires l.pc.GateOpening? || l.pc.AutoAsking? || l.pc.Waiting? || l.pc.GateClosing? || l.pc.Shipping? || l.pc.Finalizing? || l.pc.Failing?
    ensures Known(g, past + [Record(step, out)], Advance(g, l, out))
  {
    if l.pc.GateClosing? {
      AnsweredKnown(g, past, l, out);
    } else if l.pc.Shipping? || l.pc.Finalizing? || l.pc.Failing? {
      EndingKnown(g, past, l, step, out);
    } else {
      AskingKnown(g, past, l, step, out);
    }
  }

  lemma {:induction false} WorkKnown(g: Graph, past: seq<Record>, l: Local, step: Step, out: Output)
    requires Known(g, past, l) && l.hasSpec == SpecRecorded(past) && Action(g, l) == Call(step) && OutFits(step, out)
    requires FinalFits(l.pc) && (Visiting(l.pc) ==> KindFits(g, l.current, l.pc))
    requires l.pc.Opening? || l.pc.Running? || l.pc.Spending? || l.pc.Specifying? || l.pc.Rescuing?
    ensures Known(g, past + [Record(step, out)], Advance(g, l, out))
  {
    if l.pc.Specifying? || l.pc.Rescuing? {
      SpecKnown(g, past, l, step, out);
    } else {
      RoundKnown(g, past, l, step, out);
    }
  }

  lemma {:induction false} CallKnown(g: Graph, past: seq<Record>, l: Local, step: Step, out: Output)
    requires Known(g, past, l) && l.hasSpec == SpecRecorded(past) && Action(g, l) == Call(step) && OutFits(step, out)
    requires FinalFits(l.pc) && (Visiting(l.pc) ==> KindFits(g, l.current, l.pc))
    ensures Known(g, past + [Record(step, out)], Advance(g, l, out))
  {
    if l.pc.Opening? || l.pc.Running? || l.pc.Spending? || l.pc.Specifying? || l.pc.Rescuing? {
      WorkKnown(g, past, l, step, out);
    } else if l.pc.Closing? || l.pc.Budgeting? || l.pc.Overriding? {
      LeavingKnown(g, past, l, step, out);
    } else {
      RestKnown(g, past, l, step, out);
    }
  }

  /** An answer moves the walk inside its visit, or closes it; it never counts a round. */
  lemma {:induction false} AdvanceCounts(g: Graph, l: Local, step: Step, out: Output)
    requires Action(g, l) == Call(step) && OutFits(step, out) && FinalFits(l.pc) && (Visiting(l.pc) ==> KindFits(g, l.current, l.pc))
    requires l.pc.Closing? && l.pc.then_.ThenHalt? ==> !l.pc.then_.end.ShipRefused?
    ensures
      var l' := Advance(g, l, out);
      && l'.rounds == l.rounds && !l'.pc.Opening?
      && (l.pc.Closing? ==> l'.trail == l.trail + [VisitOf(l)] && !RowOpen(l'.pc))
      && (!l.pc.Closing? ==> l'.trail == l.trail)
      && (l.pc.Opening? ==> RowOpen(l'.pc) && l'.current == l.current)
      && (!l.pc.Closing? && !l.pc.Opening? ==> (RowOpen(l'.pc) <==> RowOpen(l.pc)) && (RowOpen(l.pc) ==> l'.current == l.current))
      && l'.hasSpec == (l.hasSpec || l.pc.Specifying?)
  {
    if l.pc.Closing? {
      AfterCloseStays(g, l.(trail := l.trail + [VisitOf(l)]), l.pc.then_);
    }
  }

  lemma {:induction false} CallNumbers(g: Graph, past: seq<Record>, l: Local, step: Step, out: Output)
    requires Numbers(g, past, l) && Action(g, l) == Call(step) && OutFits(step, out)
    requires FinalFits(l.pc) && (Visiting(l.pc) ==> KindFits(g, l.current, l.pc))
    ensures Numbers(g, past + [Record(step, out)], Advance(g, l, out))
  {
    var l', longer := Advance(g, l, out), past + [Record(step, out)];
    AdvanceCounts(g, l, step, out);
    RecordAdded(past, Record(step, out));
    forall v ensures Opened(longer, v) == CountOf(l'.trail, v) + if RowOpen(l'.pc) && l'.current == v then 1 else 0 {
      assert Opened(past, v) == CountOf(l.trail, v) + if RowOpen(l.pc) && l.current == v then 1 else 0;
      if l.pc.Closing? {
        CountAppend(l.trail, VisitOf(l), v);
      }
    }
    forall v ensures RoundsTold(g, longer, l', v) {
      assert RoundsTold(g, past, l, v) && Rounds(l', v) == Rounds(l, v);
    }
  }

  lemma {:induction false} CallTold(g: Graph, past: seq<Record>, l: Local, step: Step, out: Output)
    requires Told(g, past, l) && Action(g, l) == Call(step) && OutFits(step, out)
    requires FinalFits(l.pc) && (Visiting(l.pc) ==> KindFits(g, l.current, l.pc))
    ensures Told(g, past + [Record(step, out)], Advance(g, l, out))
  {
    CallKnown(g, past, l, step, out);
    CallNumbers(g, past, l, step, out);
    AdvanceCounts(g, l, step, out);
    RecordAdded(past, Record(step, out));
  }

  lemma {:induction false} CapReached(g: Graph, past: seq<Record>, l: Local)
    requires Numbers(g, past, l) && l.pc.Arriving?
    ensures Arrive(g, l).pc.Arriving? ==> UsedUp(g, past, l.current) && Arrive(g, l).current == EscalationTarget(g.edges, l.current).value
    ensures Opened(past, l.current) == CountOf(l.trail, l.current)
  {
    assert RoundsTold(g, past, l, l.current);
  }

  lemma {:induction false} ArriveKnown(g: Graph, past: seq<Record>, l: Local)
    requires Known(g, past, l) && Numbers(g, past, l) && l.pc.Arriving?
    requires var l' := Arrive(g, l); l'.pc.Opening? ==> l'.n == CountOf(l'.trail, l'.current) + 1
    ensures Known(g, past, Arrive(g, l))
  {
    CapReached(g, past, l);
    if Arrive(g, l).pc.Arriving? {
      OneHopOn(g, past, l.current);
    } else if Arrive(g, l).pc.Opening? {
      var from :| Due(g, past, Some(from)) && Sent(g, past, from, l.current);
      GoesSucceeds(g, past, OpenInvocation(l.current, Arrive(g, l).n));
    }
  }

  lemma {:induction false} ArriveNumbers(g: Graph, past: seq<Record>, l: Local)
    requires Numbers(g, past, l) && l.pc.Arriving?
    ensures Numbers(g, past, Arrive(g, l)) && Arrive(g, l).hasSpec == l.hasSpec
  {
    var l' := Arrive(g, l);
    assert l'.trail == l.trail && !RowOpen(l'.pc);
    forall v ensures RoundsTold(g, past, l', v) {
      assert RoundsTold(g, past, l, v);
      ArriveRounds(g, past, l, v);
    }
  }

  lemma {:induction false} ArriveRounds(g: Graph, past: seq<Record>, l: Local, v: NodeId)
    requires RoundsTold(g, past, l, v) && l.pc.Arriving?
    ensures RoundsTold(g, past, Arrive(g, l), v)
  {
  }

  lemma {:induction false} FreeNumbers(g: Graph, past: seq<Record>, l: Local)
    requires Numbers(g, past, l) && l.pc.Spending?
    ensures Numbers(g, past, AfterSpending(g, l, l.pc.result)) && AfterSpending(g, l, l.pc.result).hasSpec == l.hasSpec
  {
    var next := AfterSpending(g, l, l.pc.result);
    assert next.trail == l.trail && next.rounds == l.rounds && next.current == l.current && RowOpen(next.pc) && RowOpen(l.pc);
    forall v ensures RoundsTold(g, past, next, v) {
      assert RoundsTold(g, past, l, v);
    }
  }

  lemma {:induction false} LostNumbers(g: Graph, past: seq<Record>, l: Local)
    requires Numbers(g, past, l) && l.pc.Lost?
    ensures Numbers(g, past, l.(pc := Failing))
  {
    forall v ensures RoundsTold(g, past, l.(pc := Failing), v) {
      assert RoundsTold(g, past, l, v);
    }
  }

  lemma {:induction false} GotoTold(g: Graph, past: seq<Record>, l: Local)
    requires Told(g, past, l) && Action(g, l).Goto?
    requires Visiting(l.pc) ==> KindFits(g, l.current, l.pc)
    requires var l' := Action(g, l).next; l'.pc.Opening? ==> l'.n == CountOf(l'.trail, l'.current) + 1
    ensures Told(g, past, Action(g, l).next)
  {
    if l.pc.Arriving? {
      ArriveKnown(g, past, l);
      ArriveNumbers(g, past, l);
    } else if l.pc.Lost? {
      GoesSucceeds(g, past, MarkFailed);
      LostNumbers(g, past, l);
    } else {
      FreeKnown(g, past, l);
      FreeNumbers(g, past, l);
    }
  }

  lemma {:induction false} BootTold(g: Graph)
    ensures Told(g, [], Boot(g))
  {
    AtOnce(g, [], g.start);
  }

  /** The walk's place after `pos` records of a crash-free run agrees with those records. */
  ghost predicate ToldAt(g: Graph, cap: Option<nat>, history: seq<Entry>, l: Local, pos: nat) {
    pos <= |history| && Told(g, LogOf(history)[..pos], l) && GoodAt(g, cap, history, l, pos)
  }

  lemma {:induction false} OutputFits(t: Tables, step: Step, luck: Luck)
    ensures OutFits(step, OutputOf(t, step, luck))
  {
  }

  lemma {:induction false} StepTold(g: Graph, cap: Option<nat>, history: seq<Entry>, t: nat, l: Local, pos: nat)
    requires CrashFree(WalkOf(g), cap, history) && pos < |history|
    requires Play(WalkOf(g), LogOf(history), t) == Some((l, pos)) && Action(g, l).Call? && ToldAt(g, cap, history, l, pos)
    ensures ToldAt(g, cap, history, Advance(g, l, history[pos].out), pos + 1)
  {
    var e, log := history[pos], LogOf(history);
    RecordedAtPlace(g, cap, history, t, l, pos);
    StepGood(g, cap, history, t, l, pos);
    OutputFits(TablesAfter(cap, history[..pos + 1]), e.step, e.luck);
    CallTold(g, log[..pos], l, e.step, e.out);
    LogGrows(history, pos);
  }

  lemma {:induction false} LogGrows(history: seq<Entry>, pos: nat)
    requires pos < |history|
    ensures LogOf(history)[..pos + 1] == LogOf(history)[..pos] + [Record(history[pos].step, history[pos].out)]
  {
  }

  lemma {:induction false} MoveTold(g: Graph, cap: Option<nat>, history: seq<Entry>, l: Local, pos: nat)
    requires ToldAt(g, cap, history, l, pos) && Action(g, l).Goto?
    ensures ToldAt(g, cap, history, Action(g, l).next, pos)
  {
    MoveGood(g, TablesAfter(cap, history[..pos]), l);
    GotoTold(g, LogOf(history)[..pos], l);
  }

  lemma {:induction false} NextTold(g: Graph, cap: Option<nat>, history: seq<Entry>, t: nat, l: Local, pos: nat, l': Local, pos': nat)
    requires CrashFree(WalkOf(g), cap, history)
    requires Play(WalkOf(g), LogOf(history), t) == Some((l, pos)) && ToldAt(g, cap, history, l, pos)
    requires Moves(WalkOf(g), LogOf(history), l, pos, l', pos')
    ensures ToldAt(g, cap, history, l', pos')
  {
    assert WalkOf(g).act(l) == Action(g, l);
    if Action(g, l).Goto? {
      MoveTold(g, cap, history, l, pos);
    } else {
      StepTold(g, cap, history, t, l, pos);
    }
  }

  lemma {:induction false} AlwaysTold(g: Graph, cap: Option<nat>, history: seq<Entry>, t: nat, l: Local, pos: nat)
    requires CrashFree(WalkOf(g), cap, history)
    requires Play(WalkOf(g), LogOf(history), t) == Some((l, pos))
    ensures ToldAt(g, cap, history, l, pos)
  {
    var p, log := WalkOf(g), LogOf(history);
    var inv := (m: Local, k: nat) => ToldAt(g, cap, history, m, k);
    StartGood(g, cap);
    BootTold(g);
    forall u: nat, m: Local, k: nat, m': Local, k': nat
      | Play(p, log, u) == Some((m, k)) && inv(m, k) && Moves(p, log, m, k, m', k')
      ensures inv(m', k')
    {
      NextTold(g, cap, history, u, m, k, m', k');
    }
    PlayInduction(p, log, inv, t, l, pos);
  }

  /** A log is a sentence: every step may follow the records before it. */
  ghost predicate WellFormed(g: Graph, log: seq<Record>) {
    forall k {:trigger Succeeds(g, log[..k], log[k].step)} | 0 <= k < |log| :: Succeeds(g, log[..k], log[k].step)
  }

  lemma {:induction false} RecordSucceeds(g: Graph, cap: Option<nat>, history: seq<Entry>, k: nat)
    requires CrashFree(WalkOf(g), cap, history) && k < |history|
    ensures Succeeds(g, LogOf(history)[..k], history[k].step)
  {
    var p, log := WalkOf(g), LogOf(history);
    CrashFreePrefix(p, cap, history, k);
    var t: nat :| AsksAt(p, log[..k], t, history[k].step);
    var l := Play(p, log[..k], t).value.0;
    assert log[..k] + log[k..] == log;
    PlayPrefix(p, log[..k], log, t);
    AlwaysTold(g, cap, history, t, l, k);
    assert p.act(l) == Action(g, l);
    AskedMaySucceed(g, log[..k], l);
  }

  lemma {:induction false} HistoryIsWellFormed(g: Graph, cap: Option<nat>, history: seq<Entry>)
    requires CrashFree(WalkOf(g), cap, history)
    ensures WellFormed(g, LogOf(history))
  {
    forall k | 0 <= k < |history| ensures Succeeds(g, LogOf(history)[..k], history[k].step) {
      RecordSucceeds(g, cap, history, k);
    }
  }

  lemma {:induction false} EndIsTold(g: Graph, cap: Option<nat>, history: seq<Entry>, t: nat, l: Local)
    requires CrashFree(WalkOf(g), cap, history) && Play(WalkOf(g), LogOf(history), t) == Some((l, |history|)) && l.pc.Halted?
    ensures EndsAfter(g, LogOf(history), l.pc.end)
  {
    AlwaysTold(g, cap, history, t, l, |history|);
    assert LogOf(history)[..|history|] == LogOf(history);
  }

  /** Over any team graph, any budget cap and any schedule, crashes included: the log is a sentence. */
  lemma {:induction false} LogIsWellFormed(g: Graph, cap: Option<nat>, events: seq<Event>)
    ensures WellFormed(g, After(WalkOf(g), cap, events).log)
  {
    var w := ScheduleExplained(WalkOf(g), cap, events);
    HistoryIsWellFormed(g, cap, w.history);
  }

  lemma {:induction false} HaltedStops(g: Graph, l: Local)
    requires l.pc.Halted?
    ensures WalkOf(g).act(l).Stop?
  {
  }

  /** A run that has ended ended as its log says. */
  lemma {:induction false} EndIsWellFormed(g: Graph, cap: Option<nat>, events: seq<Event>)
    requires After(WalkOf(g), cap, events).local.pc.Halted?
    ensures EndsAfter(g, After(WalkOf(g), cap, events).log, After(WalkOf(g), cap, events).local.pc.end)
  {
    var s := After(WalkOf(g), cap, events);
    HaltedStops(g, s.local);
    var history := EndedRunIsCrashFree(WalkOf(g), cap, events);
    EndIsTold(g, cap, history, s.moves, s.local);
  }
}
