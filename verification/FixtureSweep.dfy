/** The pre-flight sweep of stale runs: a run row with no live workflow and past a grace period is
    cancelled. Rows, workflows and the clock move on their own; the question is whom the sweep hits. */
module FixtureSweep {
  import opened Common

  type RunId = nat

  const GRACE: nat := 120

  datatype Status = Pending | Running | AwaitingHuman | Completed | Failed | Cancelled | OverBudget

  predicate NonTerminal(s: Status) {
    s.Pending? || s.Running? || s.AwaitingHuman?
  }

  /** The durable engine's own row for a run. */
  datatype Workflow = Live | Finished

  /** A run row. `launch` says whether a workflow is on its way: true of a real launch, false of a row
      a test client inserted. No column holds it; only the schedule of events depends on it. */
  datatype Run = Run(status: Status, created: nat, workflow: Option<Workflow>, launch: bool)

  type Runs = map<RunId, Run>

  predicate IsLive(r: Run) {
    r.workflow == Some(Live)
  }

  /** The sweep's `where`: non-terminal, older than the grace period, no live workflow. */
  predicate Stale(r: Run, now: nat) {
    NonTerminal(r.status) && r.created + GRACE < now && !IsLive(r)
  }

  function Swept(runs: Runs, now: nat): Runs {
    map id | id in runs :: if Stale(runs[id], now) then runs[id].(status := Cancelled) else runs[id]
  }

  class RunTable {
    var now: nat
    var runs: Runs

    constructor ()
      ensures now == 0 && runs == map[]
    {
      now, runs := 0, map[];
    }

    /** `_sweep_stale_fixture_runs`: one bulk update. */
    method SweepStaleFixtureRuns() returns (count: nat)
      modifies this`runs
      ensures runs == Swept(old(runs), now)
      ensures runs.Keys == old(runs).Keys
      ensures forall id | id in runs && old(runs)[id].status in {Completed, Failed, Cancelled, OverBudget} :: runs[id] == old(runs)[id]
      ensures forall id | id in runs && old(runs)[id].status in {Pending, Running, AwaitingHuman} ::
        if now > old(runs)[id].created + 120 && old(runs)[id].workflow != Some(Live)
        then runs[id] == old(runs)[id].(status := Cancelled)
        else runs[id] == old(runs)[id]
      ensures count == |set id | id in runs && runs[id] != old(runs)[id]|
      ensures forall id | id in runs && NonTerminal(runs[id].status) :: IsLive(runs[id]) || now <= runs[id].created + GRACE
    {
      count := |set id | id in runs && Stale(runs[id], now)|;
      runs := map id | id in runs :: if Stale(runs[id], now) then runs[id].(status := Cancelled) else runs[id];
      assert (set id | id in runs && runs[id] != old(runs)[id]) == (set id | id in old(runs) && Stale(old(runs)[id], now));
    }
  }

  // ----- the clocked system around it -----

  datatype State = State(now: nat, runs: Runs)

  datatype Event =
    | Tick
    | Insert(id: RunId, launch: bool)
    | StartWorkflow(id: RunId)
    | FinishWorkflow(id: RunId)
    | SetStatus(id: RunId, status: Status)
    | Sweep

  /** No launch is past the grace period without its workflow row. */
  ghost predicate OnTime(s: State) {
    forall id | id in s.runs :: s.runs[id].launch && s.runs[id].workflow.None? ==> s.now <= s.runs[id].created + GRACE
  }

  /** What may happen: an id is inserted once, only a launch gets a workflow, and only once. */
  predicate May(s: State, e: Event) {
    match e
    case Tick => true
    case Insert(id, _) => id !in s.runs
    case StartWorkflow(id) => id in s.runs && s.runs[id].launch && s.runs[id].workflow.None?
    case FinishWorkflow(id) => id in s.runs && IsLive(s.runs[id])
    case SetStatus(id, _) => id in s.runs
    case Sweep => true
  }

  function Step(s: State, e: Event): State
    requires May(s, e)
  {
    match e
    case Tick => s.(now := s.now + 1)
    case Insert(id, launch) => s.(runs := s.runs[id := Run(Pending, s.now, None, launch)])
    case StartWorkflow(id) => s.(runs := s.runs[id := s.runs[id].(workflow := Some(Live))])
    case FinishWorkflow(id) => s.(runs := s.runs[id := s.runs[id].(workflow := Some(Finished))])
    case SetStatus(id, status) => s.(runs := s.runs[id := s.runs[id].(status := status)])
    case Sweep => s.(runs := Swept(s.runs, s.now))
  }

  /** A run of the system in which every launch gets its workflow row in time. */
  ghost predicate Timely(trace: seq<State>, events: seq<Event>) {
    && |trace| == |events| + 1
    && (forall i | 0 <= i < |events| :: May(trace[i], events[i]) && trace[i + 1] == Step(trace[i], events[i]))
    && (forall i | 0 <= i < |trace| :: OnTime(trace[i]))
  }

  predicate CancelledBy(trace: seq<State>, events: seq<Event>, i: nat, id: RunId)
    requires i < |events| && |trace| == |events| + 1
  {
    events[i].Sweep? && id in trace[i].runs && Stale(trace[i].runs[id], trace[i].now)
  }

  /** A row that is not live and will get no workflow: finished, or never a launch. */
  predicate Dead(r: Run) {
    r.workflow == Some(Finished) || (r.workflow.None? && !r.launch)
  }

  lemma {:induction false} DeadStaysDead(s: State, e: Event, id: RunId)
    requires May(s, e) && id in s.runs && Dead(s.runs[id])
    ensures id in Step(s, e).runs && Dead(Step(s, e).runs[id])
  {
  }

  /** On time, what the sweep hits is dead. */
  lemma {:induction false} StaleIsDead(s: State, id: RunId)
    requires OnTime(s) && id in s.runs && Stale(s.runs[id], s.now)
    ensures Dead(s.runs[id])
  {
    var r := s.runs[id];
    assert r.workflow.Some? ==> r.workflow.value.Live? || r.workflow.value.Finished?;
  }

  /** Safety: in every timely run of the system, a run some sweep cancels is not live then, and is not
      live at any later moment. */
  lemma {:induction false} SweepNeverHitsTheLiving(trace: seq<State>, events: seq<Event>, i: nat, j: nat, id: RunId)
    requires Timely(trace, events) && i < |events| && CancelledBy(trace, events, i, id)
    requires i <= j < |trace|
    ensures id in trace[j].runs && Dead(trace[j].runs[id]) && !IsLive(trace[j].runs[id])
  {
    if i == j {
      assert OnTime(trace[i]);
      StaleIsDead(trace[i], id);
    } else {
      SweepNeverHitsTheLiving(trace, events, i, j - 1, id);
      assert May(trace[j - 1], events[j - 1]) && trace[j] == Step(trace[j - 1], events[j - 1]);
      DeadStaysDead(trace[j - 1], events[j - 1], id);
    }
  }

  lemma {:induction false} SweptNow(s: State, id: RunId)
    requires id in s.runs && NonTerminal(Step(s, Sweep).runs[id].status)
    ensures IsLive(s.runs[id]) || s.now <= s.runs[id].created + GRACE
  {
  }

  /** Between `i` and `j` the application or the engine did something to a run. */
  predicate Touched(events: seq<Event>, i: nat, j: nat, id: RunId)
    requires i <= j <= |events|
  {
    exists k | i < k < j :: (events[k].SetStatus? && events[k].id == id) || events[k] == FinishWorkflow(id)
  }

  /** Completeness: at every moment after a sweep, right after it or later, every non-terminal row that
      was there is accounted for: it is live, it was still within the grace, or since the sweep its
      workflow finished or its status was set. */
  lemma {:induction false} SweepIsComplete(trace: seq<State>, events: seq<Event>, i: nat, j: nat, id: RunId)
    requires Timely(trace, events) && i < |events| && events[i].Sweep? && i < j < |trace|
    requires id in trace[i].runs
    ensures id in trace[j].runs
    ensures NonTerminal(trace[j].runs[id].status) && !Touched(events, i, j, id) ==>
      IsLive(trace[j].runs[id]) || trace[i].now <= trace[i].runs[id].created + GRACE
    ensures !Touched(events, i, j, id) && !NonTerminal(trace[i + 1].runs[id].status) ==> !NonTerminal(trace[j].runs[id].status)
    decreases j
  {
    assert May(trace[j - 1], events[j - 1]) && trace[j] == Step(trace[j - 1], events[j - 1]);
    if j == i + 1 {
      if NonTerminal(trace[j].runs[id].status) {
        SweptNow(trace[i], id);
      }
    } else {
      SweepIsComplete(trace, events, i, j - 1, id);
      assert !Touched(events, i, j, id) ==> !Touched(events, i, j - 1, id) by {
        if k :| i < k < j - 1 && ((events[k].SetStatus? && events[k].id == id) || events[k] == FinishWorkflow(id)) {
          assert Touched(events, i, j, id);
        }
      }
      if (events[j - 1].SetStatus? && events[j - 1].id == id) || events[j - 1] == FinishWorkflow(id) {
        assert Touched(events, i, j, id);
      } else {
        StepTouches(trace[j - 1], events[j - 1], id);
      }
    }
  }

  /** Only setting its status makes a row non-terminal, and only finishing its workflow ends its life. */
  lemma {:induction false} StepTouches(s: State, e: Event, id: RunId)
    requires May(s, e) && id in s.runs && !(e.SetStatus? && e.id == id)
    ensures id in Step(s, e).runs
    ensures NonTerminal(Step(s, e).runs[id].status) ==> NonTerminal(s.runs[id].status)
    ensures IsLive(s.runs[id]) && e != FinishWorkflow(id) ==> IsLive(Step(s, e).runs[id])
  {
  }

  /** A test client's row left behind past the grace is terminal after the next sweep, and for good
      unless somebody sets its status again. */
  lemma {:induction false} ResidueIsCleared(trace: seq<State>, events: seq<Event>, i: nat, j: nat, id: RunId)
    requires Timely(trace, events) && i < |events| && events[i].Sweep? && i < j < |trace|
    requires id in trace[i].runs && !trace[i].runs[id].launch && trace[i].runs[id].workflow.None?
    requires trace[i].runs[id].created + GRACE < trace[i].now
    ensures id in trace[j].runs && Dead(trace[j].runs[id])
    ensures !Touched(events, i, j, id) ==> !NonTerminal(trace[j].runs[id].status)
    decreases j
  {
    assert May(trace[i], events[i]) && trace[i + 1] == Step(trace[i], events[i]);
    SweepIsComplete(trace, events, i, j, id);
    if j == i + 1 {
      DeadStaysDead(trace[i], events[i], id);
    } else {
      ResidueIsCleared(trace, events, i, j - 1, id);
      assert May(trace[j - 1], events[j - 1]) && trace[j] == Step(trace[j - 1], events[j - 1]);
      DeadStaysDead(trace[j - 1], events[j - 1], id);
    }
  }

  // ----- what a finished run keeps -----

  lemma {:induction false} StepKeepsFinished(s: State, e: Event, id: RunId)
    requires May(s, e) && id in s.runs && s.runs[id].status in {Completed, Failed, Cancelled, OverBudget}
    requires !(e.SetStatus? && e.id == id)
    ensures id in Step(s, e).runs && Step(s, e).runs[id].status == s.runs[id].status
  {
  }

  /** Over every run of the system, timely or not, a completed, failed, cancelled or over-budget run
      keeps its status until somebody sets it: no sweep touches it. */
  lemma {:induction false} FinishedStays(trace: seq<State>, events: seq<Event>, i: nat, j: nat, id: RunId)
    requires |trace| == |events| + 1 && i <= j < |trace|
    requires forall k | i <= k < j :: May(trace[k], events[k]) && trace[k + 1] == Step(trace[k], events[k])
    requires id in trace[i].runs && trace[i].runs[id].status in {Completed, Failed, Cancelled, OverBudget}
    requires forall k | i <= k < j :: !(events[k].SetStatus? && events[k].id == id)
    ensures id in trace[j].runs && trace[j].runs[id].status == trace[i].runs[id].status
  {
    if i < j {
      FinishedStays(trace, events, i, j - 1, id);
      StepKeepsFinished(trace[j - 1], events[j - 1], id);
    }
  }

  /** And a pending, running or waiting run is changed only by a sweep or by whoever sets its status;
      a sweep changes it iff it is more than two minutes old and has no live workflow. */
  lemma {:induction false} UnfinishedChangesIff(s: State, e: Event, id: RunId)
    requires May(s, e) && id in s.runs && s.runs[id].status in {Pending, Running, AwaitingHuman}
    requires !(e.SetStatus? && e.id == id)
    ensures id in Step(s, e).runs
    ensures Step(s, e).runs[id].status == s.runs[id].status || Step(s, e).runs[id].status == Cancelled
    ensures Step(s, e).runs[id].status == Cancelled <==> e.Sweep? && s.now > s.runs[id].created + 120 && s.runs[id].workflow != Some(Live)
  {
  }

  ghost predicate Steps(trace: seq<State>, events: seq<Event>, i: nat, j: nat)
    requires i <= j <= |events| && |trace| == |events| + 1
  {
    forall k | i <= k < j :: May(trace[k], events[k]) && trace[k + 1] == Step(trace[k], events[k])
  }

  /** A row keeps the moment of its insertion, and the clock never goes back. */
  lemma {:induction false} CreatedWhenInserted(trace: seq<State>, events: seq<Event>, i: nat, j: nat, id: RunId, launch: bool)
    requires |trace| == |events| + 1 && i < j < |trace| && Steps(trace, events, i, j) && events[i] == Insert(id, launch)
    ensures id in trace[j].runs && trace[j].runs[id].created == trace[i].now <= trace[j].now
  {
    if i + 1 < j {
      CreatedWhenInserted(trace, events, i, j - 1, id, launch);
    }
  }

  /** A new row, launch or not, is pending for its first two minutes whatever is swept, until somebody
      sets its status. */
  lemma {:induction false} YoungRowStays(trace: seq<State>, events: seq<Event>, i: nat, j: nat, id: RunId, launch: bool)
    requires |trace| == |events| + 1 && i < j < |trace| && Steps(trace, events, i, j) && events[i] == Insert(id, launch)
    requires trace[j].now <= trace[i].now + 120
    requires forall k | i < k < j :: !(events[k].SetStatus? && events[k].id == id)
    ensures id in trace[j].runs && trace[j].runs[id].status == Pending
  {
    if i + 1 < j {
      CreatedWhenInserted(trace, events, i, j - 1, id, launch);
      YoungRowStays(trace, events, i, j - 1, id, launch);
    }
  }

  /** A run whose workflow finished without a final status is cancelled by the next sweep past the grace. */
  lemma {:induction false} FinishedIsSwept(s: State, id: RunId)
    requires id in s.runs && s.runs[id].workflow == Some(Live) && s.runs[id].status in {Pending, Running, AwaitingHuman}
    requires s.now > s.runs[id].created + 120
    ensures Step(s, Sweep).runs[id] == s.runs[id]
    ensures Step(Step(s, FinishWorkflow(id)), Sweep).runs[id].status == Cancelled
  {
  }

  /** The state after so many seconds in which nothing else happens. */
  function Waited(s: State, seconds: nat): State {
    if seconds == 0 then s else Step(Waited(s, seconds - 1), Tick)
  }

  lemma {:induction false} OnlyTimePasses(s: State, seconds: nat)
    ensures Waited(s, seconds) == State(s.now + seconds, s.runs)
  {
    if seconds > 0 {
      OnlyTimePasses(s, seconds - 1);
    }
  }

  /** Every row that no workflow holds is cleared in the end: by any sweep after the time its grace has
      still to run, and by none before. */
  lemma {:induction false} SweptInTime(s: State, id: RunId, seconds: nat)
    requires id in s.runs && s.runs[id].status in {Pending, Running, AwaitingHuman} && s.runs[id].workflow != Some(Live)
    ensures Waited(s, seconds).runs == s.runs
    ensures Step(Waited(s, seconds), Sweep).runs[id].status == Cancelled <==> s.now + seconds > s.runs[id].created + 120
  {
    OnlyTimePasses(s, seconds);
  }

  /** A final status once set stays, whatever is swept, until somebody sets another. */
  lemma {:induction false} SetStatusStands(trace: seq<State>, events: seq<Event>, i: nat, j: nat, id: RunId, status: Status)
    requires |trace| == |events| + 1 && i < j < |trace| && Steps(trace, events, i, j) && events[i] == SetStatus(id, status)
    requires status in {Completed, Failed, Cancelled, OverBudget}
    requires forall k | i < k < j :: !(events[k].SetStatus? && events[k].id == id)
    ensures id in trace[j].runs && trace[j].runs[id].status == status
  {
    FinishedStays(trace, events, i + 1, j, id);
  }

  // ----- the assumption is needed, and the constant is exact -----

  /** The moment a launch's workflow starts, whether a sweep has already cancelled it: for any row a
      sweep may hit a coming launch exactly when its workflow row is later than the grace. */
  lemma {:induction false} GraceIsExact(s: State, id: RunId)
    requires id in s.runs && s.runs[id].launch && s.runs[id].workflow.None? && NonTerminal(s.runs[id].status)
    ensures
      var swept := Step(s, Sweep);
      && May(swept, StartWorkflow(id))
      && IsLive(Step(swept, StartWorkflow(id)).runs[id])
      && (Step(swept, StartWorkflow(id)).runs[id].status == Cancelled <==> s.now > s.runs[id].created + GRACE)
  {
    assert NonTerminal(s.runs[id].status) ==> s.runs[id].status != Cancelled;
  }
}
