/** The mid-loop crash check: what it reads of an ended run, and which ended runs it accepts. */
module LoopCrashCheck {
  import opened Common
  import opened TeamGraph
  import opened RunTables
  import opened RunWalk
  import opened CrashReplay
  import opened ReviewLoop

  /** What the check reads. `engineer` and `reviewer` are the invocation rows in iteration order,
      `agentRows` counts the `agent-cost` rows of the run and `pmRows` its `pm-llm` rows. */
  datatype Reading = Reading(
    workflowSucceeded: bool, status: RunStatus, tag: Option<Sha>, sha: Option<Sha>,
    artifactRows: nat, lineShipped: bool,
    engineer: seq<(nat, Invocation)>, reviewer: seq<(nat, Invocation)>,
    agentRows: nat, pmRows: nat, pids: seq<nat>, oldPid: nat, newPid: nat)

  /** The counts the check compares against. */
  datatype Expected = Expected(agentRows: nat, pmRows: nat, attempts: nat)

  /** The constants written in the script. */
  const SCRIPTED := Expected(3, 1, 3)

  /** The counts of the walk as it meters today: the entry node runs as an agent. */
  const UNIFIED := Expected(4, 0, 4)

  function Iterations(rows: seq<(nat, Invocation)>): seq<nat> {
    seq(|rows|, i requires 0 <= i < |rows| => rows[i].0)
  }

  predicate AllDone(rows: seq<(nat, Invocation)>) {
    forall i | 0 <= i < |rows| :: rows[i].1.status == Done
  }

  predicate HasOutcomes(rows: seq<(nat, Invocation)>, labels: seq<Label>) {
    |rows| == |labels| && forall i | 0 <= i < |rows| :: rows[i].1.outcome == Some(Verdict(labels[i]))
  }

  predicate Shipped1(r: Reading) {
    r.tag.Some? && r.sha.Some?
  }

  predicate LoopRan(r: Reading) {
    && Iterations(r.engineer) == [1, 2, 3] && AllDone(r.engineer)
    && Iterations(r.reviewer) == [1, 2, 3] && HasOutcomes(r.reviewer, [ChangesRequested, ChangesRequested, Approved])
  }

  predicate Reexecuted(r: Reading, e: Expected) {
    |r.pids| > e.attempts && r.pids[0] == r.oldPid && r.pids[|r.pids| - 1] == r.newPid && r.oldPid != r.newPid
  }

  predicate Accepts(r: Reading, e: Expected) {
    && r.workflowSucceeded && r.status == Ended(Completed) && Shipped1(r) && r.artifactRows == 1 && r.lineShipped
    && LoopRan(r) && r.agentRows == e.agentRows && r.pmRows == e.pmRows && Reexecuted(r, e)
  }

  /** The script itself: a module flag that any failed comparison sets. */
  class Check {
    var failed: bool

    constructor ()
      ensures !failed
    {
      failed := false;
    }

    method Fail()
      modifies this
      ensures failed
    {
      failed := true;
    }

    method RunCheck(r: Reading, e: Expected)
      modifies this
      ensures failed == (old(failed) || !Accepts(r, e))
    {
      if !r.workflowSucceeded {
        Fail();
      }
      if r.status != Ended(Completed) {
        Fail();
      }
      if !Shipped1(r) {
        Fail();
      }
      if r.artifactRows != 1 {
        Fail();
      }
      if !r.lineShipped {
        Fail();
      }
      if !(Iterations(r.engineer) == [1, 2, 3] && AllDone(r.engineer)) {
        Fail();
      }
      if !(Iterations(r.reviewer) == [1, 2, 3] && HasOutcomes(r.reviewer, [ChangesRequested, ChangesRequested, Approved])) {
        Fail();
      }
      if r.agentRows != e.agentRows {
        Fail();
      }
      if r.pmRows != e.pmRows {
        Fail();
      }
      if |r.pids| <= e.attempts {
        Fail();
      } else if r.pids[0] != r.oldPid {
        Fail();
      } else if r.pids[|r.pids| - 1] != r.newPid {
        Fail();
      } else if r.oldPid == r.newPid {
        Fail();
      }
    }
  }

  /** The comparisons one by one: three finished engineer rounds, three reviewer rounds that end in
      changes, changes, approval, the ship, the counts, and more attempts than expected that span the
      two processes. */
  lemma {:induction false} AcceptsMeans(r: Reading, e: Expected)
    ensures
      Accepts(r, e) <==>
        && r.workflowSucceeded && r.status == Ended(Completed) && r.tag != None && r.sha != None
        && r.artifactRows == 1 && r.lineShipped
        && |r.engineer| == 3 && (forall i | 0 <= i < 3 :: r.engineer[i].0 == i + 1 && r.engineer[i].1.status == Done)
        && |r.reviewer| == 3 && (forall i | 0 <= i < 3 :: r.reviewer[i].0 == i + 1)
        && r.reviewer[0].1.outcome == Some(Verdict(ChangesRequested)) && r.reviewer[1].1.outcome == Some(Verdict(ChangesRequested))
        && r.reviewer[2].1.outcome == Some(Verdict(Approved))
        && r.agentRows == e.agentRows && r.pmRows == e.pmRows
        && |r.pids| > e.attempts && r.pids[0] == r.oldPid && r.pids[|r.pids| - 1] == r.newPid && r.oldPid != r.newPid
  {
    OneToThree(r.engineer);
    OneToThree(r.reviewer);
  }

  lemma {:induction false} OneToThree(rows: seq<(nat, Invocation)>)
    ensures Iterations(rows) == [1, 2, 3] <==> |rows| == 3 && forall i | 0 <= i < 3 :: rows[i].0 == i + 1
  {
    assert forall i | 0 <= i < |rows| :: Iterations(rows)[i] == rows[i].0;
    if Iterations(rows) == [1, 2, 3] {
      assert |Iterations(rows)| == 3;
      assert rows[0].0 == Iterations(rows)[0] && rows[1].0 == Iterations(rows)[1] && rows[2].0 == Iterations(rows)[2];
    }
  }

  // ----- reading an ended run -----

  /** The rows of one node, in iteration order. */
  ghost predicate RowsOf(t: Tables, v: NodeId, rows: seq<(nat, Invocation)>) {
    && (forall i, j | 0 <= i < j < |rows| :: rows[i].0 < rows[j].0)
    && (forall i | 0 <= i < |rows| :: (v, rows[i].0) in t.invocations && t.invocations[(v, rows[i].0)] == rows[i].1)
    && (forall n: nat | (v, n) in t.invocations :: exists i | 0 <= i < |rows| :: rows[i].0 == n)
  }

  /** `r` reads the tables `t` of a run; nothing is said of its `pm-llm` rows. */
  ghost predicate ReadsRun(t: Tables, r: Reading) {
    && r.status == t.run.status && r.tag == t.repo.tag && r.sha == t.run.shipped
    && r.artifactRows == (if t.artifact.Some? then 1 else 0)
    && RowsOf(t, ENGINEER, r.engineer) && RowsOf(t, REVIEWER, r.reviewer)
    && r.agentRows == |t.costs|
    && r.pids == t.attempts
  }

  /** Every cost row the walk writes has an `agent-cost` key. */
  ghost predicate Reads(t: Tables, r: Reading) {
    ReadsRun(t, r) && r.pmRows == 0
  }

  lemma {:induction false} RowsAreOneToN(t: Tables, v: NodeId, rows: seq<(nat, Invocation)>, k: nat)
    requires RowsOf(t, v, rows) && forall n: nat :: (v, n) in t.invocations <==> 1 <= n <= k
    ensures |rows| == k && forall i | 0 <= i < |rows| :: rows[i].0 == i + 1
  {
    var i := 0;
    while i < |rows|
      invariant i <= |rows| && i <= k
      invariant forall j | 0 <= j < i :: rows[j].0 == j + 1
    {
      assert (v, rows[i].0) in t.invocations;
      if i > 0 {
        assert rows[i - 1].0 < rows[i].0;
      }
      assert (v, i + 1) in t.invocations;
      var m :| 0 <= m < |rows| && rows[m].0 == i + 1;
      assert i <= m && rows[i].0 <= rows[m].0;
      i := i + 1;
    }
    if k > 0 {
      assert (v, k) in t.invocations;
      var m :| 0 <= m < |rows| && rows[m].0 == k;
    }
  }

  /** The setting the check is made for: two forced revisions under the default cap of three. */
  const TWO_REVISIONS := Script(2, 3)

  lemma {:induction false} RowsOfLoop(t: Tables, v: NodeId, rows: seq<(nat, Invocation)>)
    requires LoopResult(TWO_REVISIONS, t) && RowsOf(t, v, rows) && (v == ENGINEER || v == REVIEWER)
    ensures Iterations(rows) == [1, 2, 3]
    ensures forall i | 0 <= i < 3 :: rows[i].1 == Invocation(Done, Some(ResultOf(TWO_REVISIONS, v, i + 1)))
  {
    assert RoundsOf(TWO_REVISIONS, v) == 3;
    RowsAreOneToN(t, v, rows, 3);
  }

  lemma {:induction false} EngineerRows(r: Reading, rows: seq<(nat, Invocation)>)
    requires r.engineer == rows && Iterations(rows) == [1, 2, 3]
    requires forall i | 0 <= i < 3 :: rows[i].1 == Invocation(Done, Some(ResultOf(TWO_REVISIONS, ENGINEER, i + 1)))
    ensures AllDone(r.engineer)
  {
    assert |Iterations(rows)| == 3;
  }

  lemma {:induction false} ReviewerRows(r: Reading, rows: seq<(nat, Invocation)>)
    requires r.reviewer == rows && Iterations(rows) == [1, 2, 3]
    requires forall i | 0 <= i < 3 :: rows[i].1 == Invocation(Done, Some(ResultOf(TWO_REVISIONS, REVIEWER, i + 1)))
    ensures HasOutcomes(r.reviewer, [ChangesRequested, ChangesRequested, Approved])
  {
    assert |Iterations(rows)| == 3;
  }

  lemma {:induction false} ReadingOfLoop(t: Tables, r: Reading)
    requires LoopResult(TWO_REVISIONS, t) && ReadsRun(t, r)
    ensures LoopRan(r) && Shipped1(r) && r.status == Ended(Completed) && r.agentRows == 4
  {
    RowsOfLoop(t, ENGINEER, r.engineer);
    RowsOfLoop(t, REVIEWER, r.reviewer);
    EngineerRows(r, r.engineer);
    ReviewerRows(r, r.reviewer);
  }

  lemma {:induction false} EndedLoop(events: seq<Event>, t: Tables, lost: nat)
    requires FollowsScript(Team(3), TWO_REVISIONS, events)
    requires After(WalkOf(Team(3)), None, events).local.pc == Halted(Completed)
    requires t == After(WalkOf(Team(3)), None, events).tables && lost == LostAttempts(WalkOf(Team(3)), None, events)
    ensures LoopResult(TWO_REVISIONS, t) && |t.attempts| == 4 + lost
  {
    TeamIsLoop(3);
    ReviewLoopOutcome(Team(3), TWO_REVISIONS, events);
  }

  /** The first attempt is by the process that was killed, the last by another. */
  predicate SpansProcesses(t: Tables, r: Reading)
    requires t.attempts != []
  {
    t.attempts[0] == r.oldPid && t.attempts[|t.attempts| - 1] == r.newPid && r.oldPid != r.newPid
  }

  /** What the check asks of an ended run that lost so many attempts. */
  predicate Acceptable(t: Tables, lost: nat, r: Reading, e: Expected) {
    && e.agentRows == 4 && e.pmRows == r.pmRows && e.attempts < 4 + lost
    && r.workflowSucceeded && r.lineShipped && t.artifact.Some? && t.attempts != [] && SpansProcesses(t, r)
  }

  lemma {:induction false} AcceptsLoop(t: Tables, lost: nat, r: Reading, e: Expected)
    requires LoopResult(TWO_REVISIONS, t) && ReadsRun(t, r) && |t.attempts| == 4 + lost
    ensures Accepts(r, e) <==> Acceptable(t, lost, r, e)
  {
    ReadingOfLoop(t, r);
    assert Reexecuted(r, e) <==> e.attempts < 4 + lost && SpansProcesses(t, r);
  }

  /** Which readings of an ended run the check accepts, for any constants: the run has four
      `agent-cost` rows and four attempts besides the ones crashes lost, so it is accepted exactly
      when the constants say four rows, the `pm-llm` rows there are and fewer attempts, and the
      snapshot, the line and the two processes are there. */
  lemma {:induction false} AcceptsIff(events: seq<Event>, r: Reading, e: Expected)
    requires FollowsScript(Team(3), TWO_REVISIONS, events)
    requires After(WalkOf(Team(3)), None, events).local.pc == Halted(Completed)
    requires ReadsRun(After(WalkOf(Team(3)), None, events).tables, r)
    ensures |After(WalkOf(Team(3)), None, events).tables.attempts| == 4 + LostAttempts(WalkOf(Team(3)), None, events)
    ensures
      Accepts(r, e) <==> Acceptable(After(WalkOf(Team(3)), None, events).tables, LostAttempts(WalkOf(Team(3)), None, events), r, e)
  {
    var t := After(WalkOf(Team(3)), None, events).tables;
    var lost := LostAttempts(WalkOf(Team(3)), None, events);
    EndedLoop(events, t, lost);
    AcceptsLoop(t, lost, r, e);
  }

  /** With its written constants the check accepts no run of the current walk, crashed or not and
      whatever `pm-llm` rows there are: the entry node now leaves a fourth `agent-cost` row. */
  lemma {:induction false} ScriptedCountsAreStale(events: seq<Event>, r: Reading)
    requires FollowsScript(Team(3), TWO_REVISIONS, events)
    requires After(WalkOf(Team(3)), None, events).local.pc == Halted(Completed)
    requires ReadsRun(After(WalkOf(Team(3)), None, events).tables, r)
    ensures r.agentRows == SCRIPTED.agentRows + 1
    ensures !Accepts(r, SCRIPTED)
    ensures forall e: Expected | e.agentRows != 4 :: !Accepts(r, e)
  {
    var t := After(WalkOf(Team(3)), None, events).tables;
    EndedLoop(events, t, LostAttempts(WalkOf(Team(3)), None, events));
    ReadingOfLoop(t, r);
  }

  lemma {:induction false} UnifiedMeans(t: Tables, lost: nat, r: Reading)
    requires |t.attempts| == 4 + lost && r.pmRows == 0
    ensures
      Acceptable(t, lost, r, UNIFIED) <==>
        && r.workflowSucceeded && r.lineShipped && t.artifact.Some? && lost >= 1
        && t.attempts[0] == r.oldPid && t.attempts[|t.attempts| - 1] == r.newPid && r.oldPid != r.newPid
  {
  }

  /** With the counts of the current walk the check accepts an ended run exactly when the snapshot
      row and the line are there, a crash lost at least one attempt, and the first and last
      attempts are by the two named, different processes. */
  lemma {:induction false} UnifiedCheckDetectsTheCrash(events: seq<Event>, r: Reading)
    requires FollowsScript(Team(3), TWO_REVISIONS, events)
    requires After(WalkOf(Team(3)), None, events).local.pc == Halted(Completed)
    requires Reads(After(WalkOf(Team(3)), None, events).tables, r)
    ensures |After(WalkOf(Team(3)), None, events).tables.attempts| >= 4
    ensures
      var t := After(WalkOf(Team(3)), None, events).tables;
      Accepts(r, UNIFIED) <==>
        && r.workflowSucceeded && r.lineShipped && t.artifact.Some?
        && LostAttempts(WalkOf(Team(3)), None, events) >= 1
        && t.attempts[0] == r.oldPid && t.attempts[|t.attempts| - 1] == r.newPid && r.oldPid != r.newPid
  {
    AcceptsIff(events, r, UNIFIED);
    UnifiedMeans(After(WalkOf(Team(3)), None, events).tables, LostAttempts(WalkOf(Team(3)), None, events), r);
  }

  /** The written attempt count no longer separates a crashed run from an undisturbed one: a run
      that lost nothing already has more attempts than it. */
  lemma {:induction false} ScriptedAttemptCountMissesNothingLost(events: seq<Event>)
    requires FollowsScript(Team(3), TWO_REVISIONS, events)
    requires After(WalkOf(Team(3)), None, events).local.pc == Halted(Completed)
    requires LostAttempts(WalkOf(Team(3)), None, events) == 0
    ensures |After(WalkOf(Team(3)), None, events).tables.attempts| > SCRIPTED.attempts
  {
    EndedLoop(events, After(WalkOf(Team(3)), None, events).tables, 0);
  }
}
