/** Persist-then-reap: which workspace directories may go, the two reclaim paths on disk, and the
    life of runs, ships, snapshots, cancels, crashes, sweeps and teardowns in any interleaving. */
module WorkspaceReaper {
  import opened Common

  type RunId = nat
  type Diff = nat

  datatype Status = Pending | Running | AwaitingHuman | Terminal

  /** `greenfield`: the row has no repository path. `compare`: the compare this trial run belongs to.
      `shipped`: the commit columns the ship step writes. `active`: its workflow still executes. */
  datatype RunRow = RunRow(status: Status, greenfield: bool, compare: Option<nat>, shipped: Option<Diff>, active: bool, started: bool)

  datatype Db = Db(runs: map<RunId, RunRow>, artifacts: map<RunId, Diff>, compares: set<nat>)

  /** Names under the workspace root: run ids, and anything else somebody put there. */
  datatype Name = Run(id: RunId) | Stray(text: string)

  /** A directory (with what was shipped in it) or something the scan does not follow. */
  datatype Entry = Dir(shipped: Option<Diff>) | NotADir

  predicate Live(s: Status) {
    s != Terminal
  }

  /** The one rule of both reclaim paths. */
  predicate Spared(db: Db, name: Name) {
    name.Run? && name.id in db.runs &&
    var row := db.runs[name.id];
    Live(row.status) ||
    (row.greenfield && name.id !in db.artifacts && !(row.compare.Some? && row.compare.value in db.compares))
  }

  /** What a sweep leaves when the directories in `stubborn` cannot be removed. */
  function Swept(db: Db, dirs: map<Name, Entry>, stubborn: set<Name>): map<Name, Entry> {
    map name | name in dirs && (dirs[name].NotADir? || Spared(db, name) || name in stubborn) :: dirs[name]
  }

  // ----- the reclaim paths on disk -----

  class WorkspaceRoot {
    var dirs: map<Name, Entry>

    constructor ()
      ensures dirs == map[]
    {
      dirs := map[];
    }

    /** Run-end delete: unlike the sweep, a missing row means "do not touch". */
    method DeleteRunWorkspace(db: Db, id: RunId, stubborn: set<Name>) returns (removed: bool)
      modifies this
      ensures removed <==> Run(id) in old(dirs) && old(dirs)[Run(id)].Dir? && id in db.runs && !Spared(db, Run(id)) && Run(id) !in stubborn
      ensures dirs == if removed then old(dirs) - {Run(id)} else old(dirs)
    {
      removed := false;
      if Run(id) !in dirs || !dirs[Run(id)].Dir? {
        return;
      }
      if id !in db.runs || Spared(db, Run(id)) {
        return;
      }
      if Run(id) !in stubborn {
        dirs := dirs - {Run(id)};
        removed := true;
      }
    }

    /** Boot and periodic sweep: scan, ask the database once, delete one by one. */
    method Sweep(db: Db, stubborn: set<Name>) returns (reaped: nat)
      modifies this
      ensures dirs == Swept(db, old(dirs), stubborn)
      ensures reaped == |old(dirs)| - |dirs|
    {
      var ours := set name | name in dirs && dirs[name].Dir?;
      var todo := ours;
      reaped := 0;
      while todo != {}
        invariant todo <= ours
        invariant forall name :: name in dirs <==>
          name in old(dirs) && (name in todo || old(dirs)[name].NotADir? || Spared(db, name) || name in stubborn)
        invariant forall name | name in dirs :: dirs[name] == old(dirs)[name]
        invariant reaped == |old(dirs)| - |dirs|
        decreases todo
      {
        var name :| name in todo;
        todo := todo - {name};
        if !Spared(db, name) && name !in stubborn {
          assert name in dirs;
          var rest := dirs - {name};
          assert rest.Keys == dirs.Keys - {name} && |rest.Keys| == |rest| && |dirs.Keys| == |dirs|;
          dirs := rest;
          reaped := reaped + 1;
        }
      }
      assert dirs == Swept(db, old(dirs), stubborn);
    }
  }

  // ----- the whole life, interleaved -----

  /** `doomed` are the directories some sweep or teardown has decided on and not deleted yet. */
  datatype World = World(db: Db, dirs: map<Name, Entry>, doomed: set<Name>)

  datatype Event =
    | Launch(id: RunId, greenfield: bool, compare: Option<nat>)
    | MakeWorkspace(id: RunId)
    | SetStatus(id: RunId, status: Status)   // the workflow moves its own row; Terminal finalizes it
    | Cancel(id: RunId)                      // the cancel request writes the row itself
    | LateGateWrite(id: RunId)               // a gate step's write that lands after a cancel
    | Ship(id: RunId, diff: Diff)            // tag in the workspace, columns on the row
    | Persist(id: RunId)                     // upsert of the snapshot, or of a re-ship
    | StopWorkflow(id: RunId)
    | DecideSweep                            // scan and ask the database
    | DecideTeardown(id: RunId)
    | Remove(name: Name)                     // one rmtree of an earlier decision
    | DeleteRun(id: RunId)                   // team deletion; the artifact cascades
    | DeleteCompare(trial: nat)
    | Crash

  function WithRow(w: World, id: RunId, row: RunRow): World {
    w.(db := w.db.(runs := w.db.runs[id := row]))
  }

  /** One event; what is not enabled changes nothing. */
  function Happen(w: World, e: Event): World {
    match e
    case Launch(id, greenfield, compare) =>
      if id in w.db.runs || id in w.db.artifacts || Run(id) in w.dirs || Run(id) in w.doomed then w
      else
        WithRow(w.(db := w.db.(compares := w.db.compares + if compare.Some? then {compare.value} else {})),
                id, RunRow(Pending, greenfield, compare, None, true, false))
    case MakeWorkspace(id) =>
      if id in w.db.runs && w.db.runs[id].active && Live(w.db.runs[id].status)
      then
        WithRow(w.(dirs := if Run(id) in w.dirs then w.dirs else w.dirs[Run(id) := Dir(None)]), id, w.db.runs[id].(started := true))
      else w
    case SetStatus(id, status) =>
      if id in w.db.runs && w.db.runs[id].active && Live(w.db.runs[id].status)
      then WithRow(w, id, w.db.runs[id].(status := status)) else w
    case Cancel(id) =>
      if id in w.db.runs && Live(w.db.runs[id].status) then WithRow(w, id, w.db.runs[id].(status := Terminal)) else w
    case LateGateWrite(id) =>
      if id in w.db.runs && w.db.runs[id].active && w.db.runs[id].shipped.None?
      then WithRow(w, id, w.db.runs[id].(status := Running)) else w
    case Ship(id, diff) =>
      if id in w.db.runs && w.db.runs[id].active && w.db.runs[id].compare.None? && w.db.runs[id].shipped.None?
         && Run(id) in w.dirs && w.dirs[Run(id)].Dir?
      then
        WithRow(w.(dirs := w.dirs[Run(id) := Dir(Some(diff))]), id, w.db.runs[id].(shipped := Some(diff)))
      else w
    case Persist(id) =>
      if id in w.db.runs && w.db.runs[id].active && w.db.runs[id].greenfield && w.db.runs[id].shipped.Some?
         && Run(id) in w.dirs && w.dirs[Run(id)].Dir? && w.dirs[Run(id)].shipped.Some?
      then w.(db := w.db.(artifacts := w.db.artifacts[id := w.dirs[Run(id)].shipped.value])) else w
    case StopWorkflow(id) =>
      if id in w.db.runs then WithRow(w, id, w.db.runs[id].(active := false)) else w
    case DecideSweep => w.(doomed := w.doomed + set name | name in w.dirs && w.dirs[name].Dir? && !Spared(w.db, name))
    case DecideTeardown(id) =>
      if id in w.db.runs && Run(id) in w.dirs && w.dirs[Run(id)].Dir? && !Spared(w.db, Run(id))
      then w.(doomed := w.doomed + {Run(id)}) else w
    case Remove(name) => if name in w.doomed then w.(dirs := w.dirs - {name}, doomed := w.doomed - {name}) else w
    case DeleteRun(id) => w.(db := w.db.(runs := w.db.runs - {id}, artifacts := w.db.artifacts - {id}))
    case DeleteCompare(c) => w.(db := w.db.(compares := w.db.compares - {c}))
    case Crash => w.(doomed := {})
  }

  function After(events: seq<Event>): World {
    if events == [] then World(Db(map[], map[], {}), map[], {})
    else Happen(After(events[..|events| - 1]), events[|events| - 1])
  }

  /** Each shipped greenfield run's diff is in its workspace or in the database. */
  ghost predicate DeliverableKept(w: World, id: RunId) {
    id in w.db.runs && w.db.runs[id].greenfield && w.db.runs[id].shipped.Some? ==>
      || (id in w.db.artifacts && w.db.artifacts[id] == w.db.runs[id].shipped.value)
      || (Run(id) in w.dirs && w.dirs[Run(id)] == Dir(w.db.runs[id].shipped))
  }

  /** A decision to delete rests on facts that never change back. */
  ghost predicate DoomOk(w: World, id: RunId) {
    Run(id) in w.doomed && id in w.db.runs ==>
      !w.db.runs[id].greenfield || id in w.db.artifacts || w.db.runs[id].compare.Some?
  }

  ghost predicate ArtifactOk(w: World, id: RunId) {
    && (id in w.db.artifacts ==> id in w.db.runs && w.db.runs[id].shipped == Some(w.db.artifacts[id]))
    && (id in w.db.runs && w.db.runs[id].compare.Some? ==> w.db.runs[id].shipped.None?)
    && (Run(id) in w.dirs && w.dirs[Run(id)].Dir? && w.dirs[Run(id)].shipped.Some? && id in w.db.runs ==>
          w.db.runs[id].shipped == w.dirs[Run(id)].shipped)
  }

  ghost predicate Safe(w: World) {
    forall id :: DeliverableKept(w, id) && DoomOk(w, id) && ArtifactOk(w, id)
  }

  lemma {:induction false} HappenSafe(w: World, e: Event)
    requires Safe(w)
    ensures Safe(Happen(w, e))
  {
    var w' := Happen(w, e);
    forall id ensures DeliverableKept(w', id) && DoomOk(w', id) && ArtifactOk(w', id) {
      assert DeliverableKept(w, id) && DoomOk(w, id) && ArtifactOk(w, id);
    }
  }

  /** Persist-then-reap is safe in every interleaving, non-atomic sweeps, late gate writes, failed
      snapshots, cancels and crashes included. */
  lemma {:induction false} DeliverableNeverLost(events: seq<Event>, id: RunId)
    ensures DeliverableKept(After(events), id)
  {
    AlwaysSafe(events);
  }

  lemma {:induction false} AlwaysSafe(events: seq<Event>)
    ensures Safe(After(events))
  {
    if events != [] {
      AlwaysSafe(events[..|events| - 1]);
      HappenSafe(After(events[..|events| - 1]), events[|events| - 1]);
    }
  }

  // ----- a run in flight keeps its workspace -----

  ghost predicate WorkspaceKept(w: World, id: RunId) {
    id in w.db.runs && Live(w.db.runs[id].status) && w.db.runs[id].started ==> Run(id) in w.dirs && Run(id) !in w.doomed
  }

  ghost predicate InFlightOk(w: World, id: RunId) {
    WorkspaceKept(w, id) && (id in w.db.runs && Live(w.db.runs[id].status) ==> Run(id) !in w.doomed)
  }

  /** The one event that can take an in-flight run's workspace: a gate write that sets a run of which
      nothing is shipped running again when its directory is decided on, or already gone. */
  predicate Harmful(w: World, e: Event, id: RunId) {
    && e == LateGateWrite(id) && id in w.db.runs && w.db.runs[id].active && w.db.runs[id].shipped.None?
    && (Run(id) in w.doomed || (w.db.runs[id].started && Run(id) !in w.dirs))
  }

  lemma {:induction false} StepKeepsInFlightIff(w: World, e: Event, id: RunId)
    requires InFlightOk(w, id)
    ensures InFlightOk(Happen(w, e), id) <==> !Harmful(w, e, id)
  {
  }

  ghost predicate AlwaysInFlightOk(events: seq<Event>, id: RunId) {
    forall k | 0 <= k <= |events| :: InFlightOk(After(events[..k]), id)
  }

  ghost predicate NeverHarmed(events: seq<Event>, id: RunId) {
    forall k | 0 <= k < |events| :: !Harmful(After(events[..k]), events[k], id)
  }

  lemma {:induction false} AfterNext(events: seq<Event>, k: nat)
    requires k < |events|
    ensures After(events[..k + 1]) == Happen(After(events[..k]), events[k])
  {
    assert events[..k + 1] == events[..k] + [events[k]];
    AfterAppend(events[..k], events[k]);
  }

  lemma {:induction false} UnharmedUpTo(events: seq<Event>, id: RunId, k: nat)
    requires NeverHarmed(events, id) && k <= |events|
    ensures InFlightOk(After(events[..k]), id)
  {
    if k > 0 {
      UnharmedUpTo(events, id, k - 1);
      AfterNext(events, k - 1);
      StepKeepsInFlightIff(After(events[..k - 1]), events[k - 1], id);
    }
  }

  /** A run that is pending, running or awaiting a human keeps its workspace, undecided on, at every
      moment of a schedule exactly when no event of the schedule is harmful where it happens. */
  lemma {:induction false} InFlightKeptIff(events: seq<Event>, id: RunId)
    ensures AlwaysInFlightOk(events, id) <==> NeverHarmed(events, id)
  {
    if NeverHarmed(events, id) {
      forall k | 0 <= k <= |events| ensures InFlightOk(After(events[..k]), id) {
        UnharmedUpTo(events, id, k);
      }
    }
    if AlwaysInFlightOk(events, id) {
      forall k | 0 <= k < |events| ensures !Harmful(After(events[..k]), events[k], id) {
        AfterNext(events, k);
        StepKeepsInFlightIff(After(events[..k]), events[k], id);
      }
    }
  }

  predicate NoLateWrite(events: seq<Event>, id: RunId) {
    forall e | e in events :: e.LateGateWrite? ==> e.id != id
  }

  /** In particular when no gate write of the run comes late at all. */
  lemma {:induction false} InFlightKeepsWorkspace(events: seq<Event>, id: RunId)
    requires NoLateWrite(events, id)
    ensures InFlightOk(After(events), id)
  {
    InFlightKeptIff(events, id);
    assert forall k | 0 <= k < |events| :: events[k] in events;
    assert events[..|events|] == events;
  }

  lemma {:induction false} AfterAppend(events: seq<Event>, e: Event)
    ensures After(events + [e]) == Happen(After(events), e)
  {
    assert (events + [e])[..|events|] == events;
  }

  /** The same fold from the front. */
  function RunFrom(w: World, events: seq<Event>): World
    decreases |events|
  {
    if events == [] then w else RunFrom(Happen(w, events[0]), events[1..])
  }

  lemma {:induction false} AfterIsRunFrom(before: seq<Event>, events: seq<Event>)
    ensures After(before + events) == RunFrom(After(before), events)
    decreases |events|
  {
    if events == [] {
      assert before + events == before;
    } else {
      AfterAppend(before, events[0]);
      AfterIsRunFrom(before + [events[0]], events[1..]);
      assert before + events == before + [events[0]] + events[1..];
    }
  }

  const CANCELLED := World(Db(map[0 := RunRow(Terminal, false, None, None, true, true)], map[], {}), map[Run(0) := Dir(None)], {})

  lemma {:induction false} CancelledWorld()
    ensures RunFrom(After([]), [Launch(0, false, None), MakeWorkspace(0), Cancel(0)]) == CANCELLED
  {
    var launched := World(Db(map[0 := RunRow(Pending, false, None, None, true, false)], map[], {}), map[], {});
    assert Happen(After([]), Launch(0, false, None)) == launched;
    assert RunFrom(launched, [MakeWorkspace(0), Cancel(0)]) == RunFrom(Happen(launched, MakeWorkspace(0)), [Cancel(0)]);
    assert RunFrom(CANCELLED, []) == CANCELLED;
  }

  lemma {:induction false} LateWrite()
    ensures !WorkspaceKept(RunFrom(CANCELLED, [DecideSweep, LateGateWrite(0), Remove(Run(0))]), 0)
  {
    var decided := CANCELLED.(doomed := {Run(0)});
    assert Happen(CANCELLED, DecideSweep) == decided;
    var revived := Happen(decided, LateGateWrite(0));
    assert RunFrom(decided, [LateGateWrite(0), Remove(Run(0))]) == RunFrom(revived, [Remove(Run(0))]);
    assert RunFrom(revived, [Remove(Run(0))]) == Happen(revived, Remove(Run(0)));
  }

  /** With such a write, a sweep's earlier decision can take the workspace of a run that reads as
      running again. */
  lemma {:induction false} LateWriteCanLoseWorkspace() returns (events: seq<Event>)
    ensures !WorkspaceKept(After(events), 0)
  {
    var cancel := [Launch(0, false, None), MakeWorkspace(0), Cancel(0)];
    var late := [DecideSweep, LateGateWrite(0), Remove(Run(0))];
    events := cancel + late;
    AfterIsRunFrom([], cancel);
    assert [] + cancel == cancel;
    AfterIsRunFrom(cancel, late);
    CancelledWorld();
    LateWrite();
  }

  // ----- a quiet sweep, over the machine -----

  /** One removal for every decided directory, in some order. */
  predicate RemovesAll(doomed: set<Name>, removals: seq<Event>) {
    (forall e | e in removals :: e.Remove?) && forall name | name in doomed :: Remove(name) in removals
  }

  lemma {:induction false} RemovalsRemove(w: World, removals: seq<Event>)
    requires RemovesAll(w.doomed, removals)
    ensures RunFrom(w, removals) == World(w.db, w.dirs - w.doomed, {})
    decreases |removals|
  {
    assert forall name | name in w.doomed :: Remove(name) in removals;
    if removals == [] {
      assert w.doomed == {};
      assert w.dirs - w.doomed == w.dirs;
    } else {
      var next := Happen(w, removals[0]);
      assert removals[0] in removals;
      var name := removals[0].name;
      forall x | x in next.doomed ensures Remove(x) in removals[1..] {
        assert Remove(x) in removals && x != name;
      }
      assert forall e | e in removals[1..] :: e in removals;
      RemovalsRemove(next, removals[1..]);
      assert next.dirs - next.doomed == w.dirs - w.doomed;
    }
  }

  /** A sweep that runs undisturbed, from any moment of any schedule at which nothing is decided on:
      whatever the order of the removals, it leaves what the sweep on disk leaves, and the database. */
  lemma {:induction false} QuietSweep(events: seq<Event>, removals: seq<Event>)
    requires After(events).doomed == {} && RemovesAll(Happen(After(events), DecideSweep).doomed, removals)
    ensures
      var w := After(events);
      After(events + [DecideSweep] + removals) == World(w.db, Swept(w.db, w.dirs, {}), {})
  {
    var w := After(events);
    var decided := Happen(w, DecideSweep);
    AfterAppend(events, DecideSweep);
    AfterIsRunFrom(events + [DecideSweep], removals);
    RemovalsRemove(decided, removals);
    assert w.dirs - decided.doomed == Swept(w.db, w.dirs, {});
  }

  /** What remains of run workspaces after a quiet sweep: exactly those of runs in flight and those of
      finished greenfield runs whose diff is stored nowhere else (a trial of a live compare never is
      spared for that). A shipped greenfield run whose directory is gone has its diff in the database,
      and a second sweep finds nothing to do. */
  lemma {:induction false} QuietSweepLeaves(events: seq<Event>, removals: seq<Event>, id: RunId)
    requires After(events).doomed == {} && RemovesAll(Happen(After(events), DecideSweep).doomed, removals)
    requires Run(id) in After(events).dirs && After(events).dirs[Run(id)].Dir?
    ensures
      var w := After(events + [DecideSweep] + removals);
      && (Run(id) in w.dirs <==>
            InFlight(w.db, id) || (OnlyCopy(w.db, id) && !TrialOfLiveCompare(w.db, id)))
      && (Run(id) in w.dirs ==> w.dirs[Run(id)] == After(events).dirs[Run(id)])
      && (Run(id) !in w.dirs && id in w.db.runs && w.db.runs[id].greenfield && w.db.runs[id].shipped.Some? ==>
            id in w.db.artifacts && w.db.artifacts[id] == w.db.runs[id].shipped.value)
      && Happen(w, DecideSweep) == w
  {
    QuietSweep(events, removals);
    DeliverableNeverLost(events + [DecideSweep] + removals, id);
    var w := After(events + [DecideSweep] + removals);
    assert Happen(w, DecideSweep).doomed == {};
  }

  predicate InFlight(db: Db, id: RunId) {
    id in db.runs && db.runs[id].status in {Pending, Running, AwaitingHuman}
  }

  /** A finished greenfield run with no snapshot in the database. */
  predicate OnlyCopy(db: Db, id: RunId) {
    id in db.runs && db.runs[id].status == Terminal && db.runs[id].greenfield && id !in db.artifacts
  }

  predicate TrialOfLiveCompare(db: Db, id: RunId) {
    id in db.runs && db.runs[id].compare.Some? && db.runs[id].compare.value in db.compares
  }

  /** The rule in other words. A name that is no run's is never spared. */
  lemma {:induction false} SparedIff(db: Db, name: Name)
    ensures Spared(db, name) <==>
      name.Run? && (InFlight(db, name.id) || (OnlyCopy(db, name.id) && !TrialOfLiveCompare(db, name.id)))
  {
  }

  /** Directories that are not a run's go, run rows or not, and what is no directory stays. */
  lemma {:induction false} QuietSweepClearsStrays(events: seq<Event>, removals: seq<Event>, name: Name)
    requires After(events).doomed == {} && RemovesAll(Happen(After(events), DecideSweep).doomed, removals)
    requires name in After(events).dirs && (name.Stray? || name.id !in After(events).db.runs || After(events).dirs[name].NotADir?)
    ensures name in After(events + [DecideSweep] + removals).dirs <==> After(events).dirs[name].NotADir?
  {
    QuietSweep(events, removals);
  }

  /** A deleted compare frees its trials: a finished greenfield one without a snapshot is spared again. */
  lemma {:induction false} DeletedCompareSpares(events: seq<Event>, trial: nat, id: RunId)
    requires OnlyCopy(After(events).db, id) && After(events).db.runs[id].compare == Some(trial)
    ensures Spared(After(events + [DeleteCompare(trial)]).db, Run(id))
  {
    AfterAppend(events, DeleteCompare(trial));
  }

  /** Only greenfield runs have a snapshot. */
  lemma {:induction false} SnapshotsAreGreenfield(events: seq<Event>, id: RunId)
    requires id in After(events).db.artifacts
    ensures id in After(events).db.runs && After(events).db.runs[id].greenfield
  {
    if events != [] {
      var before := events[..|events| - 1];
      AlwaysSafe(before);
      assert ArtifactOk(After(before), id);
      if id in After(before).db.artifacts {
        SnapshotsAreGreenfield(before, id);
      }
    }
  }

  /** A run's own teardown decides on its directory exactly when the run has a row and the rule does not
      spare it; a directory without a row is left to the sweep. */
  lemma {:induction false} TeardownDecides(events: seq<Event>, id: RunId)
    requires After(events).doomed == {} && Run(id) in After(events).dirs && After(events).dirs[Run(id)].Dir?
    ensures
      var w := After(events);
      After(events + [DecideTeardown(id)]).doomed ==
      if id in w.db.runs && w.db.runs[id].status == Terminal && (!OnlyCopy(w.db, id) || TrialOfLiveCompare(w.db, id)) then {Run(id)} else {}
  {
    AfterAppend(events, DecideTeardown(id));
  }

  /** A trial of a compare just launched is one of a live compare: once it is over nothing spares it. */
  lemma {:induction false} LaunchedTrialMayGo(events: seq<Event>, id: RunId, trial: nat)
    requires Unknown(After(events), id)
    ensures !Spared(After(events + [Launch(id, true, Some(trial))] + [SetStatus(id, Terminal)]).db, Run(id))
  {
    AfterAppend(events, Launch(id, true, Some(trial)));
    AfterAppend(events + [Launch(id, true, Some(trial))], SetStatus(id, Terminal));
  }

  /** A crash forgets every decision and nothing else. */
  lemma {:induction false} CrashForgetsDecisions(events: seq<Event>)
    ensures After(events + [Crash]) == World(After(events).db, After(events).dirs, {})
  {
    AfterAppend(events, Crash);
  }

  predicate SameRun(w: World, w': World, id: RunId) {
    && id in w.db.runs && id in w'.db.runs && w'.db.runs[id] == w.db.runs[id]
    && (id in w'.db.artifacts <==> id in w.db.artifacts)
    && (id in w.db.artifacts ==> w'.db.artifacts[id] == w.db.artifacts[id])
  }

  lemma {:induction false} StoppedStep(w: World, e: Event, id: RunId)
    requires id in w.db.runs && !w.db.runs[id].active && e != Cancel(id) && e != DeleteRun(id)
    ensures SameRun(w, Happen(w, e), id)
  {
  }

  /** Once its workflow is stopped a run's row moves only by a cancel or its deletion, and its snapshot
      only by its deletion. */
  lemma {:induction false} StoppedRunIsStill(events: seq<Event>, later: seq<Event>, id: RunId)
    requires id in After(events).db.runs
    requires forall e | e in later :: e != Cancel(id) && e != DeleteRun(id)
    ensures
      var stopped, w := After(events + [StopWorkflow(id)]), After(events + [StopWorkflow(id)] + later);
      SameRun(stopped, w, id) && !w.db.runs[id].active
  {
    var all := events + [StopWorkflow(id)];
    AfterAppend(events, StopWorkflow(id));
    if later == [] {
      assert all + later == all;
    } else {
      var before, e := later[..|later| - 1], later[|later| - 1];
      assert forall x | x in before :: x in later;
      StoppedRunIsStill(events, before, id);
      assert e in later;
      StoppedStep(After(all + before), e, id);
      AfterAppend(all + before, e);
      assert all + later == all + before + [e];
    }
  }

  // ----- the gate: planted workspaces, then one sweep -----

  datatype Kind = Brownfield | Orphan | UnPersisted | Persisted | Parked

  datatype Fixture = Fixture(id: RunId, kind: Kind, diff: Diff)

  /** How a fixture comes to be. */
  function Planting(f: Fixture): seq<Event> {
    [Launch(f.id, !f.kind.Brownfield?, None), MakeWorkspace(f.id)] +
    match f.kind
    case Brownfield => [SetStatus(f.id, Terminal)]
    case Orphan => [DeleteRun(f.id)]
    case UnPersisted => [Ship(f.id, f.diff), SetStatus(f.id, Terminal)]
    case Persisted => [Ship(f.id, f.diff), Persist(f.id), SetStatus(f.id, Terminal)]
    case Parked => [SetStatus(f.id, AwaitingHuman)]
  }

  function PlantAll(plan: seq<Fixture>): seq<Event> {
    if plan == [] then [] else Planting(plan[0]) + PlantAll(plan[1..])
  }

  predicate Unknown(w: World, id: RunId) {
    id !in w.db.runs && id !in w.db.artifacts && Run(id) !in w.dirs && Run(id) !in w.doomed
  }

  /** What planting leaves of its own run, and that it leaves everything else alone. */
  predicate Planted(w: World, w': World, f: Fixture) {
    && w'.doomed == w.doomed && w'.db.compares == w.db.compares
    && Run(f.id) in w'.dirs && w'.dirs[Run(f.id)].Dir? && w'.dirs - {Run(f.id)} == w.dirs - {Run(f.id)}
    && w'.db.runs - {f.id} == w.db.runs - {f.id} && w'.db.artifacts - {f.id} == w.db.artifacts - {f.id}
    && (f.kind.Orphan? <==> f.id !in w'.db.runs) && (f.kind.Persisted? <==> f.id in w'.db.artifacts)
    && (f.id in w'.db.runs ==>
          var row := w'.db.runs[f.id];
          row.greenfield == !f.kind.Brownfield? && row.compare.None? && row.status == if f.kind.Parked? then AwaitingHuman else Terminal)
  }

  lemma {:induction false} RunFromTwo(w: World, a: Event, b: Event, rest: seq<Event>)
    ensures RunFrom(w, [a, b] + rest) == RunFrom(Happen(Happen(w, a), b), rest)
  {
    assert ([a, b] + rest)[1..] == [b] + rest;
    assert ([b] + rest)[1..] == rest;
  }

  lemma {:induction false} RunFromCons(w: World, e: Event, rest: seq<Event>)
    ensures RunFrom(w, [e] + rest) == RunFrom(Happen(w, e), rest)
  {
    assert ([e] + rest)[1..] == rest;
  }

  /** The run launched and its workspace made. */
  function Begun(w: World, f: Fixture): World {
    World(w.db.(runs := w.db.runs[f.id := RunRow(Pending, !f.kind.Brownfield?, None, None, true, true)]), w.dirs[Run(f.id) := Dir(None)], w.doomed)
  }

  /** The same with the given row and directory. */
  function Having(w: World, f: Fixture, row: RunRow, shipped: Option<Diff>): World {
    World(w.db.(runs := w.db.runs[f.id := row]), w.dirs[Run(f.id) := Dir(shipped)], w.doomed)
  }

  lemma {:induction false} Begins(w: World, f: Fixture, rest: seq<Event>)
    requires Unknown(w, f.id)
    ensures RunFrom(w, [Launch(f.id, !f.kind.Brownfield?, None), MakeWorkspace(f.id)] + rest) == RunFrom(Begun(w, f), rest)
  {
    var launched := Happen(w, Launch(f.id, !f.kind.Brownfield?, None));
    var row := RunRow(Pending, !f.kind.Brownfield?, None, None, true, false);
    assert w.db.compares + {} == w.db.compares;
    assert launched == World(w.db.(runs := w.db.runs[f.id := row]), w.dirs, w.doomed);
    assert w.db.runs[f.id := row][f.id := row.(started := true)] == w.db.runs[f.id := row.(started := true)];
    assert Happen(launched, MakeWorkspace(f.id)) == Begun(w, f);
    RunFromTwo(w, Launch(f.id, !f.kind.Brownfield?, None), MakeWorkspace(f.id), rest);
  }

  lemma {:induction false} Ships(w: World, f: Fixture, rest: seq<Event>)
    requires !f.kind.Brownfield?
    ensures RunFrom(Begun(w, f), [Ship(f.id, f.diff)] + rest) ==
      RunFrom(Having(w, f, RunRow(Pending, true, None, Some(f.diff), true, true), Some(f.diff)), rest)
  {
    RunFromCons(Begun(w, f), Ship(f.id, f.diff), rest);
    assert Happen(Begun(w, f), Ship(f.id, f.diff)) == Having(w, f, RunRow(Pending, true, None, Some(f.diff), true, true), Some(f.diff));
  }

  lemma {:induction false} OthersUntouched(w: World, f: Fixture, row: RunRow, entry: Entry)
    ensures w.db.runs[f.id := row] - {f.id} == w.db.runs - {f.id}
    ensures w.dirs[Run(f.id) := entry] - {Run(f.id)} == w.dirs - {Run(f.id)}
    ensures w.db.artifacts[f.id := f.diff] - {f.id} == w.db.artifacts - {f.id}
  {
  }

  lemma {:induction false} Finishes(f: Fixture, w0: World, status: Status)
    requires f.id in w0.db.runs && w0.db.runs[f.id].active && w0.db.runs[f.id].status == Pending
    ensures RunFrom(w0, [SetStatus(f.id, status)]) == WithRow(w0, f.id, w0.db.runs[f.id].(status := status))
  {
    RunFromCons(w0, SetStatus(f.id, status), []);
    assert [SetStatus(f.id, status)] + [] == [SetStatus(f.id, status)];
  }

  lemma {:induction false} PlantsUnshipped(w: World, f: Fixture)
    requires (f.kind.Brownfield? || f.kind.Orphan? || f.kind.Parked?) && Unknown(w, f.id)
    ensures Planted(w, RunFrom(Begun(w, f), Planting(f)[2..]), f)
  {
    var row := RunRow(Pending, !f.kind.Brownfield?, None, None, true, true);
    var status := if f.kind.Parked? then AwaitingHuman else Terminal;
    OthersUntouched(w, f, row.(status := status), Dir(None));
    if f.kind.Orphan? {
      assert Planting(f)[2..] == [DeleteRun(f.id)] + [];
      RunFromCons(Begun(w, f), DeleteRun(f.id), []);
      assert w.db.runs[f.id := row] - {f.id} - {f.id} == w.db.runs - {f.id};
      assert w.db.artifacts - {f.id} - {f.id} == w.db.artifacts - {f.id};
    } else {
      assert Planting(f)[2..] == [SetStatus(f.id, status)];
      Finishes(f, Begun(w, f), status);
    }
  }

  lemma {:induction false} PlantsShipped(w: World, f: Fixture)
    requires (f.kind.UnPersisted? || f.kind.Persisted?) && Unknown(w, f.id)
    ensures Planted(w, RunFrom(Begun(w, f), Planting(f)[2..]), f)
  {
    var row := RunRow(Pending, true, None, Some(f.diff), true, true);
    var shipped := Having(w, f, row, Some(f.diff));
    OthersUntouched(w, f, row.(status := Terminal), Dir(Some(f.diff)));
    if f.kind.UnPersisted? {
      assert Planting(f)[2..] == [Ship(f.id, f.diff)] + [SetStatus(f.id, Terminal)];
      Ships(w, f, [SetStatus(f.id, Terminal)]);
      Finishes(f, shipped, Terminal);
    } else {
      assert Planting(f)[2..] == [Ship(f.id, f.diff)] + ([Persist(f.id)] + [SetStatus(f.id, Terminal)]);
      Ships(w, f, [Persist(f.id)] + [SetStatus(f.id, Terminal)]);
      RunFromCons(shipped, Persist(f.id), [SetStatus(f.id, Terminal)]);
      Finishes(f, Happen(shipped, Persist(f.id)), Terminal);
    }
  }

  lemma {:induction false} PlantingPlants(w: World, f: Fixture)
    requires Unknown(w, f.id)
    ensures Planted(w, RunFrom(w, Planting(f)), f)
  {
    Begins(w, f, Planting(f)[2..]);
    assert Planting(f) == [Launch(f.id, !f.kind.Brownfield?, None), MakeWorkspace(f.id)] + Planting(f)[2..];
    if f.kind.UnPersisted? || f.kind.Persisted? {
      PlantsShipped(w, f);
    } else {
      PlantsUnshipped(w, f);
    }
  }

  ghost predicate FreshPlan(w: World, plan: seq<Fixture>) {
    && (forall f | f in plan :: Unknown(w, f.id))
    && (forall i, j | 0 <= i < j < |plan| :: plan[i].id != plan[j].id)
  }

  predicate MustStay(k: Kind) {
    k.UnPersisted? || k.Parked?
  }

  predicate PlanIds(plan: seq<Fixture>, id: RunId) {
    exists f | f in plan :: f.id == id
  }

  predicate Elsewhere(plan: seq<Fixture>, name: Name) {
    name.Stray? || !PlanIds(plan, name.id)
  }

  /** `w'` has the same entry and the same verdict for a name as `w`. */
  predicate SameFor(w: World, w': World, name: Name) {
    && (name in w'.dirs <==> name in w.dirs) && (name in w.dirs ==> w'.dirs[name] == w.dirs[name])
    && (Spared(w'.db, name) <==> Spared(w.db, name))
    && (name.Run? ==> (Unknown(w', name.id) <==> Unknown(w, name.id)))
  }

  predicate InPlace(w: World, f: Fixture) {
    Run(f.id) in w.dirs && w.dirs[Run(f.id)].Dir? && (Spared(w.db, Run(f.id)) <==> MustStay(f.kind))
  }

  lemma {:induction false} RunFromConcat(w: World, a: seq<Event>, b: seq<Event>)
    ensures RunFrom(w, a + b) == RunFrom(RunFrom(w, a), b)
    decreases |a|
  {
    if a == [] {
      assert a + b == b;
    } else {
      assert (a + b)[1..] == a[1..] + b;
      RunFromConcat(Happen(w, a[0]), a[1..], b);
    }
  }

  ghost predicate AllInPlace(w: World, plan: seq<Fixture>) {
    forall f | f in plan :: InPlace(w, f)
  }

  ghost predicate SameElsewhere(w: World, w': World, plan: seq<Fixture>) {
    forall name | Elsewhere(plan, name) :: SameFor(w, w', name)
  }

  /** The planted workspaces are spared exactly as they should be, and no other verdict changes. */
  lemma {:induction false} PlanPlants(w: World, plan: seq<Fixture>)
    requires FreshPlan(w, plan)
    ensures RunFrom(w, PlantAll(plan)).doomed == w.doomed
    ensures AllInPlace(RunFrom(w, PlantAll(plan)), plan) && SameElsewhere(w, RunFrom(w, PlantAll(plan)), plan)
    decreases |plan|
  {
    if plan != [] {
      var f, rest := plan[0], plan[1..];
      var w1 := RunFrom(w, Planting(f));
      assert f in plan;
      PlantingPlants(w, f);
      StillFresh(w, w1, plan);
      PlanPlants(w1, rest);
      RunFromConcat(w, Planting(f), PlantAll(rest));
      PlanStep(w, w1, RunFrom(w1, PlantAll(rest)), plan);
    }
  }

  lemma {:induction false} StillFresh(w: World, w1: World, plan: seq<Fixture>)
    requires plan != [] && FreshPlan(w, plan) && Planted(w, w1, plan[0])
    ensures FreshPlan(w1, plan[1..])
  {
    forall x | x in plan[1..] ensures Unknown(w1, x.id) {
      var i :| 0 <= i < |plan[1..]| && plan[1..][i] == x;
      assert plan[i + 1] == x && x in plan;
      OtherName(w, w1, plan[0], Run(x.id));
    }
  }

  lemma {:induction false} PlanStep(w: World, w1: World, w2: World, plan: seq<Fixture>)
    requires plan != [] && Planted(w, w1, plan[0]) && forall i | 0 < i < |plan| :: plan[i].id != plan[0].id
    requires AllInPlace(w2, plan[1..]) && SameElsewhere(w1, w2, plan[1..])
    ensures AllInPlace(w2, plan) && SameElsewhere(w, w2, plan)
  {
    var f, rest := plan[0], plan[1..];
    assert Elsewhere(rest, Run(f.id)) && SameFor(w1, w2, Run(f.id));
    forall x | x in plan ensures InPlace(w2, x) {
      assert x == f || x in rest;
    }
    forall name | Elsewhere(plan, name) ensures SameFor(w, w2, name) {
      assert f in plan && forall x | x in rest :: x in plan;
      assert Elsewhere(rest, name) && SameFor(w1, w2, name);
      OtherName(w, w1, f, name);
    }
  }

  /** Planting one run's fixture changes nothing about any other name. */
  lemma {:induction false} OtherName(w: World, w': World, f: Fixture, name: Name)
    requires Planted(w, w', f) && name != Run(f.id)
    ensures SameFor(w, w', name)
  {
    assert name in w'.dirs - {Run(f.id)} <==> name in w'.dirs;
    assert name in w.dirs - {Run(f.id)} <==> name in w.dirs;
    if name.Run? {
      assert name.id in w'.db.runs - {f.id} <==> name.id in w'.db.runs;
      assert name.id in w.db.runs - {f.id} <==> name.id in w.db.runs;
      assert name.id in w'.db.artifacts - {f.id} <==> name.id in w'.db.artifacts;
      assert name.id in w.db.artifacts - {f.id} <==> name.id in w.db.artifacts;
    }
  }

  /** The gate, for any number of fixtures among whatever workspaces a schedule has left: plant them,
      sweep once in any order. Exactly the un-persisted and the parked ones of the fixtures stay, and
      of everything else exactly what the rule spared before they were planted. */
  lemma {:induction false} GateFixtures(events: seq<Event>, plan: seq<Fixture>, removals: seq<Event>)
    requires After(events).doomed == {} && FreshPlan(After(events), plan)
    requires RemovesAll(Happen(After(events + PlantAll(plan)), DecideSweep).doomed, removals)
    ensures
      var w, left := After(events), After(events + PlantAll(plan) + [DecideSweep] + removals).dirs;
      && (forall f | f in plan :: Run(f.id) in left <==> MustStay(f.kind))
      && (forall name | Elsewhere(plan, name) :: name in left <==> name in w.dirs && (w.dirs[name].NotADir? || Spared(w.db, name)))
  {
    var w, planted := After(events), After(events + PlantAll(plan));
    PlanPlants(w, plan);
    AfterIsRunFrom(events, PlantAll(plan));
    QuietSweep(events + PlantAll(plan), removals);
    forall f | f in plan ensures Run(f.id) in Swept(planted.db, planted.dirs, {}) <==> MustStay(f.kind) {
      assert InPlace(planted, f);
    }
    forall name | Elsewhere(plan, name)
      ensures name in Swept(planted.db, planted.dirs, {}) <==> name in w.dirs && (w.dirs[name].NotADir? || Spared(w.db, name))
    {
      assert SameFor(w, planted, name);
    }
  }
}
