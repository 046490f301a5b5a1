/** What executions bring, and what of it is recorded: the answers of agents, harness and humans, what
    the agents leave in the workspace for the ship, and which process made which attempt. */
module Executions {
  import opened Common
  import opened TeamGraph
  import opened RunTables
  import opened RunWalk
  import opened CrashReplay
  import opened WalkTables
  import opened LogTables

  // ----- answers -----

  /** The record `r` repeats what its execution met. An agent's verdict is heard only if the step asked
      for one and the agent completed. */
  predicate Repeats(r: Record, luck: Luck) {
    match r.step
    case RunAgent(_, _, emits) =>
      && r.out.AgentOut?
      && r.out.result.status == luck.result.status && r.out.result.usage == luck.result.usage && r.out.result.report == luck.result.report
      && r.out.result.verdict == (if emits && luck.result.status == CompletedAgent then luck.result.verdict else None)
    case ClosingMessage(_, _) => r.out == Flag(luck.closing)
    case AutoResolve(_) => r.out == Answer(luck.auto)
    case Receive(_) => r.out == Answer(luck.message)
    case _ => true
  }

  /** Whatever a step's execution answered is what is recorded when it is: no record is made up, and
      none is altered. */
  lemma {:induction false} RecordsRepeat(p: Program, cap: Option<nat>, events: seq<Event>)
    requires events != []
    ensures
      var s, s' := After(p, cap, events[..|events| - 1]), After(p, cap, events);
      s'.log != s.log ==>
        s.exec.Body? && |s'.log| == |s.log| + 1 && s'.log[..|s.log|] == s.log && Repeats(s'.log[|s.log|], s.exec.luck)
  {
  }

  // ----- the workspace -----

  /** What the agents have left in the workspace: the last change any of them made. */
  function LatestTree(history: seq<Entry>): Tree {
    if history == [] then Untouched
    else
      var last := history[|history| - 1];
      if last.step.RunAgent? && last.luck.tree.Some? then last.luck.tree.value else LatestTree(history[..|history| - 1])
  }

  lemma {:induction false} RepoStep(t: Tables, step: Step, luck: Luck)
    requires !step.ShipStep?
    ensures Complete(t, step, luck, 0).repo ==
      if step.RunAgent? && luck.tree.Some? then t.repo.(tree := luck.tree.value) else t.repo
  {
    CompleteSingle(t, step, luck);
  }

  /** Before the ship the repository is what the agents left, uncommitted by the walk and untagged. */
  lemma {:induction false} RepoBeforeShip(cap: Option<nat>, history: seq<Entry>)
    requires forall e | e in history :: !e.step.ShipStep?
    ensures TablesAfter(cap, history).repo == Repo(LatestTree(history), [], None)
  {
    if history != [] {
      var before, last := history[..|history| - 1], history[|history| - 1];
      assert forall e | e in before :: e in history;
      assert last in history;
      RepoBeforeShip(cap, before);
      RepoStep(TablesAfter(cap, before), last.step, last.luck);
    }
  }

  /** The first ship of a run answers by what the agents left: nothing to ship when they left nothing,
      their own last commit when they committed, else a new commit of what lies about. */
  lemma {:induction false} ShipAnswers(p: Program, cap: Option<nat>, history: seq<Entry>, k: nat)
    requires CrashFree(p, cap, history) && k < |history| && history[k].step == ShipStep
    requires forall e | e in history[..k] :: !e.step.ShipStep?
    ensures history[k].out == ShipOut(
      match LatestTree(history[..k])
      case Untouched => None
      case Uncommitted => Some(history[k].luck.sha)
      case OwnCommits(sha) => Some(sha)
      case ShipHead(sha) => Some(sha))
  {
    var before, upTo := history[..k], history[..k + 1];
    var t := TablesAfter(cap, before);
    RecordedOut(p, cap, history, k);
    assert upTo[..k] == before && upTo[|upTo| - 1] == history[k];
    RepoBeforeShip(cap, before);
    ShipTagsHead(t, history[k].luck);
  }

  // ----- processes -----

  function Crashes(events: seq<Event>): nat {
    if events == [] then 0 else Crashes(events[..|events| - 1]) + if events[|events| - 1].Crash? then 1 else 0
  }

  /** One event adds at most one attempt, the current process's. */
  lemma {:induction false} OneEvent(p: Program, s: System, e: Event)
    ensures Happen(p, s, e).boot == s.boot + if e.Crash? then 1 else 0
    ensures Happen(p, s, e).tables.attempts == s.tables.attempts || Happen(p, s, e).tables.attempts == s.tables.attempts + [s.boot]
  {
    if e.Commit? && s.exec.Body? && p.act(s.local).Call? {
      AttemptsGrow(s.tables, p.act(s.local).step, s.exec.luck, s.exec.progress, s.boot);
    }
  }

  /** A process is named by the crashes before it, and no attempt is a later process's. */
  lemma {:induction false} AttemptsByNow(p: Program, cap: Option<nat>, events: seq<Event>)
    ensures After(p, cap, events).boot == Crashes(events)
    ensures forall b | b in After(p, cap, events).tables.attempts :: b <= Crashes(events)
  {
    if events != [] {
      AttemptsByNow(p, cap, events[..|events| - 1]);
      OneEvent(p, After(p, cap, events[..|events| - 1]), events[|events| - 1]);
    }
  }

  /** `after` is `before` and attempts of processes later than `boot`. */
  ghost predicate Divides(before: seq<nat>, after: seq<nat>, boot: nat) {
    && |before| <= |after| && after[..|before|] == before
    && (forall b | b in before :: b <= boot)
    && (forall i | |before| <= i < |after| :: after[i] > boot)
  }

  lemma {:induction false} StillDivides(before: seq<nat>, after: seq<nat>, boot: nat, b: nat)
    requires Divides(before, after, boot) && b > boot
    ensures Divides(before, after + [b], boot)
  {
  }

  /** A crash divides the attempt log: what was there stays, by processes up to the one that died, and
      every later attempt is by a later one. */
  lemma {:induction false} CrashDividesAttempts(p: Program, cap: Option<nat>, events: seq<Event>, later: seq<Event>)
    ensures Divides(After(p, cap, events).tables.attempts, After(p, cap, events + [Crash] + later).tables.attempts, Crashes(events))
    ensures After(p, cap, events + [Crash] + later).boot > Crashes(events)
  {
    var all := events + [Crash];
    var longer := all + later;
    var s := After(p, cap, events);
    AttemptsByNow(p, cap, events);
    if later == [] {
      assert longer == all && all[..|all| - 1] == events;
      assert After(p, cap, all) == Happen(p, s, Crash);
    } else {
      var shorter, e := later[..|later| - 1], later[|later| - 1];
      var s' := After(p, cap, all + shorter);
      CrashDividesAttempts(p, cap, events, shorter);
      assert longer[..|longer| - 1] == all + shorter && longer[|longer| - 1] == e;
      assert After(p, cap, longer) == Happen(p, s', e);
      OneEvent(p, s', e);
      StillDivides(s.tables.attempts, s'.tables.attempts, Crashes(events), s'.boot);
    }
  }
}
