/** The review loop can always be finished: whatever a schedule on the script has done to it, crashes
    included, some crash-free continuation on the script ends it. */
module ReviewLoopFinish {
  import opened Common
  import opened TeamGraph
  import opened RunTables
  import opened RunWalk
  import opened CrashReplay
  import opened ReviewLoop

  /** What an execution on the script may bring. */
  function ScriptLuck(sc: Script, step: Step): Luck {
    var spends := step.RunAgent? && Spends(step.node);
    var verdict := if step.RunAgent? && step.node == REVIEWER then Some(VerdictAt(sc, step.n)) else None;
    Luck(spends, AgentResult(CompletedAgent, verdict, if spends then Usage(1, 0) else Usage(0, 0), true), Some(Uncommitted),
         Some(Approved), None, false, 0, None)
  }

  lemma {:induction false} ScriptLuckFits(sc: Script, step: Step)
    ensures FitsLuck(sc, step, ScriptLuck(sc, step))
  {
  }

  // ----- what gets smaller -----

  /** Steps a scripted run can still record. */
  function Unrecorded(sc: Script, s: System): nat {
    if |s.log| <= 10 * (LastVisit(sc) + 1) then 10 * (LastVisit(sc) + 1) - |s.log| else 0
  }

  /** Idle, the records still to replay; inside a body, the effects still to commit. */
  function Todo(g: Graph, s: System): nat {
    if s.exec.Idle? then (if s.pos <= |s.log| then |s.log| - s.pos else 0)
    else
      match Action(g, s.local)
      case Call(step) => if s.exec.progress <= EffectCount(step) then EffectCount(step) - s.exec.progress else 0
      case _ => 0
  }

  /** Local moves in a row. */
  function Moving(l: Local): nat {
    match l.pc
    case Arriving => if l.current == ESCALATION then 1 else 2
    case Spending(_) => 1
    case _ => 0
  }

  function Busy(s: System): nat {
    if s.exec.Idle? then 1 else 0
  }

  /** A lexicographic order. */
  predicate Closer(g: Graph, sc: Script, s: System, s': System) {
    || Unrecorded(sc, s') < Unrecorded(sc, s)
    || (Unrecorded(sc, s') == Unrecorded(sc, s) &&
        (|| Busy(s') < Busy(s)
         || (Busy(s') == Busy(s) && (Todo(g, s') < Todo(g, s) || (Todo(g, s') == Todo(g, s) && Moving(s'.local) < Moving(s.local))))))
  }

  lemma {:induction false} GotoMoves(g: Graph, sc: Script, l: Local)
    requires LoopTeam(g, sc.limit) && OnScript(sc, l) && Action(g, l).Goto?
    ensures Moving(Action(g, l).next) < Moving(l)
  {
    if l.pc.Arriving? && l.current != SHIP {
      if AtCap(sc, l) {
        CapOnScript(sc, l);
        TeamCapped(g, sc.limit, l);
      } else {
        EnterOnScript(sc, l);
        TeamEnter(g, sc.limit, l);
      }
    }
  }

  /** Where a scripted schedule has left the process. */
  ghost predicate Placed(g: Graph, sc: Script, s: System) {
    && OnScript(sc, s.local) && s.pos <= |s.log|
    && (s.exec.Body? ==>
          s.pos == |s.log| && Action(g, s.local).Call? && s.exec.progress <= EffectCount(Action(g, s.local).step))
  }

  lemma {:induction false} ScriptPlaces(g: Graph, sc: Script, events: seq<Event>)
    requires LoopTeam(g, sc.limit) && FollowsScript(g, sc, events)
    ensures Placed(g, sc, After(WalkOf(g), None, events))
    ensures |After(WalkOf(g), None, events).log| <= 10 * (LastVisit(sc) + 1)
  {
    var s := After(WalkOf(g), None, events);
    var w := ScriptExplained(g, sc, events);
    OnScriptAlong(g, sc, w.history, s.moves, s.local, s.pos);
    ReviewLoopIsBounded(g, sc, events);
    assert WalkOf(g).act(s.local) == Action(g, s.local);
  }

  function NextEvent(g: Graph, sc: Script, s: System): Event {
    match s.exec
    case Body(_, progress) =>
      if Action(g, s.local).Call? && progress < EffectCount(Action(g, s.local).step) then Commit else Checkpoint
    case Idle =>
      if Action(g, s.local).Call? && s.pos == |s.log| then Begin(ScriptLuck(sc, Action(g, s.local).step)) else Move
  }

  /** The next event brings the process closer, as long as it keeps within the bound of the log. */
  lemma {:induction false} NextIsCloser(g: Graph, sc: Script, s: System)
    requires LoopTeam(g, sc.limit) && Placed(g, sc, s) && !s.local.pc.Halted?
    requires |Happen(WalkOf(g), s, NextEvent(g, sc, s)).log| <= 10 * (LastVisit(sc) + 1)
    ensures Closer(g, sc, s, Happen(WalkOf(g), s, NextEvent(g, sc, s)))
  {
    assert WalkOf(g).act(s.local) == Action(g, s.local);
    if s.exec.Idle? && Action(g, s.local).Goto? {
      GotoMoves(g, sc, s.local);
    }
  }

  lemma {:induction false} NextFollows(g: Graph, sc: Script, events: seq<Event>)
    requires FollowsScript(g, sc, events)
    ensures
      var e := NextEvent(g, sc, After(WalkOf(g), None, events));
      FollowsScript(g, sc, events + [e]) && After(WalkOf(g), None, events + [e]) == Happen(WalkOf(g), After(WalkOf(g), None, events), e)
  {
    var s := After(WalkOf(g), None, events);
    var e := NextEvent(g, sc, s);
    assert (events + [e])[..|events|] == events;
    if e.Begin? {
      ScriptLuckFits(sc, Action(g, s.local).step);
    }
  }

  /** One event closer to the end. */
  lemma {:induction false} StepCloser(g: Graph, sc: Script, events: seq<Event>, s: System) returns (e: Event, s': System)
    requires LoopTeam(g, sc.limit) && FollowsScript(g, sc, events)
    requires s == After(WalkOf(g), None, events) && !s.local.pc.Halted?
    ensures FollowsScript(g, sc, events + [e]) && e != Crash
    ensures s' == After(WalkOf(g), None, events + [e]) && Closer(g, sc, s, s')
  {
    e := NextEvent(g, sc, s);
    s' := Happen(WalkOf(g), s, e);
    ScriptPlaces(g, sc, events);
    NextFollows(g, sc, events);
    ScriptPlaces(g, sc, events + [e]);
    NextIsCloser(g, sc, s);
  }

  /** `more` ends the run that `events` began, on the script and without a crash. */
  ghost predicate Finishes(g: Graph, sc: Script, events: seq<Event>, more: seq<Event>) {
    && FollowsScript(g, sc, events + more) && Crash !in more
    && After(WalkOf(g), None, events + more).local.pc.Halted?
  }

  lemma {:induction false} FinishesCons(g: Graph, sc: Script, events: seq<Event>, e: Event, rest: seq<Event>)
    requires e != Crash && Finishes(g, sc, events + [e], rest)
    ensures Finishes(g, sc, events, [e] + rest)
  {
    assert events + ([e] + rest) == events + [e] + rest;
  }

  lemma {:induction false} FinishFrom(g: Graph, sc: Script, events: seq<Event>, s: System, a: nat, b: nat, c: nat, d: nat)
    returns (more: seq<Event>)
    requires LoopTeam(g, sc.limit) && FollowsScript(g, sc, events) && s == After(WalkOf(g), None, events)
    requires a == Unrecorded(sc, s) && b == Busy(s) && c == Todo(g, s) && d == Moving(s.local)
    ensures Finishes(g, sc, events, more)
    decreases a, b, c, d
  {
    if s.local.pc.Halted? {
      more := [];
      assert events + [] == events;
    } else {
      var e, s' := StepCloser(g, sc, events, s);
      var rest := FinishFrom(g, sc, events + [e], s', Unrecorded(sc, s'), Busy(s'), Todo(g, s'), Moving(s'.local));
      FinishesCons(g, sc, events, e, rest);
      more := [e] + rest;
    }
  }

  /** From every state a scripted schedule reaches, crashes and all, the run can be finished on the
      script without another crash; `ReviewLoopOutcome` says what it then leaves. */
  lemma {:induction false} ReviewLoopCanFinish(g: Graph, sc: Script, events: seq<Event>) returns (more: seq<Event>)
    requires LoopTeam(g, sc.limit) && FollowsScript(g, sc, events)
    ensures FollowsScript(g, sc, events + more) && Crash !in more
    ensures After(WalkOf(g), None, events + more).local.pc.Halted?
  {
    var s := After(WalkOf(g), None, events);
    more := FinishFrom(g, sc, events, s, Unrecorded(sc, s), Busy(s), Todo(g, s), Moving(s.local));
  }
}
