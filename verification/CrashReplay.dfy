/** Durable execution: the walk runs on a recorded log, each step body commits its effects one by
    one, and the process may die at any moment and start over. The main result is that crashes
    never change the durable outcome: every reachable state of the crashing system is a state of
    some run without crashes. */
module CrashReplay {
  import opened Common
  import opened RunTables
  import opened RunWalk

  /** One line of the durable log: the step that ran and what it returned. */
  datatype Record = Record(step: Step, out: Output)

  datatype Exec = Idle | Body(luck: Luck, progress: nat)

  /** `tables`, `log` survive a crash; the rest is the process. `moves` counts the walk's moves
      since this process started, `boot` names the process. */
  datatype System = System(tables: Tables, log: seq<Record>, local: Local, pos: nat, moves: nat, exec: Exec, boot: nat)

  datatype Event =
    | Move               // a local move, or the replay of a recorded output
    | Begin(luck: Luck)  // a step beyond the log starts to execute
    | Commit             // its next effect is committed
    | Checkpoint         // its output is recorded
    | Crash

  function Start(p: Program, cap: Option<nat>): System {
    System(Fresh(cap), [], p.boot, 0, 0, Idle, 0)
  }

  /** One event; an event that is not enabled changes nothing. */
  function Happen(p: Program, s: System, e: Event): System {
    match e
    case Crash => s.(local := p.boot, pos := 0, moves := 0, exec := Idle, boot := s.boot + 1)
    case Move =>
      if !s.exec.Idle? then s
      else (match p.act(s.local)
            case Goto(next) => s.(local := next, moves := s.moves + 1)
            case Call(_) =>
              if s.pos < |s.log|
              then s.(local := p.advance(s.local, s.log[s.pos].out), pos := s.pos + 1, moves := s.moves + 1)
              else s
            case Stop => s)
    case Begin(luck) =>
      if s.exec.Idle? && p.act(s.local).Call? && s.pos == |s.log| then s.(exec := Body(luck, 0)) else s
    case Commit =>
      if s.exec.Body? && p.act(s.local).Call? && s.exec.progress < EffectCount(p.act(s.local).step)
      then s.(tables := Effect(s.tables, p.act(s.local).step, s.exec.luck, s.exec.progress, s.boot),
              exec := s.exec.(progress := s.exec.progress + 1))
      else s
    case Checkpoint =>
      if s.exec.Body? && p.act(s.local).Call? && s.exec.progress == EffectCount(p.act(s.local).step)
      then
        var step := p.act(s.local).step;
        s.(log := s.log + [Record(step, OutputOf(s.tables, step, s.exec.luck))], exec := Idle)
      else s
  }

  /** The state after a whole schedule. */
  function After(p: Program, cap: Option<nat>, events: seq<Event>): System {
    if events == [] then Start(p, cap)
    else Happen(p, After(p, cap, events[..|events| - 1]), events[|events| - 1])
  }

  // ----- the walk as a function of the log -----

  /** Where the walk stands after `t` moves over `log`; `None` if it cannot make that many. */
  function Play(p: Program, log: seq<Record>, t: nat): (r: Option<(Local, nat)>)
    ensures r.Some? ==> r.value.1 <= |log|
  {
    if t == 0 then Some((p.boot, 0))
    else
      var before := Play(p, log, t - 1);
      if before.None? then None
      else
        var (l, pos) := before.value;
        match p.act(l)
        case Goto(next) => Some((next, pos))
        case Call(_) => if pos < |log| then Some((p.advance(l, log[pos].out), pos + 1)) else None
        case Stop => None
  }

  /** One move of the walk over `log`. */
  ghost predicate Moves(p: Program, log: seq<Record>, l: Local, pos: nat, l': Local, pos': nat) {
    match p.act(l)
    case Goto(next) => l' == next && pos' == pos
    case Call(_) => pos < |log| && pos' == pos + 1 && l' == p.advance(l, log[pos].out)
    case Stop => false
  }

  /** The last of `t` moves. */
  lemma {:induction false} PlayBack(p: Program, log: seq<Record>, t: nat, l: Local, pos: nat) returns (l0: Local, pos0: nat)
    requires t > 0 && Play(p, log, t) == Some((l, pos))
    ensures Play(p, log, t - 1) == Some((l0, pos0)) && Moves(p, log, l0, pos0, l, pos)
  {
    l0, pos0 := Play(p, log, t - 1).value.0, Play(p, log, t - 1).value.1;
  }

  /** `inv` is kept by every move the walk makes over `log`. */
  ghost predicate Kept(p: Program, log: seq<Record>, inv: (Local, nat) -> bool) {
    forall t: nat, l: Local, pos: nat, l': Local, pos': nat
      {:trigger Play(p, log, t), Moves(p, log, l, pos, l', pos')} ::
      Play(p, log, t) == Some((l, pos)) && inv(l, pos) && Moves(p, log, l, pos, l', pos') ==> inv(l', pos')
  }

  /** What holds at the start and is kept by every move holds wherever the walk gets. */
  lemma {:induction false} PlayInduction(p: Program, log: seq<Record>, inv: (Local, nat) -> bool, t: nat, l: Local, pos: nat)
    requires inv(p.boot, 0) && Kept(p, log, inv)
    requires Play(p, log, t) == Some((l, pos))
    ensures inv(l, pos)
  {
    if t > 0 {
      var l0, pos0 := PlayBack(p, log, t, l, pos);
      PlayInduction(p, log, inv, t - 1, l0, pos0);
    }
  }

  ghost predicate AsksAt(p: Program, log: seq<Record>, t: nat, step: Step) {
    Play(p, log, t).Some? && Play(p, log, t).value.1 == |log| && p.act(Play(p, log, t).value.0) == Call(step)
  }

  /** `step` is what the walk asks for once it has consumed all of `log`. */
  ghost predicate AsksNext(p: Program, log: seq<Record>, step: Step) {
    exists t: nat :: AsksAt(p, log, t, step)
  }

  lemma {:induction false} PlayPrefix(p: Program, log: seq<Record>, longer: seq<Record>, t: nat)
    requires log <= longer && Play(p, log, t).Some?
    ensures Play(p, longer, t) == Play(p, log, t)
  {
    if t > 0 {
      PlayPrefix(p, log, longer, t - 1);
    }
  }

  /** The other way round: a play that has not used the end of the log does not need it. */
  lemma {:induction false} PlayShorter(p: Program, log: seq<Record>, k: nat, t: nat)
    requires k <= |log| && Play(p, log, t).Some? && Play(p, log, t).value.1 <= k
    ensures Play(p, log[..k], t) == Play(p, log, t)
  {
    if t > 0 {
      PlayShorter(p, log, k, t - 1);
    }
  }

  /** The walk cannot get past a step it has no output for, nor past its end. */
  lemma {:induction false} PlayStops(p: Program, log: seq<Record>, t: nat, u: nat)
    requires t < u && Play(p, log, t).Some? && Play(p, log, t).value.1 == |log|
    requires !p.act(Play(p, log, t).value.0).Goto?
    ensures Play(p, log, u).None?
  {
    if u > t + 1 {
      PlayStops(p, log, t, u - 1);
    }
  }

  lemma {:induction false} AsksOnce(p: Program, log: seq<Record>, t: nat, a: Step, u: nat, b: Step)
    requires AsksAt(p, log, t, a) && AsksAt(p, log, u, b)
    ensures a == b
  {
    if t < u {
      PlayStops(p, log, t, u);
    } else if u < t {
      PlayStops(p, log, u, t);
    }
  }

  /** The walk is deterministic: a log has at most one next step. */
  lemma {:induction false} AsksOneStep(p: Program, log: seq<Record>, a: Step, b: Step)
    requires AsksNext(p, log, a) && AsksNext(p, log, b)
    ensures a == b
  {
    var t: nat :| AsksAt(p, log, t, a);
    var u: nat :| AsksAt(p, log, u, b);
    AsksOnce(p, log, t, a, u, b);
  }

  /** A log after which the walk has ended has no next step. */
  lemma {:induction false} EndedAsksNothing(p: Program, log: seq<Record>, t: nat, a: Step)
    requires Play(p, log, t).Some? && Play(p, log, t).value.1 == |log| && p.act(Play(p, log, t).value.0).Stop?
    ensures !AsksNext(p, log, a)
  {
    if u: nat :| AsksAt(p, log, u, a) {
      if t < u {
        PlayStops(p, log, t, u);
      } else if u < t {
        PlayStops(p, log, u, t);
      }
    }
  }

  // ----- the run without crashes -----

  /** A step of a run without crashes, with what its one execution met. */
  datatype Entry = Entry(step: Step, luck: Luck, out: Output)

  function LogOf(history: seq<Entry>): (log: seq<Record>)
    ensures |log| == |history|
    ensures forall i | 0 <= i < |log| :: log[i] == Record(history[i].step, history[i].out)
  {
    seq(|history|, i requires 0 <= i < |history| => Record(history[i].step, history[i].out))
  }

  /** The tables such a run leaves: every step body executed once, whole, in order. */
  function TablesAfter(cap: Option<nat>, history: seq<Entry>): Tables {
    if history == [] then Fresh(cap)
    else
      var last := history[|history| - 1];
      Durable(Complete(TablesAfter(cap, history[..|history| - 1]), last.step, last.luck, 0))
  }

  /** `history` is a run of `p` without crashes. */
  ghost predicate CrashFree(p: Program, cap: Option<nat>, history: seq<Entry>)
  {
    history == [] ||
    var last := history[|history| - 1];
    var before := history[..|history| - 1];
    && CrashFree(p, cap, before)
    && AsksNext(p, LogOf(before), last.step)
    && last.out == OutputOf(TablesAfter(cap, history), last.step, last.luck)
  }

  // ----- what a crashed execution leaves, and how the next one absorbs it -----

  /** The luck that explains the effects in place once effect `i` of a new execution is on top of
      the `reached` effects of earlier ones: the first commit's hash stays, the last workspace
      change and the last written snapshot stay. */
  function Merge(step: Step, prior: Luck, latest: Luck, i: nat, reached: nat): Luck {
    match step
    case RunAgent(_, _, _) =>
      if i == 1 && (latest.tree.Some? || reached <= 1) then prior.(tree := latest.tree) else prior
    case ShipStep =>
      if i == 0 && reached == 0 then prior.(sha := latest.sha)
      else if i == 3 && (latest.snapshot.Some? || reached <= 3) then prior.(snapshot := latest.snapshot)
      else prior
    case _ => prior
  }

  /** Once a step has answered, the rest of its luck is the answering execution's. */
  function Settle(prior: Luck, latest: Luck): Luck {
    latest.(tree := prior.tree, sha := prior.sha, snapshot := prior.snapshot)
  }

  /** The durable part of what `k` effects leave. */
  function Residue(t: Tables, step: Step, luck: Luck, k: nat): Tables {
    Durable(Partial(t, step, luck, k, 0))
  }

  /** The attempt log never influences another table. */
  lemma {:induction false} EffectIgnoresAttempts(t: Tables, step: Step, luck: Luck, i: nat, boot: nat)
    ensures Durable(Effect(t, step, luck, i, boot)) == Durable(Effect(Durable(t), step, luck, i, 0))
  {
    match step
    case RunAgent(_, _, _) =>
    case ShipStep =>
    case RecordSpec(_) =>
    case PersistCost(_, _, _) =>
    case OpenInvocation(_, _) =>
    case CloseInvocation(_, _, _, _) =>
    case OpenGate(_) =>
    case CloseGate(_, _) =>
    case _ =>
  }

  lemma {:induction false} PartialStep(t: Tables, step: Step, luck: Luck, k: nat)
    ensures Residue(t, step, luck, k + 1) == Durable(Effect(Residue(t, step, luck, k), step, luck, k, 0))
  {
    EffectIgnoresAttempts(Partial(t, step, luck, k, 0), step, luck, k, 0);
  }

  /** What is in place only depends on the part of the luck its effects have used. */
  lemma {:induction false} ResidueUses(t: Tables, step: Step, a: Luck, b: Luck, k: nat)
    requires k <= EffectCount(step)
    requires step.RunAgent? && k >= 2 ==> a.tree == b.tree
    requires step.ShipStep? && k >= 1 ==> a.sha == b.sha
    requires step.ShipStep? && k >= 4 ==> a.snapshot == b.snapshot
    ensures Residue(t, step, a, k) == Residue(t, step, b, k)
  {
    if k > 0 {
      ResidueUses(t, step, a, b, k - 1);
      PartialStep(t, step, a, k - 1);
      PartialStep(t, step, b, k - 1);
    }
  }

  ghost predicate Absorbs(t: Tables, step: Step, prior: Luck, latest: Luck, i: nat, reached: nat) {
    Durable(Effect(Residue(t, step, prior, reached), step, latest, i, 0))
      == Residue(t, step, Merge(step, prior, latest, i, reached), if i == reached then reached + 1 else reached)
  }

  lemma {:induction false} AbsorbNew(t: Tables, step: Step, prior: Luck, latest: Luck, i: nat)
    requires i < EffectCount(step)
    ensures Absorbs(t, step, prior, latest, i, i)
  {
    var merged := Merge(step, prior, latest, i, i);
    ResidueUses(t, step, prior, merged, i);
    PartialStep(t, step, merged, i);
  }

  /** Effect `i` on tables that already show it (and perhaps later ones) changes nothing, except
      that the workspace change and the snapshot of the latest execution win. */
  lemma {:induction false} AbsorbShip(t: Tables, prior: Luck, latest: Luck, i: nat, reached: nat)
    requires i < reached <= 4
    ensures Absorbs(t, ShipStep, prior, latest, i, reached)
  {
    var r0 := Durable(t);
    var r1 := r0.(repo := CommitTree(r0.repo, prior.sha));
    var r2 := r1.(repo := TagHead(r1.repo));
    PartialStep(t, ShipStep, prior, 0);
    assert Residue(t, ShipStep, prior, 0) == r0;
    assert Residue(t, ShipStep, prior, 1) == r1;
    if reached > 1 {
      PartialStep(t, ShipStep, prior, 1);
      assert Residue(t, ShipStep, prior, 2) == r2;
    }
    if reached > 2 {
      PartialStep(t, ShipStep, prior, 2);
    }
    if reached > 3 {
      PartialStep(t, ShipStep, prior, 3);
    }
    if i == 3 {
      var merged := Merge(ShipStep, prior, latest, i, reached);
      ResidueUses(t, ShipStep, prior, merged, 3);
      PartialStep(t, ShipStep, merged, 3);
    }
  }

  lemma {:induction false} AbsorbSingle(t: Tables, step: Step, prior: Luck, latest: Luck)
    requires EffectCount(step) == 1
    ensures Absorbs(t, step, prior, latest, 0, 1)
  {
    PartialStep(t, step, prior, 0);
    assert Residue(t, step, prior, 0) == Durable(t);
    match step
    case PersistCost(v, n, usage) =>
      var row := CostRow(v, n, usage);
      assert HasCost(t.costs, v, n) || row in t.costs + [row];
    case OpenInvocation(_, _) =>
    case CloseInvocation(_, _, _, _) =>
    case OpenGate(_) =>
    case CloseGate(_, _) =>
    case _ =>
  }

  lemma {:induction false} AbsorbDouble(t: Tables, step: Step, prior: Luck, latest: Luck, i: nat, reached: nat)
    requires EffectCount(step) == 2 && i < reached <= 2
    ensures Absorbs(t, step, prior, latest, i, reached)
  {
    var merged := Merge(step, prior, latest, i, reached);
    PartialStep(t, step, prior, 0);
    assert Residue(t, step, prior, 0) == Durable(t);
    if reached == 2 {
      PartialStep(t, step, prior, 1);
      ResidueUses(t, step, prior, merged, 1);
      PartialStep(t, step, merged, 1);
    }
  }

  /** Re-executing an effect on what earlier executions left is the same as one execution with the
      merged luck: step bodies are idempotent up to first-written and last-written values. */
  lemma {:induction false} Absorb(t: Tables, step: Step, prior: Luck, latest: Luck, i: nat, reached: nat)
    requires i <= reached <= EffectCount(step) && i < EffectCount(step)
    ensures Absorbs(t, step, prior, latest, i, reached)
  {
    if i == reached {
      AbsorbNew(t, step, prior, latest, i);
    } else if step.ShipStep? {
      AbsorbShip(t, prior, latest, i, reached);
    } else if EffectCount(step) == 2 {
      AbsorbDouble(t, step, prior, latest, i, reached);
    } else {
      AbsorbSingle(t, step, prior, latest);
    }
  }

  // ----- every reachable state is explained by a run without crashes -----

  /** A run without crashes up to the log, and the effects of the step after it that crashed or
      running executions have left (`reached` of them, as one execution with luck `prior`).
      `lost` counts attempts whose step was not recorded. */
  datatype Witness = Witness(history: seq<Entry>, pending: Step, prior: Luck, reached: nat, lost: nat)

  predicate Attempting(p: Program, s: System) {
    s.exec.Body? && s.exec.luck.attempted && s.exec.progress >= 1 &&
    p.act(s.local).Call? && p.act(s.local).step.RunAgent?
  }

  /** Agent executions that the log shows. */
  function RecordedAttempts(history: seq<Entry>): nat {
    if history == [] then 0
    else
      var last := history[|history| - 1];
      RecordedAttempts(history[..|history| - 1]) + if last.step.RunAgent? && last.luck.attempted then 1 else 0
  }

  ghost predicate Explained(p: Program, cap: Option<nat>, s: System, w: Witness) {
    && CrashFree(p, cap, w.history)
    && s.log == LogOf(w.history)
    && Play(p, s.log, s.moves) == Some((s.local, s.pos))
    && w.reached <= EffectCount(w.pending)
    && (w.reached > 0 ==> AsksNext(p, s.log, w.pending))
    && Durable(s.tables) == Residue(TablesAfter(cap, w.history), w.pending, w.prior, w.reached)
    && |s.tables.attempts| == RecordedAttempts(w.history) + w.lost + (if Attempting(p, s) then 1 else 0)
    && (s.exec.Body? ==>
          && s.pos == |s.log| && p.act(s.local).Call?
          && s.exec.progress <= w.reached && s.exec.progress <= EffectCount(p.act(s.local).step))
  }

  lemma {:induction false} NoResidue(cap: Option<nat>, history: seq<Entry>, step: Step, luck: Luck)
    ensures Residue(TablesAfter(cap, history), step, luck, 0) == TablesAfter(cap, history)
  {
  }

  lemma {:induction false} AsksHere(p: Program, s: System)
    requires Play(p, s.log, s.moves) == Some((s.local, s.pos)) && s.pos == |s.log| && p.act(s.local).Call?
    ensures AsksNext(p, s.log, p.act(s.local).step)
  {
    assert AsksAt(p, s.log, s.moves, p.act(s.local).step);
  }

  lemma {:induction false} CommitExplained(p: Program, cap: Option<nat>, s: System, w: Witness) returns (w': Witness)
    requires Explained(p, cap, s, w) && Happen(p, s, Commit) != s
    ensures Explained(p, cap, Happen(p, s, Commit), w') && w'.lost == w.lost && w'.history == w.history
  {
    var step := p.act(s.local).step;
    AsksHere(p, s);
    if w.reached > 0 {
      AsksOneStep(p, s.log, step, w.pending);
    }
    var before := w.(pending := step);
    NoResidue(cap, w.history, w.pending, w.prior);
    NoResidue(cap, w.history, step, w.prior);
    var i, reached := s.exec.progress, w.reached;
    Absorb(TablesAfter(cap, w.history), step, w.prior, s.exec.luck, i, reached);
    EffectIgnoresAttempts(s.tables, step, s.exec.luck, i, s.boot);
    w' := Witness(w.history, step, Merge(step, w.prior, s.exec.luck, i, reached),
                  if i == reached then reached + 1 else reached, w.lost);
    AttemptsGrow(s.tables, step, s.exec.luck, i, s.boot);
  }

  lemma {:induction false} AttemptsGrow(t: Tables, step: Step, luck: Luck, i: nat, boot: nat)
    ensures Effect(t, step, luck, i, boot).attempts ==
            if step.RunAgent? && i == 0 && luck.attempted then t.attempts + [boot] else t.attempts
  {
  }

  lemma {:induction false} OutputIgnoresAttempts(t: Tables, step: Step, prior: Luck, luck: Luck)
    ensures OutputOf(Durable(t), step, Settle(prior, luck)) == OutputOf(t, step, luck)
  {
  }

  /** A whole body of effects plus its answer is one more step of a run without crashes. */
  lemma {:induction false} ExtendHistory(p: Program, cap: Option<nat>, history: seq<Entry>, step: Step, prior: Luck, t: Tables, luck: Luck)
    requires CrashFree(p, cap, history) && AsksNext(p, LogOf(history), step)
    requires Durable(t) == Residue(TablesAfter(cap, history), step, prior, EffectCount(step))
    ensures
      var entry := Entry(step, Settle(prior, luck), OutputOf(t, step, luck));
      var longer := history + [entry];
      && CrashFree(p, cap, longer)
      && LogOf(longer) == LogOf(history) + [Record(step, entry.out)]
      && TablesAfter(cap, longer) == Durable(t)
      && RecordedAttempts(longer) == RecordedAttempts(history) + if step.RunAgent? && luck.attempted then 1 else 0
  {
    var entry := Entry(step, Settle(prior, luck), OutputOf(t, step, luck));
    var longer := history + [entry];
    assert longer[..|longer| - 1] == history && longer[|longer| - 1] == entry;
    ResidueUses(TablesAfter(cap, history), step, prior, entry.luck, EffectCount(step));
    assert TablesAfter(cap, longer) == Residue(TablesAfter(cap, history), step, entry.luck, EffectCount(step));
    OutputIgnoresAttempts(t, step, prior, luck);
  }

  /** When a body is through, everything in place is one whole execution of the step. */
  lemma {:induction false} BodyIsWhole(p: Program, cap: Option<nat>, s: System, w: Witness, step: Step)
    requires Explained(p, cap, s, w) && s.exec.Body? && p.act(s.local) == Call(step) && s.exec.progress == EffectCount(step)
    ensures AsksNext(p, s.log, step)
    ensures Durable(s.tables) == Residue(TablesAfter(cap, w.history), step, w.prior, EffectCount(step))
  {
    AsksHere(p, s);
    if w.reached > 0 {
      AsksOneStep(p, s.log, step, w.pending);
    } else {
      NoResidue(cap, w.history, w.pending, w.prior);
      NoResidue(cap, w.history, step, w.prior);
    }
  }

  lemma {:induction false} CheckpointExplained(p: Program, cap: Option<nat>, s: System, w: Witness) returns (w': Witness)
    requires Explained(p, cap, s, w) && Happen(p, s, Checkpoint) != s
    ensures Explained(p, cap, Happen(p, s, Checkpoint), w') && w'.lost == w.lost && Recorded(p, s, w, w'.history)
  {
    var step := p.act(s.local).step;
    BodyIsWhole(p, cap, s, w, step);
    ExtendHistory(p, cap, w.history, step, w.prior, s.tables, s.exec.luck);
    var settled := Settle(w.prior, s.exec.luck);
    var history := w.history + [Entry(step, settled, OutputOf(s.tables, step, s.exec.luck))];
    PlayPrefix(p, s.log, LogOf(history), s.moves);
    NoResidue(cap, history, step, settled);
    w' := Witness(history, step, settled, 0, w.lost);
  }

  lemma {:induction false} MoveExplained(p: Program, cap: Option<nat>, s: System, w: Witness)
    requires Explained(p, cap, s, w)
    ensures Explained(p, cap, Happen(p, s, Move), w)
  {
  }

  /** How many attempts a schedule loses: crashes that hit an agent step after its attempt row. */
  function LostAttempts(p: Program, cap: Option<nat>, events: seq<Event>): nat {
    if events == [] then 0
    else
      var before := events[..|events| - 1];
      LostAttempts(p, cap, before) +
      if events[|events| - 1].Crash? && Attempting(p, After(p, cap, before)) then 1 else 0
  }

  /** The running step has become the newest entry. */
  ghost predicate Recorded(p: Program, s: System, w: Witness, history: seq<Entry>) {
    && s.exec.Body? && p.act(s.local).Call?
    && var step := p.act(s.local).step;
       history == w.history + [Entry(step, Settle(w.prior, s.exec.luck), OutputOf(s.tables, step, s.exec.luck))]
  }

  lemma {:induction false} BeginExplained(p: Program, cap: Option<nat>, s: System, luck: Luck, w: Witness)
    requires Explained(p, cap, s, w)
    ensures Explained(p, cap, Happen(p, s, Begin(luck)), w)
  {
  }

  lemma {:induction false} CrashExplained(p: Program, cap: Option<nat>, s: System, w: Witness) returns (w': Witness)
    requires Explained(p, cap, s, w)
    ensures Explained(p, cap, Happen(p, s, Crash), w') && w'.history == w.history
    ensures w'.lost == w.lost + if Attempting(p, s) then 1 else 0
  {
    w' := w.(lost := w.lost + if Attempting(p, s) then 1 else 0);
  }

  lemma {:induction false} HappenExplained(p: Program, cap: Option<nat>, s: System, e: Event, w: Witness) returns (w': Witness)
    requires Explained(p, cap, s, w)
    ensures Explained(p, cap, Happen(p, s, e), w')
    ensures w'.lost == w.lost + if e.Crash? && Attempting(p, s) then 1 else 0
    ensures w'.history == w.history || (e.Checkpoint? && Recorded(p, s, w, w'.history))
  {
    w' := w;
    if Happen(p, s, e) != s {
      match e
      case Move => MoveExplained(p, cap, s, w);
      case Begin(luck) => BeginExplained(p, cap, s, luck, w);
      case Commit => w' := CommitExplained(p, cap, s, w);
      case Checkpoint => w' := CheckpointExplained(p, cap, s, w);
      case Crash => w' := CrashExplained(p, cap, s, w);
    }
  }

  lemma {:induction false} ScheduleExplained(p: Program, cap: Option<nat>, events: seq<Event>) returns (w: Witness)
    ensures Explained(p, cap, After(p, cap, events), w) && w.lost == LostAttempts(p, cap, events)
  {
    if events == [] {
      var luck := Luck(false, AgentResult(Broken, None, Usage(0, 0), false), None, None, None, false, 0, None);
      w := Witness([], BudgetCheck, luck, 0, 0);
      assert Play(p, [], 0) == Some((p.boot, 0));
    } else {
      var before := ScheduleExplained(p, cap, events[..|events| - 1]);
      w := HappenExplained(p, cap, After(p, cap, events[..|events| - 1]), events[|events| - 1], before);
    }
  }

  // ----- the theorems -----

  /** The log and the durable tables of `s` are those of the run without crashes `history`,
      stopped after `k` effects of its next step (`k` = 0: between two steps). */
  ghost predicate ShowsRun(p: Program, cap: Option<nat>, s: System, history: seq<Entry>, step: Step, luck: Luck, k: nat) {
    && CrashFree(p, cap, history) && LogOf(history) == s.log
    && k <= EffectCount(step) && (k > 0 ==> AsksNext(p, s.log, step))
    && Durable(s.tables) == Residue(TablesAfter(cap, history), step, luck, k)
  }

  /** Crashes are invisible: after any schedule, the log and the durable tables are those of a run
      without crashes. */
  lemma {:induction false} CrashRefinement(p: Program, cap: Option<nat>, events: seq<Event>)
    ensures exists history, step, luck, k :: ShowsRun(p, cap, After(p, cap, events), history, step, luck, k)
  {
    var w := ScheduleExplained(p, cap, events);
    assert ShowsRun(p, cap, After(p, cap, events), w.history, w.pending, w.prior, w.reached);
  }

  lemma {:induction false} CrashFreePrefix(p: Program, cap: Option<nat>, history: seq<Entry>, k: nat)
    requires CrashFree(p, cap, history) && k < |history|
    ensures AsksNext(p, LogOf(history)[..k], history[k].step)
    ensures CrashFree(p, cap, history[..k])
  {
    var before := history[..|history| - 1];
    if k == |history| - 1 {
      assert LogOf(before) == LogOf(history)[..k];
    } else {
      CrashFreePrefix(p, cap, before, k);
      assert before[..k] == history[..k];
      assert LogOf(before)[..k] == LogOf(history)[..k];
    }
  }

  /** Wherever the walk stands inside the log, it asks for exactly the step recorded there: a
      recovery never meets a recorded step it did not call, and never ends early. */
  lemma {:induction false} ReplayMeetsItsRecord(p: Program, cap: Option<nat>, events: seq<Event>)
    ensures
      var s := After(p, cap, events);
      s.pos < |s.log| && !p.act(s.local).Goto? ==> p.act(s.local) == Call(s.log[s.pos].step)
  {
    var s := After(p, cap, events);
    var w := ScheduleExplained(p, cap, events);
    if s.pos < |s.log| && !p.act(s.local).Goto? {
      CrashFreePrefix(p, cap, w.history, s.pos);
      var step := w.history[s.pos].step;
      var log := s.log[..s.pos];
      PlayShorter(p, s.log, s.pos, s.moves);
      if p.act(s.local).Stop? {
        EndedAsksNothing(p, log, s.moves, step);
      } else {
        assert AsksAt(p, log, s.moves, p.act(s.local).step);
        AsksOneStep(p, log, p.act(s.local).step, step);
      }
    }
  }

  /** A run that has ended, after any crashes, left exactly what a run without crashes leaves. */
  lemma {:induction false} EndedRunIsCrashFree(p: Program, cap: Option<nat>, events: seq<Event>) returns (history: seq<Entry>)
    requires p.act(After(p, cap, events).local).Stop?
    ensures CrashFree(p, cap, history) && LogOf(history) == After(p, cap, events).log
    ensures Durable(After(p, cap, events).tables) == TablesAfter(cap, history)
    ensures Play(p, LogOf(history), After(p, cap, events).moves) == Some((After(p, cap, events).local, |history|))
    ensures |After(p, cap, events).tables.attempts| == RecordedAttempts(history) + LostAttempts(p, cap, events)
  {
    var s := After(p, cap, events);
    var w := ScheduleExplained(p, cap, events);
    history := w.history;
    ReplayMeetsItsRecord(p, cap, events);
    if w.reached > 0 {
      EndedAsksNothing(p, s.log, s.moves, w.pending);
    }
    NoResidue(cap, history, w.pending, w.prior);
  }

  /** The attempt log counts executions: the recorded ones, the ones a crash lost, and the one
      under way. */
  lemma {:induction false} AttemptsAccounted(p: Program, cap: Option<nat>, events: seq<Event>)
    ensures
      var s := After(p, cap, events);
      exists history :: CrashFree(p, cap, history) && LogOf(history) == s.log &&
        |s.tables.attempts| == RecordedAttempts(history) + LostAttempts(p, cap, events) + (if Attempting(p, s) then 1 else 0)
  {
    var w := ScheduleExplained(p, cap, events);
  }

  /** No state is stuck: until the walk ends, some event other than a crash changes it. */
  lemma {:induction false} NeverStuck(p: Program, cap: Option<nat>, events: seq<Event>, luck: Luck)
    requires !p.act(After(p, cap, events).local).Stop?
    ensures
      var s := After(p, cap, events);
      exists e | e in {Move, Begin(luck), Commit, Checkpoint} :: Happen(p, s, e) != s
  {
    var s := After(p, cap, events);
    var w := ScheduleExplained(p, cap, events);
    var e := if s.exec.Idle? then (if p.act(s.local).Goto? || s.pos < |s.log| then Move else Begin(luck))
             else if s.exec.progress < EffectCount(p.act(s.local).step) then Commit else Checkpoint;
    assert Happen(p, s, e) != s;
  }

  // ----- the snapshot -----

  /** The next commit of `s` writes a snapshot: the last effect of a ship step that has its tag. */
  predicate WritesSnapshot(p: Program, s: System) {
    && s.exec.Body? && p.act(s.local).Call? && p.act(s.local).step.ShipStep?
    && s.exec.progress == 3 && s.tables.repo.tag.Some? && s.exec.luck.snapshot.Some?
  }

  /** The snapshot event `k` of a schedule writes, if it writes one. */
  ghost function Wrote(p: Program, cap: Option<nat>, events: seq<Event>, k: nat): Option<Diff>
    requires k < |events|
  {
    var s := After(p, cap, events[..k]);
    if events[k].Commit? && WritesSnapshot(p, s) then s.exec.luck.snapshot else None
  }

  /** The run has a snapshot exactly when some execution of its ship step wrote one, and then it is the
      one written last: a re-ship after a crash replaces it, a failed snapshot leaves it. */
  ghost predicate SnapshotIsLatest(p: Program, cap: Option<nat>, events: seq<Event>) {
    match After(p, cap, events).tables.artifact
    case None => forall k | 0 <= k < |events| :: Wrote(p, cap, events, k) == None
    case Some(diff) =>
      exists k | 0 <= k < |events| ::
        Wrote(p, cap, events, k) == Some(diff) && forall j | k < j < |events| :: Wrote(p, cap, events, j) == None
  }

  lemma {:induction false} OnlyShipsSnapshot(t: Tables, step: Step, luck: Luck, i: nat, boot: nat)
    requires i < EffectCount(step)
    ensures Effect(t, step, luck, i, boot).artifact ==
      if step.ShipStep? && i == 3 && t.repo.tag.Some? && luck.snapshot.Some? then luck.snapshot else t.artifact
  {
  }

  lemma {:induction false} SnapshotStep(p: Program, s: System, e: Event)
    ensures Happen(p, s, e).tables.artifact ==
      if e.Commit? && WritesSnapshot(p, s) then s.exec.luck.snapshot else s.tables.artifact
  {
    if e.Commit? && s.exec.Body? && p.act(s.local).Call? && s.exec.progress < EffectCount(p.act(s.local).step) {
      OnlyShipsSnapshot(s.tables, p.act(s.local).step, s.exec.luck, s.exec.progress, s.boot);
    }
  }

  lemma {:induction false} WroteBefore(p: Program, cap: Option<nat>, events: seq<Event>)
    requires events != []
    ensures forall k | 0 <= k < |events| - 1 :: Wrote(p, cap, events[..|events| - 1], k) == Wrote(p, cap, events, k)
  {
    var before := events[..|events| - 1];
    forall k | 0 <= k < |before| ensures Wrote(p, cap, before, k) == Wrote(p, cap, events, k) {
      assert before[..k] == events[..k] && before[k] == events[k];
    }
  }

  lemma {:induction false} SnapshotKept(p: Program, cap: Option<nat>, events: seq<Event>)
    ensures SnapshotIsLatest(p, cap, events)
  {
    if events != [] {
      var m := |events| - 1;
      SnapshotKept(p, cap, events[..m]);
      WroteBefore(p, cap, events);
      SnapshotStep(p, After(p, cap, events[..m]), events[m]);
      var was := After(p, cap, events[..m]).tables.artifact;
      if was.Some? {
        var k :| 0 <= k < m && Wrote(p, cap, events[..m], k) == was && forall j | k < j < m :: Wrote(p, cap, events[..m], j) == None;
        assert Wrote(p, cap, events, k) == was && forall j | k < j < m :: Wrote(p, cap, events, j) == None;
      }
      SnapshotExtends(p, cap, events, was);
    }
  }

  lemma {:induction false} SnapshotExtends(p: Program, cap: Option<nat>, events: seq<Event>, was: Option<Diff>)
    requires events != []
    requires
      var m := |events| - 1;
      After(p, cap, events).tables.artifact == if Wrote(p, cap, events, m).Some? then Wrote(p, cap, events, m) else was
    requires was.None? ==> forall k | 0 <= k < |events| - 1 :: Wrote(p, cap, events, k) == None
    requires was.Some? ==> exists k | 0 <= k < |events| - 1 ::
      Wrote(p, cap, events, k) == was && forall j | k < j < |events| - 1 :: Wrote(p, cap, events, j) == None
    ensures SnapshotIsLatest(p, cap, events)
  {
    var m := |events| - 1;
    if Wrote(p, cap, events, m).None? && was.Some? {
      var k :| 0 <= k < m && Wrote(p, cap, events, k) == was && forall j | k < j < m :: Wrote(p, cap, events, j) == None;
      assert forall j | k < j < |events| :: Wrote(p, cap, events, j) == None;
    }
  }
}
