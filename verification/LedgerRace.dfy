/** Concurrent writers of the ledger: each runs select, flush, conflict, rollback, re-read in its
    own transaction under Postgres' read-committed rules, and any of them may die. The unique key
    makes a flush wait for another transaction's uncommitted row of the same key, and fail once
    that row is committed. */
module LedgerRace {
  import opened Common
  import opened Metering

  datatype Phase =
    | Start
    | Missing            // the first select found nothing
    | Conflicted         // the flush hit a committed row
    | RolledBack         // rolled back, about to re-read
    | Holding            // own row flushed, not yet committed
    | Found(row: Row)    // about to return a committed row
    | Returned(row: Row)
    | Raised
    | Died

  /** `calls[i]` is the call writer `i` makes, of any of the three writers. */
  datatype State = State(committed: seq<Row>, phases: seq<Phase>)

  datatype Move = Step | Die

  predicate Done(p: Phase) {
    p.Returned? || p.Raised? || p.Died?
  }

  /** Another transaction holds the key. */
  predicate Blocked(calls: seq<Call>, s: State, i: nat)
    requires |calls| == |s.phases| && i < |calls|
  {
    exists j | 0 <= j < |calls| :: j != i && s.phases[j].Holding? && calls[j].key == calls[i].key
  }

  /** One move of writer `i`; a blocked or finished writer does not move. */
  function Next(calls: seq<Call>, s: State, i: nat, m: Move): (s': State)
    requires |calls| == |s.phases| && i < |calls|
    ensures |s'.phases| == |calls|
  {
    var row := Find(s.committed, calls[i].key);
    if Done(s.phases[i]) then s
    else if m.Die? then s.(phases := s.phases[i := Died])
    else
      match s.phases[i]
      case Start => s.(phases := s.phases[i := if row.Some? then Found(row.value) else Missing])
      case Missing =>
        if !Fits(calls[i].cost) then s.(phases := s.phases[i := Died])
        else if Blocked(calls, s, i) then s
        else s.(phases := s.phases[i := if row.Some? then Conflicted else Holding])
      case Conflicted => s.(phases := s.phases[i := RolledBack])
      case RolledBack => s.(phases := s.phases[i := if row.Some? then Found(row.value) else Raised])
      case Holding => State(s.committed + [RowOf(calls[i])], s.phases[i := Returned(RowOf(calls[i]))])
      case Found(r) => s.(phases := s.phases[i := Returned(r)])
      case _ => s
  }

  datatype Event = Event(who: nat, move: Move)

  function Begin(calls: seq<Call>): (s: State)
    ensures |s.phases| == |calls|
  {
    State([], seq(|calls|, i => Start))
  }

  /** The state after a schedule. */
  function After(calls: seq<Call>, events: seq<Event>): (s: State)
    ensures |s.phases| == |calls|
  {
    if events == [] then Begin(calls)
    else
      var before := After(calls, events[..|events| - 1]);
      var e := events[|events| - 1];
      if e.who < |calls| then Next(calls, before, e.who, e.move) else before
  }

  ghost predicate KeyIn(rows: seq<Row>, key: nat) {
    exists r | r in rows :: r.key == key
  }

  ghost predicate WriterOk(calls: seq<Call>, s: State, i: nat)
    requires |calls| == |s.phases| && i < |calls|
  {
    match s.phases[i]
    case Holding => !KeyIn(s.committed, calls[i].key) && Fits(calls[i].cost)
    case Conflicted => KeyIn(s.committed, calls[i].key)
    case RolledBack => KeyIn(s.committed, calls[i].key)
    case Found(r) => r in s.committed && r.key == calls[i].key
    case Returned(r) => r in s.committed && r.key == calls[i].key
    case Raised => false
    case _ => true
  }

  ghost predicate Consistent(calls: seq<Call>, s: State) {
    && |calls| == |s.phases| && UniqueKeys(s.committed)
    && (forall i | 0 <= i < |calls| :: WriterOk(calls, s, i))
    && (forall i, j | 0 <= i < j < |calls| :: s.phases[i].Holding? && s.phases[j].Holding? ==> calls[i].key != calls[j].key)
    && (forall r | r in s.committed :: exists i | 0 <= i < |calls| :: RowOf(calls[i]) == r && s.phases[i] == Returned(r))
  }

  lemma {:induction false} FindIff(rows: seq<Row>, key: Key)
    ensures Find(rows, key).Some? <==> KeyIn(rows, key)
    ensures Find(rows, key).Some? ==> Find(rows, key).value in rows && Find(rows, key).value.key == key
  {
    FindSpec(rows, key);
    if KeyIn(rows, key) {
      var r :| r in rows && r.key == key;
      var i :| 0 <= i < |rows| && rows[i] == r;
    }
  }

  lemma {:induction false} StepConsistent(calls: seq<Call>, s: State, i: nat, m: Move)
    requires Consistent(calls, s) && i < |calls|
    ensures Consistent(calls, Next(calls, s, i, m))
  {
    FindIff(s.committed, calls[i].key);
    var s' := Next(calls, s, i, m);
    if s.phases[i].Holding? && m.Step? {
      CommitConsistent(calls, s, i);
    } else {
      assert s'.committed == s.committed;
      assert forall j | 0 <= j < |calls| :: j != i ==> s'.phases[j] == s.phases[j];
      forall j | 0 <= j < |calls| ensures WriterOk(calls, s', j) {
        assert WriterOk(calls, s, j);
      }
      forall r | r in s'.committed ensures exists j | 0 <= j < |calls| :: RowOf(calls[j]) == r && s'.phases[j] == Returned(r) {
        var j :| 0 <= j < |calls| && RowOf(calls[j]) == r && s.phases[j] == Returned(r);
        assert s'.phases[j] == Returned(r);
      }
    }
  }

  lemma {:induction false} CommitWriterOk(calls: seq<Call>, s: State, i: nat, j: nat)
    requires Consistent(calls, s) && i < |calls| && j < |calls| && s.phases[i].Holding?
    ensures WriterOk(calls, Next(calls, s, i, Step), j)
  {
    var s' := Next(calls, s, i, Step);
    var row := RowOf(calls[i]);
    assert WriterOk(calls, s, j);
    assert row in s'.committed && forall r | r in s.committed :: r in s'.committed;
    if j != i && s.phases[j].Holding? {
      assert calls[j].key != calls[i].key;
      assert forall r | r in s'.committed :: r in s.committed || r == row;
    }
    if s.phases[j].Conflicted? || s.phases[j].RolledBack? {
      var r :| r in s.committed && r.key == calls[j].key;
      assert r in s'.committed;
    }
  }

  lemma {:induction false} CommitOrigins(calls: seq<Call>, s: State, i: nat, r: Row)
    requires Consistent(calls, s) && i < |calls| && s.phases[i].Holding? && r in Next(calls, s, i, Step).committed
    ensures exists j | 0 <= j < |calls| :: RowOf(calls[j]) == r && Next(calls, s, i, Step).phases[j] == Returned(r)
  {
    var s' := Next(calls, s, i, Step);
    if r in s.committed {
      var j :| 0 <= j < |calls| && RowOf(calls[j]) == r && s.phases[j] == Returned(r);
      assert s'.phases[j] == Returned(r);
    } else {
      assert RowOf(calls[i]) == r && s'.phases[i] == Returned(r);
    }
  }

  lemma {:induction false} CommitConsistent(calls: seq<Call>, s: State, i: nat)
    requires Consistent(calls, s) && i < |calls| && s.phases[i].Holding?
    ensures Consistent(calls, Next(calls, s, i, Step))
  {
    var s' := Next(calls, s, i, Step);
    assert WriterOk(calls, s, i);
    assert forall r | r in s.committed :: r.key != calls[i].key;
    forall j | 0 <= j < |calls| ensures WriterOk(calls, s', j) {
      CommitWriterOk(calls, s, i, j);
    }
    forall r | r in s'.committed ensures exists j | 0 <= j < |calls| :: RowOf(calls[j]) == r && s'.phases[j] == Returned(r) {
      CommitOrigins(calls, s, i, r);
    }
  }

  lemma {:induction false} AlwaysConsistent(calls: seq<Call>, events: seq<Event>)
    ensures Consistent(calls, After(calls, events))
  {
    if events != [] {
      AlwaysConsistent(calls, events[..|events| - 1]);
      var e := events[|events| - 1];
      if e.who < |calls| {
        StepConsistent(calls, After(calls, events[..|events| - 1]), e.who, e.move);
      }
    }
  }

  /** Any number of racing writers, in any interleaving, with deaths anywhere: at most one row per
      key is ever committed, it holds the values of a writer that returned it, every writer of a key that returns
      returns that same row, and no writer ever reaches the final raise. */
  lemma {:induction false} RaceIsExactlyOnce(calls: seq<Call>, events: seq<Event>)
    ensures
      var s := After(calls, events);
      && UniqueKeys(s.committed)
      && (forall i | 0 <= i < |calls| :: !s.phases[i].Raised?)
      && (forall i | 0 <= i < |calls| && s.phases[i].Returned? :: s.phases[i].row in s.committed && s.phases[i].row.key == calls[i].key)
      && (forall i, j | 0 <= i < |calls| && 0 <= j < |calls| && s.phases[i].Returned? && s.phases[j].Returned? ::
            calls[i].key == calls[j].key ==> s.phases[i].row == s.phases[j].row)
      && (forall r | r in s.committed :: exists i | 0 <= i < |calls| :: Carries(calls[i], r) && s.phases[i] == Returned(r))
  {
    AlwaysConsistent(calls, events);
    var s := After(calls, events);
    forall r | r in s.committed ensures exists i | 0 <= i < |calls| :: Carries(calls[i], r) && s.phases[i] == Returned(r) {
      var i :| 0 <= i < |calls| && RowOf(calls[i]) == r && s.phases[i] == Returned(r);
      RowCarries(calls[i]);
    }
    forall i | 0 <= i < |calls|
      ensures !s.phases[i].Raised?
      ensures s.phases[i].Returned? ==> s.phases[i].row in s.committed && s.phases[i].row.key == calls[i].key
    {
      assert WriterOk(calls, s, i);
    }
  }

  lemma {:induction false} SurvivorLives(calls: seq<Call>, events: seq<Event>, i: nat)
    requires i < |calls| && -999999.9999995 < calls[i].cost < 999999.9999995
    requires forall e | e in events :: e.who == i ==> e.move.Step?
    ensures !After(calls, events).phases[i].Died?
  {
    FitsIff(calls[i].cost);
    if events != [] {
      var before := events[..|events| - 1];
      assert forall e | e in before :: e in events;
      SurvivorLives(calls, before, i);
      assert events[|events| - 1] in events;
    }
  }

  /** A writer that is not killed and asks for a storable cost ends with a committed row of its key
      in hand, whoever wrote it. */
  lemma {:induction false} SurvivorReturns(calls: seq<Call>, events: seq<Event>, i: nat)
    requires i < |calls| && -999999.9999995 < calls[i].cost < 999999.9999995
    requires forall e | e in events :: e.who == i ==> e.move.Step?
    requires Done(After(calls, events).phases[i])
    ensures
      var s := After(calls, events);
      s.phases[i].Returned? && s.phases[i].row in s.committed && s.phases[i].row.key == calls[i].key
  {
    SurvivorLives(calls, events, i);
    AlwaysConsistent(calls, events);
    assert WriterOk(calls, After(calls, events), i);
  }

  /** Two writers of one key can deadlock nobody: while a writer is unfinished, some writer can move. */
  lemma {:induction false} SomeoneMoves(calls: seq<Call>, events: seq<Event>, i: nat)
    requires i < |calls| && !Done(After(calls, events).phases[i])
    ensures
      var s := After(calls, events);
      exists j | 0 <= j < |calls| :: Next(calls, s, j, Step) != s
  {
    AlwaysConsistent(calls, events);
    var s := After(calls, events);
    if s.phases[i].Missing? && Blocked(calls, s, i) {
      var j :| 0 <= j < |calls| && j != i && s.phases[j].Holding? && calls[j].key == calls[i].key;
      assert Next(calls, s, j, Step).phases[j] != s.phases[j];
    } else {
      assert WriterOk(calls, s, i);
      assert Next(calls, s, i, Step).phases[i] != s.phases[i];
    }
  }

  function Weight(p: Phase): nat {
    match p
    case Start => 5
    case Missing => 4
    case Conflicted => 3
    case RolledBack => 2
    case Holding => 1
    case Found(_) => 1
    case _ => 0
  }

  function Remaining(phases: seq<Phase>): nat {
    if phases == [] then 0 else Weight(phases[0]) + Remaining(phases[1..])
  }

  lemma {:induction false} RemainingUpdate(phases: seq<Phase>, i: nat, p: Phase)
    requires i < |phases| && Weight(p) < Weight(phases[i])
    ensures Remaining(phases[i := p]) < Remaining(phases)
  {
    if i == 0 {
      assert phases[0 := p][1..] == phases[1..];
    } else {
      assert phases[i := p][1..] == phases[1..][i - 1 := p];
      RemainingUpdate(phases[1..], i - 1, p);
    }
  }

  /** Every move that changes anything uses up part of a fixed budget, so a race always ends. */
  lemma {:induction false} RaceEnds(calls: seq<Call>, s: State, i: nat, m: Move)
    requires |calls| == |s.phases| && i < |calls| && Next(calls, s, i, m) != s
    ensures Remaining(Next(calls, s, i, m).phases) < Remaining(s.phases)
  {
    RemainingUpdate(s.phases, i, Next(calls, s, i, m).phases[i]);
    assert Next(calls, s, i, m).phases == s.phases[i := Next(calls, s, i, m).phases[i]];
  }

  // ----- a race is some sequence of calls -----

  /** Every interleaving leaves what some of its calls, made one after another, leave: those that
      committed, in the order they did. */
  lemma {:induction false} RaceIsSequential(calls: seq<Call>, events: seq<Event>) returns (order: seq<Call>)
    ensures Ledger(order) == After(calls, events).committed && forall c | c in order :: c in calls
  {
    if events == [] {
      order := [];
    } else {
      var before := events[..|events| - 1];
      var e := events[|events| - 1];
      order := RaceIsSequential(calls, before);
      var s := After(calls, before);
      if e.who < |calls| && s.phases[e.who].Holding? && e.move.Step? {
        var c := calls[e.who];
        AlwaysConsistent(calls, before);
        assert WriterOk(calls, s, e.who);
        FindIff(s.committed, c.key);
        assert (order + [c])[..|order|] == order;
        order := order + [c];
      }
    }
  }

  /** Whatever the interleaving, a call that returned got what a call made after all of them would
      still get, and a run's total is the sum of the first committed cost of each key. */
  lemma {:induction false} RaceSpend(calls: seq<Call>, events: seq<Event>, run: RunId) returns (order: seq<Call>)
    ensures
      var s := After(calls, events);
      && Ledger(order) == s.committed && (forall c | c in order :: c in calls)
      && RunningCost(s.committed, run) == FirstSpend(order, run)
      && (forall i | 0 <= i < |calls| && s.phases[i].Returned? :: InsertOrReturn(s.committed, calls[i]) == (s.committed, Some(s.phases[i].row)))
  {
    order := RaceIsSequential(calls, events);
    SpendIsFirstWrites(order, run);
    AlwaysConsistent(calls, events);
    var s := After(calls, events);
    forall i | 0 <= i < |calls| && s.phases[i].Returned?
      ensures InsertOrReturn(s.committed, calls[i]) == (s.committed, Some(s.phases[i].row))
    {
      assert WriterOk(calls, s, i);
      FindIff(s.committed, calls[i].key);
    }
  }
}
