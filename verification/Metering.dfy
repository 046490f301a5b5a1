/** The metered-cost ledger: three writers that insert a row or return the one already there, and
    the live total that is a query over the rows. */
module Metering {
  import opened Common

  type RunId = nat
  type Key = nat

  /** A row of `cost_records`. `micros` is the stored cost: six decimals of a dollar. */
  datatype Row = Row(
    key: Key, workflow: Option<RunId>, invocation: Option<nat>, requested: string, used: string,
    promptTokens: nat, completionTokens: nat, totalTokens: nat, micros: int)

  /** One call of a writer. */
  datatype Call =
    | Completion(key: Key, workflow: Option<RunId>, requested: string, used: string,
                 promptTokens: nat, completionTokens: nat, totalTokens: nat, cost: real)
    | AgentSpend(key: Key, workflow: Option<RunId>, invocation: Option<nat>, model: string,
                 promptTokens: nat, completionTokens: nat, totalTokens: nat, cost: real)
    | Embedding(key: Key, workflow: Option<RunId>, model: string, promptTokens: nat, totalTokens: nat, cost: real)

  /** What a `Numeric(12, 6)` column stores: six decimals, halves away from zero. */
  function Micros(cost: real): int {
    if cost >= 0.0 then (cost * 1000000.0 + 0.5).Floor else -((-cost * 1000000.0 + 0.5).Floor)
  }

  /** The column refuses a value of a million dollars or more. */
  predicate Fits(cost: real) {
    -1000000000000 < Micros(cost) < 1000000000000
  }

  function RowOf(c: Call): Row {
    match c
    case Completion(key, workflow, requested, used, p, q, t, cost) =>
      Row(key, workflow, None, requested, used, p, q, t, Micros(cost))
    case AgentSpend(key, workflow, invocation, model, p, q, t, cost) =>
      Row(key, workflow, invocation, model, model, p, q, t, Micros(cost))
    case Embedding(key, workflow, model, p, t, cost) =>
      Row(key, workflow, None, model, model, p, 0, t, Micros(cost))
  }

  /** `micros` is the whole number of micro-dollars nearest to the cost, of two the one further from zero. */
  predicate Nearest(cost: real, micros: int) {
    var off := micros as real - cost * 1000000.0;
    if cost >= 0.0 then -0.5 < off <= 0.5 else -0.5 <= off < 0.5
  }

  /** The row holds the call's own values, column by column. */
  predicate Carries(c: Call, r: Row) {
    && r.key == c.key && r.workflow == c.workflow
    && r.promptTokens == c.promptTokens && r.totalTokens == c.totalTokens && Nearest(c.cost, r.micros)
    && match c {
      case Completion(_, _, requested, used, _, completion, _, _) =>
        r.invocation.None? && r.requested == requested && r.used == used && r.completionTokens == completion
      case AgentSpend(_, _, invocation, model, _, completion, _, _) =>
        r.invocation == invocation && r.requested == model && r.used == model && r.completionTokens == completion
      case Embedding(_, _, model, _, _, _) =>
        r.invocation.None? && r.requested == model && r.used == model && r.completionTokens == 0
    }
  }

  lemma {:induction false} MicrosNearest(cost: real)
    ensures forall micros :: Nearest(cost, micros) <==> micros == Micros(cost)
  {
    forall micros ensures Nearest(cost, micros) <==> micros == Micros(cost) {
      var x := cost * 1000000.0;
      if cost >= 0.0 {
        assert Nearest(cost, micros) <==> micros as real <= x + 0.5 < (micros + 1) as real;
      } else {
        assert Nearest(cost, micros) <==> (-micros) as real <= -x + 0.5 < (-micros + 1) as real;
      }
    }
  }

  /** The column takes what rounds to less than a million dollars either way. */
  lemma {:induction false} FitsIff(cost: real)
    ensures Fits(cost) <==> -999999.9999995 < cost < 999999.9999995
  {
  }

  lemma {:induction false} RowCarries(c: Call)
    ensures Carries(c, RowOf(c))
  {
    MicrosNearest(c.cost);
  }

  function Find(rows: seq<Row>, key: Key): Option<Row> {
    if rows == [] then None
    else if rows[0].key == key then Some(rows[0])
    else Find(rows[1..], key)
  }

  ghost predicate UniqueKeys(rows: seq<Row>) {
    forall i, j | 0 <= i < j < |rows| :: rows[i].key != rows[j].key
  }

  /** The table after one writer call, and what the call returns (`None`: the insert failed). */
  function InsertOrReturn(rows: seq<Row>, c: Call): (seq<Row>, Option<Row>) {
    var existing := Find(rows, c.key);
    if existing.Some? then (rows, existing)
    else if Fits(c.cost) then (rows + [RowOf(c)], Some(RowOf(c)))
    else (rows, None)
  }

  lemma {:induction false} FindSpec(rows: seq<Row>, key: Key)
    ensures Find(rows, key).Some? <==> exists i | 0 <= i < |rows| :: rows[i].key == key
    ensures Find(rows, key).Some? ==> Find(rows, key).value in rows && Find(rows, key).value.key == key
  {
    if rows != [] {
      FindSpec(rows[1..], key);
      if i: nat :| 1 <= i < |rows| && rows[i].key == key {
        assert rows[1..][i - 1] == rows[i];
      }
      if rows[0].key != key && Find(rows, key).Some? {
        var i :| 0 <= i < |rows[1..]| && rows[1..][i].key == key;
        assert rows[i + 1].key == key;
      }
    }
  }

  lemma {:induction false} FindAppend(rows: seq<Row>, more: seq<Row>, key: Key)
    ensures Find(rows + more, key) == if Find(rows, key).Some? then Find(rows, key) else Find(more, key)
  {
    if rows == [] {
      assert rows + more == more;
    } else {
      assert (rows + more)[1..] == rows[1..] + more;
      FindAppend(rows[1..], more, key);
    }
  }

  /** The session over the cost table: each writer selects, adds a row and flushes. */
  class CostLedger {
    var rows: seq<Row>

    ghost predicate Valid()
      reads this
    {
      UniqueKeys(rows)
    }

    constructor ()
      ensures Valid() && rows == []
    {
      rows := [];
    }

    method InsertRow(c: Call) returns (recorded: Option<Row>)
      requires Valid()
      modifies this
      ensures Valid()
      ensures (rows, recorded) == InsertOrReturn(old(rows), c)
      ensures (exists r | r in old(rows) :: r.key == c.key) ==>
        rows == old(rows) && recorded.Some? && recorded.value in rows && recorded.value.key == c.key
      ensures (forall r | r in old(rows) :: r.key != c.key) ==>
        if Fits(c.cost) then recorded.Some? && rows == old(rows) + [recorded.value] && Carries(c, recorded.value)
        else recorded == None && rows == old(rows)
    {
      recorded := Find(rows, c.key);
      FindSpec(rows, c.key);
      RowCarries(c);
      assert forall r | r in rows :: exists i | 0 <= i < |rows| :: rows[i] == r;
      if recorded.None? && Fits(c.cost) {
        rows := rows + [RowOf(c)];
        recorded := Some(RowOf(c));
      }
    }

    method RecordCost(workflow: Option<RunId>, key: Key, requested: string, used: string,
                      prompt: nat, completion: nat, total: nat, cost: real) returns (recorded: Option<Row>)
      requires Valid()
      modifies this
      ensures Valid()
      ensures (rows, recorded) == InsertOrReturn(old(rows), Completion(key, workflow, requested, used, prompt, completion, total, cost))
      ensures (forall r | r in old(rows) :: r.key != key) && -999999.9999995 < cost < 999999.9999995 ==>
        && recorded.Some? && rows == old(rows) + [recorded.value]
        && recorded.value.key == key && recorded.value.workflow == workflow && Nearest(cost, recorded.value.micros)
        && recorded.value.invocation == None && recorded.value.requested == requested && recorded.value.used == used
        && recorded.value.promptTokens == prompt && recorded.value.completionTokens == completion && recorded.value.totalTokens == total
      ensures (forall r | r in old(rows) :: r.key != key) && !(-999999.9999995 < cost < 999999.9999995) ==>
        recorded == None && rows == old(rows)
      ensures (exists r | r in old(rows) :: r.key == key) ==>
        rows == old(rows) && recorded.Some? && recorded.value in rows && recorded.value.key == key
    {
      FitsIff(cost);
      recorded := InsertRow(Completion(key, workflow, requested, used, prompt, completion, total, cost));
    }

    method RecordAgentCost(workflow: Option<RunId>, key: Key, model: string, prompt: nat, completion: nat, total: nat,
                           cost: real, invocation: Option<nat>) returns (recorded: Option<Row>)
      requires Valid()
      modifies this
      ensures Valid()
      ensures (rows, recorded) == InsertOrReturn(old(rows), AgentSpend(key, workflow, invocation, model, prompt, completion, total, cost))
      ensures (forall r | r in old(rows) :: r.key != key) && -999999.9999995 < cost < 999999.9999995 ==>
        && recorded.Some? && rows == old(rows) + [recorded.value]
        && recorded.value.key == key && recorded.value.workflow == workflow && Nearest(cost, recorded.value.micros)
        && recorded.value.invocation == invocation && recorded.value.requested == model && recorded.value.used == model
        && recorded.value.promptTokens == prompt && recorded.value.completionTokens == completion && recorded.value.totalTokens == total
      ensures (forall r | r in old(rows) :: r.key != key) && !(-999999.9999995 < cost < 999999.9999995) ==>
        recorded == None && rows == old(rows)
      ensures (exists r | r in old(rows) :: r.key == key) ==>
        rows == old(rows) && recorded.Some? && recorded.value in rows && recorded.value.key == key
    {
      FitsIff(cost);
      recorded := InsertRow(AgentSpend(key, workflow, invocation, model, prompt, completion, total, cost));
    }

    method RecordEmbeddingCost(workflow: Option<RunId>, key: Key, model: string, prompt: nat, total: nat, cost: real)
      returns (recorded: Option<Row>)
      requires Valid()
      modifies this
      ensures Valid()
      ensures (rows, recorded) == InsertOrReturn(old(rows), Embedding(key, workflow, model, prompt, total, cost))
      ensures (forall r | r in old(rows) :: r.key != key) && -999999.9999995 < cost < 999999.9999995 ==>
        && recorded.Some? && rows == old(rows) + [recorded.value]
        && recorded.value.key == key && recorded.value.workflow == workflow && Nearest(cost, recorded.value.micros)
        && recorded.value.invocation == None && recorded.value.requested == model && recorded.value.used == model
        && recorded.value.promptTokens == prompt && recorded.value.completionTokens == 0 && recorded.value.totalTokens == total
      ensures (forall r | r in old(rows) :: r.key != key) && !(-999999.9999995 < cost < 999999.9999995) ==>
        recorded == None && rows == old(rows)
      ensures (exists r | r in old(rows) :: r.key == key) ==>
        rows == old(rows) && recorded.Some? && recorded.value in rows && recorded.value.key == key
    {
      FitsIff(cost);
      recorded := InsertRow(Embedding(key, workflow, model, prompt, total, cost));
    }
  }

  /** `running_cost`: the sum of the run's rows. */
  function RunningCost(rows: seq<Row>, run: RunId): int {
    if rows == [] then 0
    else
      var last := rows[|rows| - 1];
      RunningCost(rows[..|rows| - 1], run) + if last.workflow == Some(run) then last.micros else 0
  }

  /** The table after a history of calls. */
  function Ledger(calls: seq<Call>): seq<Row> {
    if calls == [] then [] else InsertOrReturn(Ledger(calls[..|calls| - 1]), calls[|calls| - 1]).0
  }

  // ----- spend is conserved: what counts is the first write of each key -----

  /** Call `i` is the one that wrote its key. */
  ghost predicate FirstWrite(calls: seq<Call>, i: nat)
    requires i < |calls|
  {
    Fits(calls[i].cost) && forall j | 0 <= j < i :: calls[j].key == calls[i].key ==> !Fits(calls[j].cost)
  }

  /** The stored cost of the first writes that belong to the run, and how many they are. */
  ghost function FirstSpend(calls: seq<Call>, run: RunId): int {
    if calls == [] then 0
    else
      FirstSpend(calls[..|calls| - 1], run)
      + if FirstWrite(calls, |calls| - 1) && calls[|calls| - 1].workflow == Some(run) then Micros(calls[|calls| - 1].cost) else 0
  }

  ghost function FirstDollars(calls: seq<Call>, run: RunId): real {
    if calls == [] then 0.0
    else
      FirstDollars(calls[..|calls| - 1], run)
      + if FirstWrite(calls, |calls| - 1) && calls[|calls| - 1].workflow == Some(run) then calls[|calls| - 1].cost else 0.0
  }

  ghost function FirstCount(calls: seq<Call>, run: RunId): nat {
    if calls == [] then 0
    else
      FirstCount(calls[..|calls| - 1], run)
      + if FirstWrite(calls, |calls| - 1) && calls[|calls| - 1].workflow == Some(run) then 1 else 0
  }

  /** A key is in the table iff some call of it could be stored. */
  lemma {:induction false} LedgerKeys(calls: seq<Call>, key: Key)
    ensures Find(Ledger(calls), key).Some? <==> exists i | 0 <= i < |calls| :: calls[i].key == key && Fits(calls[i].cost)
  {
    if calls != [] {
      var before, last := calls[..|calls| - 1], calls[|calls| - 1];
      LedgerKeys(before, key);
      LedgerKeys(before, last.key);
      FindAppend(Ledger(before), [RowOf(last)], key);
      if i :| 0 <= i < |before| && before[i].key == key && Fits(before[i].cost) {
        assert calls[i].key == key && Fits(calls[i].cost);
      }
    }
  }

  lemma {:induction false} InsertedCost(rows: seq<Row>, c: Call, run: RunId)
    ensures
      RunningCost(InsertOrReturn(rows, c).0, run) == RunningCost(rows, run) +
      if Find(rows, c.key).None? && Fits(c.cost) && c.workflow == Some(run) then Micros(c.cost) else 0
  {
    assert (rows + [RowOf(c)])[..|rows|] == rows;
  }

  lemma {:induction false} FirstWriteIsNew(calls: seq<Call>)
    requires calls != []
    ensures
      var last := calls[|calls| - 1];
      FirstWrite(calls, |calls| - 1) <==> Fits(last.cost) && Find(Ledger(calls[..|calls| - 1]), last.key).None?
  {
    LedgerKeys(calls[..|calls| - 1], calls[|calls| - 1].key);
  }

  /** Whatever was retried, by whichever writer and with whatever numbers: the run's total is the
      sum, over its distinct keys, of the cost that was written first. */
  lemma {:induction false} SpendIsFirstWrites(calls: seq<Call>, run: RunId)
    ensures RunningCost(Ledger(calls), run) == FirstSpend(calls, run)
  {
    if calls != [] {
      var before := calls[..|calls| - 1];
      SpendIsFirstWrites(before, run);
      FirstWriteIsNew(calls);
      InsertedCost(Ledger(before), calls[|calls| - 1], run);
    }
  }

  lemma {:induction false} FirstWriteStays(calls: seq<Call>, i: nat)
    requires i + 1 < |calls| && FirstWrite(calls[..|calls| - 1], i)
    ensures FirstWrite(calls, i)
  {
    var before := calls[..|calls| - 1];
    assert forall j | 0 <= j <= i :: before[j] == calls[j];
  }

  /** Every row is a call's, column by column: the call that wrote its key first. */
  lemma {:induction false} LedgerCarries(calls: seq<Call>, r: Row)
    requires r in Ledger(calls)
    ensures exists i | 0 <= i < |calls| :: FirstWrite(calls, i) && Carries(calls[i], r)
  {
    var before, last := calls[..|calls| - 1], calls[|calls| - 1];
    if r in Ledger(before) {
      LedgerCarries(before, r);
      var i :| 0 <= i < |before| && FirstWrite(before, i) && Carries(before[i], r);
      FirstWriteStays(calls, i);
    } else {
      RowCarries(last);
      FirstWriteIsNew(calls);
    }
  }

  lemma {:induction false} LedgerUnique(calls: seq<Call>)
    ensures UniqueKeys(Ledger(calls))
  {
    if calls != [] {
      LedgerUnique(calls[..|calls| - 1]);
      FindSpec(Ledger(calls[..|calls| - 1]), calls[|calls| - 1].key);
    }
  }

  /** Retrying a call that was recorded, with any numbers, returns the first row and changes nothing. */
  lemma {:induction false} RetryReturnsTheFirst(calls: seq<Call>, more: seq<Call>, again: Call, row: Row)
    requires Find(Ledger(calls), again.key) == Some(row)
    ensures InsertOrReturn(Ledger(calls + more), again) == (Ledger(calls + more), Some(row))
    ensures RowOf(again).micros != row.micros ==> RowOf(again) !in Ledger(calls + more)
  {
    if more == [] {
      assert calls + more == calls;
      LedgerUnique(calls);
      FindSpec(Ledger(calls), again.key);
    } else {
      var all := calls + more;
      assert all[..|all| - 1] == calls + more[..|more| - 1];
      RetryReturnsTheFirst(calls, more[..|more| - 1], again, row);
      FindAppend(Ledger(calls + more[..|more| - 1]), [RowOf(all[|all| - 1])], again.key);
      LedgerUnique(all);
      FindSpec(Ledger(all), again.key);
    }
  }

  /** Rows of no workflow never count, and with costs that are not negative the total never falls:
      once over a cap, always over it. */
  lemma {:induction false} SpendNeverFalls(calls: seq<Call>, more: seq<Call>, run: RunId)
    requires forall c | c in more :: c.cost >= 0.0 || c.workflow == None
    ensures RunningCost(Ledger(calls + more), run) >= RunningCost(Ledger(calls), run)
  {
    if more == [] {
      assert calls + more == calls;
    } else {
      var all, last := calls + more, more[|more| - 1];
      assert all[..|all| - 1] == calls + more[..|more| - 1];
      assert forall c | c in more[..|more| - 1] :: c in more;
      SpendNeverFalls(calls, more[..|more| - 1], run);
      InsertedCost(Ledger(all[..|all| - 1]), last, run);
      assert last in more && all[|all| - 1] == last;
    }
  }

  lemma RoundingError(cost: real)
    ensures -0.5 <= cost * 1000000.0 - Micros(cost) as real <= 0.5
  {
  }

  /** The total is off the unrounded spend by at most half a micro-dollar for each counted row. */
  lemma {:induction false} SpendRounding(calls: seq<Call>, run: RunId)
    ensures
      var error := FirstDollars(calls, run) * 1000000.0 - RunningCost(Ledger(calls), run) as real;
      var half := FirstCount(calls, run) as real * 0.5;
      -half <= error <= half
  {
    SpendIsFirstWrites(calls, run);
    if calls != [] {
      SpendRounding(calls[..|calls| - 1], run);
      SpendIsFirstWrites(calls[..|calls| - 1], run);
      RoundingError(calls[|calls| - 1].cost);
    }
  }
}
