/** The operator seed: ensure the account, import the environment's provider keys once, give ownerless
    rows an owner. */
module Seed {
  import opened Common
  import opened PythonText
  import A = Accounts

  /** A ciphertext: the key and the random part the cipher mixes in. */
  datatype Cipher = Cipher(plain: string, iv: nat)

  datatype Credential = Credential(owner: A.UserId, provider: string, secret: Cipher, last4: string)

  datatype RunRow = RunRow(id: nat, owner: Option<A.UserId>)

  datatype GraphRow = GraphRow(id: nat, owner: Option<A.UserId>, library: bool)

  datatype Data = Data(users: seq<A.User>, credentials: seq<Credential>, runs: seq<RunRow>, graphs: seq<GraphRow>)

  type Environment = map<string, string>

  datatype Source = Source(names: seq<string>, provider: string)

  const DEFAULT_SEED_EMAIL := "operator@tvashtr.local"
  const DEFAULT_SEED_PASSWORD := "tvashtr-dev"

  const ENV_PROVIDER_MAP: seq<Source> := [
    Source(["OPENROUTER_API_KEY"], "openrouter"),
    Source(["OPENAI_API_KEY"], "openai"),
    Source(["GEMINI_API_KEY"], "gemini"),
    Source(["GOOGLE_CLOUD_API_KEY"], "vertex_ai"),
    Source(["GROQ_CLOUD_API_KEY", "GROQ_API_KEY"], "groq"),
    Source(["NVIDIA_BUILD_API_KEY", "NVIDIA_NIM_API_KEY"], "nvidia_nim"),
    Source(["DEEPSEEK_API_KEY"], "deepseek"),
    Source(["HF_TOKEN", "HUGGINGFACE_API_KEY"], "huggingface")]

  function Get(env: Environment, name: string, default: string): string {
    if name in env then env[name] else default
  }

  /** The first variable of the names that is set to something other than the empty string. */
  function FirstSet(env: Environment, names: seq<string>): string {
    if names == [] then ""
    else if Get(env, names[0], "") != "" then env[names[0]]
    else FirstSet(env, names[1..])
  }

  function Last4(key: string): string {
    if |key| <= 4 then key else key[|key| - 4..]
  }

  // ----- specification -----

  /** Insert or overwrite the row of an owner and provider. */
  function Upsert(rows: seq<Credential>, row: Credential): seq<Credential> {
    if rows == [] then [row]
    else if rows[0].owner == row.owner && rows[0].provider == row.provider then [row] + rows[1..]
    else [rows[0]] + Upsert(rows[1..], row)
  }

  function ImportedOne(rows: seq<Credential>, env: Environment, owner: A.UserId, source: Source, iv: nat): seq<Credential> {
    var raw := FirstSet(env, source.names);
    var key := Strip(raw);
    if raw == "" then rows else Upsert(rows, Credential(owner, source.provider, Cipher(key, iv), Last4(key)))
  }

  /** The imports of a list of sources; `iv` is drawn for each. */
  function Imported(rows: seq<Credential>, env: Environment, owner: A.UserId, sources: seq<Source>, iv: nat): seq<Credential>
    decreases |sources|
  {
    if sources == [] then rows
    else Imported(ImportedOne(rows, env, owner, sources[0], iv), env, owner, sources[1..], iv + 1)
  }

  function CountSet(env: Environment, sources: seq<Source>): nat {
    if sources == [] then 0 else (if FirstSet(env, sources[0].names) == "" then 0 else 1) + CountSet(env, sources[1..])
  }

  /** What importing the sources makes of the rows and of a count. */
  function ComesTo(rows: seq<Credential>, count: nat, env: Environment, owner: A.UserId, sources: seq<Source>, iv: nat): (seq<Credential>, nat) {
    (Imported(rows, env, owner, sources, iv), count + CountSet(env, sources))
  }

  function OwnedRuns(runs: seq<RunRow>, owner: A.UserId): seq<RunRow> {
    if runs == [] then []
    else [if runs[0].owner.None? then runs[0].(owner := Some(owner)) else runs[0]] + OwnedRuns(runs[1..], owner)
  }

  function OwnedGraphs(graphs: seq<GraphRow>, owner: A.UserId): seq<GraphRow> {
    if graphs == [] then []
    else [if graphs[0].owner.None? && graphs[0].library then graphs[0].(owner := Some(owner)) else graphs[0]] + OwnedGraphs(graphs[1..], owner)
  }

  function OwnerlessRuns(runs: seq<RunRow>): nat {
    if runs == [] then 0 else (if runs[0].owner.None? then 1 else 0) + OwnerlessRuns(runs[1..])
  }

  function OwnerlessTeams(graphs: seq<GraphRow>): nat {
    if graphs == [] then 0 else (if graphs[0].owner.None? && graphs[0].library then 1 else 0) + OwnerlessTeams(graphs[1..])
  }

  function SeedEmail(env: Environment): string {
    A.NormalizeEmail(Get(env, "TVASHTR_SEED_EMAIL", DEFAULT_SEED_EMAIL))
  }

  /** The users with the operator among them, and the operator's key. */
  function WithOperator(users: seq<A.User>, env: Environment, newId: A.UserId, salt: nat): (seq<A.User>, A.UserId) {
    var found := A.ByEmail(users, SeedEmail(env));
    if found.Some? then (users, found.value.id)
    else
      (users + [A.User(newId, SeedEmail(env), A.Hashed(Get(env, "TVASHTR_SEED_PASSWORD", DEFAULT_SEED_PASSWORD), salt), None, None)], newId)
  }

  function SeededFrom(d: Data, env: Environment, sources: seq<Source>, newId: A.UserId, salt: nat, iv: nat): Data {
    var (users, operator) := WithOperator(d.users, env, newId, salt);
    Data(users, Imported(d.credentials, env, operator, sources, iv), OwnedRuns(d.runs, operator), OwnedGraphs(d.graphs, operator))
  }

  function Seeded(d: Data, env: Environment, newId: A.UserId, salt: nat, iv: nat): Data {
    SeededFrom(d, env, ENV_PROVIDER_MAP, newId, salt, iv)
  }

  /** The printed summary's facts. */
  datatype Report = Report(created: bool, imported: nat, runs: nat, teams: nat)

  function ReportOf(d: Data, env: Environment, sources: seq<Source>): Report {
    Report(A.ByEmail(d.users, SeedEmail(env)).None?, CountSet(env, sources), OwnerlessRuns(d.runs), OwnerlessTeams(d.graphs))
  }

  // ----- what the two updates do -----

  /** Each run keeps the owner it had and gets this one if it had none. */
  ghost predicate RunsBackfilled(before: seq<RunRow>, after: seq<RunRow>, owner: A.UserId) {
    |after| == |before| && forall i | 0 <= i < |before| :: after[i] == RunRow(before[i].id, Some(before[i].owner.GetOr(owner)))
  }

  /** The same of library teams; other graphs are left alone. */
  ghost predicate TeamsBackfilled(before: seq<GraphRow>, after: seq<GraphRow>, owner: A.UserId) {
    && |after| == |before|
    && (forall i | 0 <= i < |before| && before[i].library :: after[i] == GraphRow(before[i].id, Some(before[i].owner.GetOr(owner)), true))
    && (forall i | 0 <= i < |before| && !before[i].library :: after[i] == before[i])
  }

  lemma {:induction false} BackfillRuns(runs: seq<RunRow>, owner: A.UserId)
    ensures RunsBackfilled(runs, OwnedRuns(runs, owner), owner)
  {
    if runs != [] {
      BackfillRuns(runs[1..], owner);
    }
  }

  lemma {:induction false} BackfillTeams(graphs: seq<GraphRow>, owner: A.UserId)
    ensures TeamsBackfilled(graphs, OwnedGraphs(graphs, owner), owner)
  {
    if graphs != [] {
      BackfillTeams(graphs[1..], owner);
    }
  }

  /** The number of places where two lists differ. */
  function Differences<T(==)>(before: seq<T>, after: seq<T>): nat
    requires |before| == |after|
  {
    if before == [] then 0 else (if before[0] == after[0] then 0 else 1) + Differences(before[1..], after[1..])
  }

  lemma {:induction false} BackfillCounts(runs: seq<RunRow>, graphs: seq<GraphRow>, owner: A.UserId)
    ensures |OwnedRuns(runs, owner)| == |runs| && |OwnedGraphs(graphs, owner)| == |graphs|
    ensures OwnerlessRuns(runs) == Differences(runs, OwnedRuns(runs, owner))
    ensures OwnerlessTeams(graphs) == Differences(graphs, OwnedGraphs(graphs, owner))
    decreases |runs| + |graphs|
  {
    if runs != [] {
      BackfillCounts(runs[1..], graphs, owner);
    } else if graphs != [] {
      BackfillCounts(runs, graphs[1..], owner);
    }
  }

  // ----- the program -----

  class Database {
    var users: seq<A.User>
    var credentials: seq<Credential>
    var runs: seq<RunRow>
    var graphs: seq<GraphRow>

    function Contents(): Data
      reads this
    {
      Data(users, credentials, runs, graphs)
    }

    constructor (data: Data)
      ensures Contents() == data
    {
      users, credentials, runs, graphs := data.users, data.credentials, data.runs, data.graphs;
    }

    /** `_ensure_operator`. */
    method EnsureOperator(env: Environment, newId: A.UserId, salt: nat) returns (id: A.UserId, created: bool)
      modifies this`users
      ensures (users, id) == WithOperator(old(users), env, newId, salt)
      ensures created == A.ByEmail(old(users), SeedEmail(env)).None?
    {
      var email := SeedEmail(env);
      var password := Get(env, "TVASHTR_SEED_PASSWORD", DEFAULT_SEED_PASSWORD);
      var user := A.ByEmail(users, email);
      created := user.None?;
      if user.None? {
        users := users + [A.User(newId, email, A.Hashed(password, salt), None, None)];
        id := newId;
      } else {
        id := user.value.id;
      }
    }

    method UpsertCredential(row: Credential)
      modifies this`credentials
      ensures credentials == Upsert(old(credentials), row)
    {
      var i := 0;
      while i < |credentials| && !(credentials[i].owner == row.owner && credentials[i].provider == row.provider)
        invariant i <= |credentials| && credentials == old(credentials)
        invariant Upsert(credentials, row) == credentials[..i] + Upsert(credentials[i..], row)
      {
        UpsertSkips(credentials, row, i);
        i := i + 1;
      }
      if i < |credentials| {
        UpsertHits(credentials, row, i);
        credentials := credentials[i := row];
      } else {
        UpsertEnds(credentials, row);
        credentials := credentials + [row];
      }
    }

    /** One source: imported when a variable of it is set. */
    method ImportSource(env: Environment, operator: A.UserId, source: Source, iv: nat) returns (done: bool)
      modifies this`credentials
      ensures credentials == ImportedOne(old(credentials), env, operator, source, iv)
      ensures done == (FirstSet(env, source.names) != "")
    {
      var raw := FirstSet(env, source.names);
      done := raw != "";
      if done {
        var key := Strip(raw);
        UpsertCredential(Credential(operator, source.provider, Cipher(key, iv), Last4(key)));
      }
    }

    /** The first of the sources still to import: what all of them come to stays what it was. */
    method ImportNext(env: Environment, operator: A.UserId, left: seq<Source>, draw: nat, count: nat, ghost goal: (seq<Credential>, nat))
      returns (imported: nat)
      requires left != [] && goal == ComesTo(credentials, count, env, operator, left, draw)
      modifies this`credentials
      ensures goal == ComesTo(credentials, imported, env, operator, left[1..], draw + 1)
    {
      var done := ImportSource(env, operator, left[0], draw);
      imported := count + if done then 1 else 0;
    }

    /** `import_env_provider_keys`, over the given sources. */
    method ImportEnvProviderKeys(env: Environment, operator: A.UserId, sources: seq<Source>, iv: nat) returns (imported: nat)
      modifies this`credentials
      ensures (credentials, imported) == ComesTo(old(credentials), 0, env, operator, sources, iv)
    {
      ghost var goal := ComesTo(credentials, 0, env, operator, sources, iv);
      imported := 0;
      var left, draw := sources, iv;
      while left != []
        invariant goal == ComesTo(credentials, imported, env, operator, left, draw)
        decreases |left|
      {
        imported := ImportNext(env, operator, left, draw, imported, goal);
        left, draw := left[1..], draw + 1;
      }
    }

    /** `backfill_owner`: two bulk updates and their row counts. */
    method BackfillOwner(operator: A.UserId) returns (runsOwned: nat, teamsOwned: nat)
      modifies this`runs, this`graphs
      ensures RunsBackfilled(old(runs), runs, operator) && TeamsBackfilled(old(graphs), graphs, operator)
      ensures OwnerlessRuns(runs) == 0 && OwnerlessTeams(graphs) == 0
      ensures runsOwned == Differences(old(runs), runs) && teamsOwned == Differences(old(graphs), graphs)
      ensures runs == OwnedRuns(old(runs), operator) && graphs == OwnedGraphs(old(graphs), operator)
      ensures runsOwned == OwnerlessRuns(old(runs)) && teamsOwned == OwnerlessTeams(old(graphs))
    {
      BackfillRuns(runs, operator);
      BackfillTeams(graphs, operator);
      BackfillCounts(runs, graphs, operator);
      OwnedHaveOwners(runs, graphs, operator);
      runsOwned, teamsOwned := OwnerlessRuns(runs), OwnerlessTeams(graphs);
      runs, graphs := OwnedRuns(runs, operator), OwnedGraphs(graphs, operator);
    }

    method RunFrom(env: Environment, sources: seq<Source>, newId: A.UserId, salt: nat, iv: nat) returns (report: Report)
      modifies this
      ensures Contents() == SeededFrom(old(Contents()), env, sources, newId, salt, iv)
      ensures report == ReportOf(old(Contents()), env, sources)
    {
      ghost var before := Contents();
      var operator, created := EnsureOperator(env, newId, salt);
      ghost var users1 := users;
      assert (users1, operator) == WithOperator(before.users, env, newId, salt);
      var imported := ImportEnvProviderKeys(env, operator, sources, iv);
      assert credentials == Imported(before.credentials, env, operator, sources, iv);
      var runsOwned, teamsOwned := BackfillOwner(operator);
      assert users == users1 && runs == OwnedRuns(before.runs, operator);
      report := Report(created, imported, runsOwned, teamsOwned);
    }

    /** `main`. */
    method Run(env: Environment, newId: A.UserId, salt: nat, iv: nat) returns (report: Report)
      modifies this
      ensures Contents() == Seeded(old(Contents()), env, newId, salt, iv)
      ensures report == ReportOf(old(Contents()), env, ENV_PROVIDER_MAP)
    {
      report := RunFrom(env, ENV_PROVIDER_MAP, newId, salt, iv);
    }
  }

  lemma {:induction false} UpsertSkips(rows: seq<Credential>, row: Credential, i: nat)
    requires i < |rows| && !(rows[i].owner == row.owner && rows[i].provider == row.provider)
    ensures rows[..i] + Upsert(rows[i..], row) == rows[..i + 1] + Upsert(rows[i + 1..], row)
  {
    assert rows[i..][1..] == rows[i + 1..];
    assert Upsert(rows[i..], row) == [rows[i]] + Upsert(rows[i + 1..], row);
  }

  lemma {:induction false} UpsertEnds(rows: seq<Credential>, row: Credential)
    ensures rows[..|rows|] + Upsert(rows[|rows|..], row) == rows + [row]
  {
    assert rows[..|rows|] == rows && rows[|rows|..] == [];
  }

  lemma {:induction false} UpsertHits(rows: seq<Credential>, row: Credential, i: nat)
    requires i < |rows| && rows[i].owner == row.owner && rows[i].provider == row.provider
    ensures rows[..i] + Upsert(rows[i..], row) == rows[i := row]
  {
    assert rows[i..][1..] == rows[i + 1..];
    assert Upsert(rows[i..], row) == [row] + rows[i + 1..];
  }

  // ----- what an import does to each key -----

  /** The stored key of an owner and provider, decrypted, with its display tail. */
  function KeyOf(rows: seq<Credential>, owner: A.UserId, provider: string): Option<(string, string)> {
    if rows == [] then None
    else if rows[0].owner == owner && rows[0].provider == provider then Some((rows[0].secret.plain, rows[0].last4))
    else KeyOf(rows[1..], owner, provider)
  }

  lemma {:induction false} UpsertSpec(rows: seq<Credential>, row: Credential, owner: A.UserId, provider: string)
    ensures KeyOf(Upsert(rows, row), owner, provider) ==
      if row.owner == owner && row.provider == provider then Some((row.secret.plain, row.last4)) else KeyOf(rows, owner, provider)
  {
    if rows != [] && !(rows[0].owner == row.owner && rows[0].provider == row.provider) {
      UpsertSpec(rows[1..], row, owner, provider);
    }
  }

  ghost predicate DistinctProviders(sources: seq<Source>) {
    forall i, j | 0 <= i < j < |sources| :: sources[i].provider != sources[j].provider
  }

  /** The first set variable of a provider's source; empty when the list has none or none is set. */
  function SetFor(env: Environment, sources: seq<Source>, provider: string): string {
    if sources == [] then ""
    else if sources[0].provider == provider then FirstSet(env, sources[0].names)
    else SetFor(env, sources[1..], provider)
  }

  lemma {:induction false} NoSource(env: Environment, sources: seq<Source>, provider: string)
    requires forall s | s in sources :: s.provider != provider
    ensures SetFor(env, sources, provider) == ""
  {
    if sources != [] {
      assert sources[0] in sources;
      NoSource(env, sources[1..], provider);
    }
  }

  /** After an import the owner's key for each provider is the first set variable, stripped; where none
      is set, and for every other account, it is what it was. */
  lemma {:induction false} ImportSpec(rows: seq<Credential>, env: Environment, operator: A.UserId, sources: seq<Source>, iv: nat,
                                      owner: A.UserId, provider: string)
    requires DistinctProviders(sources)
    ensures KeyOf(Imported(rows, env, operator, sources, iv), owner, provider) ==
      if owner == operator && SetFor(env, sources, provider) != ""
      then Some((Strip(SetFor(env, sources, provider)), Last4(Strip(SetFor(env, sources, provider)))))
      else KeyOf(rows, owner, provider)
    decreases |sources|
  {
    if sources != [] {
      var raw := FirstSet(env, sources[0].names);
      var row := Credential(operator, sources[0].provider, Cipher(Strip(raw), iv), Last4(Strip(raw)));
      var next := if raw == "" then rows else Upsert(rows, row);
      UpsertSpec(rows, row, owner, provider);
      ImportSpec(next, env, operator, sources[1..], iv + 1, owner, provider);
      if sources[0].provider == provider {
        forall s | s in sources[1..] ensures s.provider != provider {
          var i :| 0 <= i < |sources[1..]| && sources[1..][i] == s;
          assert sources[i + 1] == s;
        }
        NoSource(env, sources[1..], provider);
      }
    }
  }

  lemma {:induction false} MapHasDistinctProviders()
    ensures DistinctProviders(ENV_PROVIDER_MAP)
  {
    forall i, j | 0 <= i < j < |ENV_PROVIDER_MAP|
      ensures ENV_PROVIDER_MAP[i].provider != ENV_PROVIDER_MAP[j].provider
    {
      assert |ENV_PROVIDER_MAP[i].provider| == |ENV_PROVIDER_MAP[j].provider| ==>
        ENV_PROVIDER_MAP[i].provider[0] != ENV_PROVIDER_MAP[j].provider[0];
    }
  }

  ghost predicate UniqueKeys(rows: seq<Credential>) {
    forall i, j | 0 <= i < j < |rows| :: rows[i].owner != rows[j].owner || rows[i].provider != rows[j].provider
  }

  lemma {:induction false} UpsertUnique(rows: seq<Credential>, row: Credential)
    requires UniqueKeys(rows)
    ensures UniqueKeys(Upsert(rows, row))
    ensures forall x | x in Upsert(rows, row) :: x == row || x in rows
  {
    if rows != [] && !(rows[0].owner == row.owner && rows[0].provider == row.provider) {
      UpsertUnique(rows[1..], row);
      var rest := Upsert(rows[1..], row);
      forall j | 0 <= j < |rest| ensures rest[j].owner != rows[0].owner || rest[j].provider != rows[0].provider {
        assert rest[j] in rest;
        if rest[j] != row {
          var i :| 0 <= i < |rows[1..]| && rows[1..][i] == rest[j];
          assert rows[i + 1] == rest[j];
        }
      }
    }
  }

  lemma {:induction false} ImportUnique(rows: seq<Credential>, env: Environment, operator: A.UserId, sources: seq<Source>, iv: nat)
    requires UniqueKeys(rows)
    ensures UniqueKeys(Imported(rows, env, operator, sources, iv))
    decreases |sources|
  {
    if sources != [] {
      var raw := FirstSet(env, sources[0].names);
      var row := Credential(operator, sources[0].provider, Cipher(Strip(raw), iv), Last4(Strip(raw)));
      UpsertUnique(rows, row);
      ImportUnique(if raw == "" then rows else Upsert(rows, row), env, operator, sources[1..], iv + 1);
    }
  }

  /** The rows of the other accounts, untouched down to the ciphertext. */
  function Others(rows: seq<Credential>, operator: A.UserId): seq<Credential> {
    if rows == [] then []
    else (if rows[0].owner == operator then [] else [rows[0]]) + Others(rows[1..], operator)
  }

  lemma {:induction false} UpsertLeavesOthers(rows: seq<Credential>, row: Credential)
    ensures Others(Upsert(rows, row), row.owner) == Others(rows, row.owner)
  {
    if rows != [] && !(rows[0].owner == row.owner && rows[0].provider == row.provider) {
      UpsertLeavesOthers(rows[1..], row);
    }
  }

  lemma {:induction false} ImportLeavesOthers(rows: seq<Credential>, env: Environment, operator: A.UserId, sources: seq<Source>, iv: nat)
    ensures Others(Imported(rows, env, operator, sources, iv), operator) == Others(rows, operator)
    decreases |sources|
  {
    if sources != [] {
      var raw := FirstSet(env, sources[0].names);
      var row := Credential(operator, sources[0].provider, Cipher(Strip(raw), iv), Last4(Strip(raw)));
      UpsertLeavesOthers(rows, row);
      ImportLeavesOthers(if raw == "" then rows else Upsert(rows, row), env, operator, sources[1..], iv + 1);
    }
  }

  // ----- twice is once -----

  /** A row without the cipher's randomness. */
  datatype Plain = Plain(owner: A.UserId, provider: string, key: string, last4: string)

  function Decrypted(rows: seq<Credential>): seq<Plain> {
    if rows == [] then [] else [Plain(rows[0].owner, rows[0].provider, rows[0].secret.plain, rows[0].last4)] + Decrypted(rows[1..])
  }

  lemma {:induction false} UpsertSameKey(rows: seq<Credential>, row: Credential)
    requires KeyOf(rows, row.owner, row.provider) == Some((row.secret.plain, row.last4))
    ensures Decrypted(Upsert(rows, row)) == Decrypted(rows)
  {
    if !(rows[0].owner == row.owner && rows[0].provider == row.provider) {
      UpsertSameKey(rows[1..], row);
    } else {
      assert ([row] + rows[1..])[1..] == rows[1..];
    }
  }

  /** Every source that is set already has its key stored. */
  ghost predicate AlreadyIn(rows: seq<Credential>, env: Environment, operator: A.UserId, sources: seq<Source>) {
    forall s | s in sources && FirstSet(env, s.names) != "" ::
      KeyOf(rows, operator, s.provider) == Some((Strip(FirstSet(env, s.names)), Last4(Strip(FirstSet(env, s.names)))))
  }

  lemma {:induction false} ReimportChangesNothing(rows: seq<Credential>, env: Environment, operator: A.UserId, sources: seq<Source>, iv: nat)
    requires DistinctProviders(sources) && AlreadyIn(rows, env, operator, sources)
    ensures Decrypted(Imported(rows, env, operator, sources, iv)) == Decrypted(rows)
    decreases |sources|
  {
    if sources != [] {
      assert sources[0] in sources;
      var raw := FirstSet(env, sources[0].names);
      var row := Credential(operator, sources[0].provider, Cipher(Strip(raw), iv), Last4(Strip(raw)));
      var next := if raw == "" then rows else Upsert(rows, row);
      if raw != "" {
        UpsertSameKey(rows, row);
      }
      forall s | s in sources[1..] && FirstSet(env, s.names) != ""
        ensures KeyOf(next, operator, s.provider) == Some((Strip(FirstSet(env, s.names)), Last4(Strip(FirstSet(env, s.names)))))
      {
        UpsertSpec(rows, row, operator, s.provider);
        assert s in sources;
      }
      ReimportChangesNothing(next, env, operator, sources[1..], iv + 1);
    }
  }

  lemma {:induction false} SetForMember(env: Environment, sources: seq<Source>, s: Source)
    requires DistinctProviders(sources) && s in sources
    ensures SetFor(env, sources, s.provider) == FirstSet(env, s.names)
  {
    if sources[0] != s {
      var i :| 0 <= i < |sources| && sources[i] == s;
      assert sources[1..][i - 1] == s;
      SetForMember(env, sources[1..], s);
    }
  }

  lemma {:induction false} ImportedIsIn(rows: seq<Credential>, env: Environment, operator: A.UserId, sources: seq<Source>, iv: nat)
    requires DistinctProviders(sources)
    ensures AlreadyIn(Imported(rows, env, operator, sources, iv), env, operator, sources)
  {
    forall s | s in sources && FirstSet(env, s.names) != ""
      ensures KeyOf(Imported(rows, env, operator, sources, iv), operator, s.provider) ==
        Some((Strip(FirstSet(env, s.names)), Last4(Strip(FirstSet(env, s.names)))))
    {
      SetForMember(env, sources, s);
      ImportSpec(rows, env, operator, sources, iv, operator, s.provider);
    }
  }

  lemma {:induction false} OwnedHaveOwners(runs: seq<RunRow>, graphs: seq<GraphRow>, owner: A.UserId)
    ensures OwnerlessRuns(OwnedRuns(runs, owner)) == 0 && OwnerlessTeams(OwnedGraphs(graphs, owner)) == 0
    decreases |runs| + |graphs|
  {
    if runs != [] {
      OwnedHaveOwners(runs[1..], graphs, owner);
    } else if graphs != [] {
      OwnedHaveOwners(runs, graphs[1..], owner);
    }
  }

  lemma {:induction false} NothingToOwn(runs: seq<RunRow>, graphs: seq<GraphRow>, owner: A.UserId)
    requires OwnerlessRuns(runs) == 0 && OwnerlessTeams(graphs) == 0
    ensures OwnedRuns(runs, owner) == runs && OwnedGraphs(graphs, owner) == graphs
    decreases |runs| + |graphs|
  {
    if runs != [] {
      NothingToOwn(runs[1..], graphs, owner);
    } else if graphs != [] {
      NothingToOwn(runs, graphs[1..], owner);
    }
  }

  lemma {:induction false} ByEmailAppended(users: seq<A.User>, u: A.User)
    requires A.ByEmail(users, u.email).None?
    ensures A.ByEmail(users + [u], u.email) == Some(u)
  {
    if users != [] {
      assert (users + [u])[1..] == users[1..] + [u];
      ByEmailAppended(users[1..], u);
    }
  }

  /** Running the seed twice is running it once, ciphertexts compared by what they decrypt to; the
      second run creates no account and backfills nothing. */
  lemma {:induction false} SeedTwiceIsOnce(d: Data, env: Environment, newId: A.UserId, salt: nat, iv: nat, newId2: A.UserId, salt2: nat, iv2: nat)
    ensures
      var once := Seeded(d, env, newId, salt, iv);
      var twice := Seeded(once, env, newId2, salt2, iv2);
      && twice.users == once.users && Decrypted(twice.credentials) == Decrypted(once.credentials)
      && twice.runs == once.runs && twice.graphs == once.graphs
      && A.ByEmail(once.users, SeedEmail(env)).Some? && OwnerlessRuns(once.runs) == 0 && OwnerlessTeams(once.graphs) == 0
  {
    var once := Seeded(d, env, newId, salt, iv);
    var (users, operator) := WithOperator(d.users, env, newId, salt);
    if A.ByEmail(d.users, SeedEmail(env)).None? {
      ByEmailAppended(d.users, users[|users| - 1]);
    }
    assert WithOperator(users, env, newId2, salt2) == (users, operator);
    MapHasDistinctProviders();
    ImportedIsIn(d.credentials, env, operator, ENV_PROVIDER_MAP, iv);
    ReimportChangesNothing(once.credentials, env, operator, ENV_PROVIDER_MAP, iv2);
    OwnedHaveOwners(d.runs, d.graphs, operator);
    NothingToOwn(once.runs, once.graphs, operator);
  }

  /** The key one seed leaves for an account and a provider: for the operator the first set variable,
      stripped, if one is set; else the key there was. */
  function KeyAfter(rows: seq<Credential>, env: Environment, operator: A.UserId, owner: A.UserId, provider: string): Option<(string, string)> {
    var value := SetFor(env, ENV_PROVIDER_MAP, provider);
    if owner == operator && value != "" then Some((Strip(value), Last4(Strip(value)))) else KeyOf(rows, owner, provider)
  }

  /** What one seed leaves: every run and every library team has an owner, its old one if it had one;
      ownerless graphs outside the library stay ownerless; the operator's keys are the first set
      variables; every other account's credentials are untouched; keys stay unique. */
  lemma {:induction false} SeedSpec(d: Data, env: Environment, newId: A.UserId, salt: nat, iv: nat, owner: A.UserId, provider: string)
    requires UniqueKeys(d.credentials)
    ensures
      var after := Seeded(d, env, newId, salt, iv);
      var operator := WithOperator(d.users, env, newId, salt).1;
      && RunsBackfilled(d.runs, after.runs, operator) && TeamsBackfilled(d.graphs, after.graphs, operator)
      && UniqueKeys(after.credentials) && Others(after.credentials, operator) == Others(d.credentials, operator)
      && KeyOf(after.credentials, owner, provider) == KeyAfter(d.credentials, env, operator, owner, provider)
  {
    var operator := WithOperator(d.users, env, newId, salt).1;
    MapHasDistinctProviders();
    ImportSpec(d.credentials, env, operator, ENV_PROVIDER_MAP, iv, owner, provider);
    ImportUnique(d.credentials, env, operator, ENV_PROVIDER_MAP, iv);
    ImportLeavesOthers(d.credentials, env, operator, ENV_PROVIDER_MAP, iv);
    BackfillRuns(d.runs, operator);
    BackfillTeams(d.graphs, operator);
  }

  /** The account invariant survives the seed. */
  lemma {:induction false} SeedKeepsAccounts(users: seq<A.User>, env: Environment, newId: A.UserId, salt: nat)
    requires A.Valid(users) && A.Unused(users, newId)
    ensures A.Keeps(users, WithOperator(users, env, newId, salt).0)
  {
    A.ByEmailSpec(users, SeedEmail(env));
    A.Unchanged(users);
    if A.ByEmail(users, SeedEmail(env)).None? {
      A.Appended(users, A.User(newId, SeedEmail(env), A.Hashed(Get(env, "TVASHTR_SEED_PASSWORD", DEFAULT_SEED_PASSWORD), salt), None, None));
    }
  }

  /** After a seed that created the operator, its address in any spelling and the seed password sign in
      to it, and no other password does. */
  lemma {:induction false} OperatorCanLogIn(t: A.Tables, env: Environment, newId: A.UserId, salt: nat, spelling: string, attempt: string)
    requires A.Valid(t.users) && A.Unused(t.users, newId) && A.ByEmail(t.users, SeedEmail(env)).None?
    requires A.SameAddress(spelling, Get(env, "TVASHTR_SEED_EMAIL", DEFAULT_SEED_EMAIL))
    ensures
      A.Login(t.(users := WithOperator(t.users, env, newId, salt).0), spelling, attempt) == A.Ok(newId) <==>
      attempt == Get(env, "TVASHTR_SEED_PASSWORD", DEFAULT_SEED_PASSWORD)
  {
    A.StoredAlikeIff(spelling, Get(env, "TVASHTR_SEED_EMAIL", DEFAULT_SEED_EMAIL));
    var users := WithOperator(t.users, env, newId, salt).0;
    ByEmailAppended(t.users, users[|users| - 1]);
  }

  // ----- a blank variable counts as set -----

  /** The first variable of the names that holds a key: something besides white space. */
  function FirstKey(env: Environment, names: seq<string>): string {
    if names == [] then ""
    else if !Blank(Get(env, names[0], "")) then env[names[0]]
    else FirstKey(env, names[1..])
  }

  lemma {:induction false} FirstKeyIs(env: Environment, names: seq<string>)
    ensures FirstKey(env, names) == "" || !Blank(FirstKey(env, names))
    ensures FirstSet(env, names) == "" ==> FirstKey(env, names) == ""
    ensures !Blank(FirstSet(env, names)) ==> FirstKey(env, names) == FirstSet(env, names)
  {
    if names != [] {
      FirstKeyIs(env, names[1..]);
    }
  }

  /** The stored key is the first variable that holds one exactly when the first set variable is not
      blank: a variable set to white space is imported as an empty key, and hides a later name. */
  lemma {:induction false} ImportsTheKeyIff(rows: seq<Credential>, env: Environment, operator: A.UserId, sources: seq<Source>, iv: nat, s: Source)
    requires DistinctProviders(sources) && s in sources && FirstSet(env, s.names) != ""
    ensures
      var stored := KeyOf(Imported(rows, env, operator, sources, iv), operator, s.provider);
      && stored.Some?
      && (stored.value.0 != "" <==> !Blank(FirstSet(env, s.names)))
      && (!Blank(FirstSet(env, s.names)) ==> stored.value.0 == Strip(FirstKey(env, s.names)))
  {
    ImportedIsIn(rows, env, operator, sources, iv);
    StripIsEmptyIff(FirstSet(env, s.names));
    FirstKeyIs(env, s.names);
  }

  /** The failing input: the first name set to one space, the second to a key. */
  lemma {:induction false} BlankShadows()
    ensures
      var env := map["GROQ_CLOUD_API_KEY" := " ", "GROQ_API_KEY" := "gsk-1"];
      var source := Source(["GROQ_CLOUD_API_KEY", "GROQ_API_KEY"], "groq");
      KeyOf(Imported([], env, 1, [source], 0), 1, "groq") == Some(("", "")) && FirstKey(env, source.names) == "gsk-1"
  {
    var env := map["GROQ_CLOUD_API_KEY" := " ", "GROQ_API_KEY" := "gsk-1"];
    var source := Source(["GROQ_CLOUD_API_KEY", "GROQ_API_KEY"], "groq");
    assert FirstSet(env, source.names) == " ";
    assert Strip(" ") == "" by {
      StripIsEmptyIff(" ");
      assert Blank(" ");
    }
    ImportedIsIn([], env, 1, [source], 0);
    assert source in [source];
    assert !Blank("gsk-1") && Blank(" ");
    assert source.names[1..] == ["GROQ_API_KEY"];
    assert FirstKey(env, source.names) == FirstKey(env, source.names[1..]);
  }
}
