/** What a seed reads and writes, in the names of its environment and the columns of its rows. */
module SeedRules {
  import opened Common
  import opened PythonText
  import A = Accounts
  import opened Seed

  /** The display tail: the last four characters, or all there are. */
  lemma {:induction false} Last4Is(key: string)
    ensures |Last4(key)| == (if |key| < 4 then |key| else 4)
    ensures key == key[..|key| - |Last4(key)|] + Last4(key)
  {
  }

  predicate IsSet(env: Environment, name: string) {
    name in env && env[name] != ""
  }

  /** The value of the first name that is set, and nothing when none is. */
  lemma {:induction false} FirstSetIs(env: Environment, names: seq<string>, k: nat)
    requires k <= |names| && forall i | 0 <= i < k :: !IsSet(env, names[i])
    requires k < |names| ==> IsSet(env, names[k])
    ensures FirstSet(env, names) == if k < |names| then env[names[k]] else ""
  {
    if k > 0 {
      FirstSetIs(env, names[1..], k - 1);
    }
  }

  lemma {:induction false} SomethingSetIff(env: Environment, names: seq<string>)
    ensures FirstSet(env, names) != "" <==> exists i | 0 <= i < |names| :: IsSet(env, names[i])
  {
    if i :| 0 <= i < |names| && IsSet(env, names[i]) && forall j | 0 <= j < i :: !IsSet(env, names[j]) {
      FirstSetIs(env, names, i);
    } else {
      NoneSet(env, names, |names|);
      FirstSetIs(env, names, |names|);
    }
  }

  /** With no first set name there is no set name. */
  lemma {:induction false} NoneSet(env: Environment, names: seq<string>, k: nat)
    requires k <= |names|
    requires !exists i | 0 <= i < |names| :: IsSet(env, names[i]) && forall j | 0 <= j < i :: !IsSet(env, names[j])
    ensures forall i | 0 <= i < k :: !IsSet(env, names[i])
  {
    if k > 0 {
      NoneSet(env, names, k - 1);
    }
  }

  ghost function SourcesSet(env: Environment, sources: seq<Source>): set<nat> {
    set i: nat | i < |sources| && exists n | 0 <= n < |sources[i].names| :: IsSet(env, sources[i].names[n])
  }

  /** The number reported as imported is the number of sources with a set variable. */
  lemma {:induction false} ImportedCount(env: Environment, sources: seq<Source>)
    ensures CountSet(env, sources) == |SourcesSet(env, sources)|
  {
    var all := SourcesSet(env, sources);
    if sources == [] {
      assert all == {};
    } else {
      SomethingSetIff(env, sources[0].names);
      ImportedCount(env, sources[1..]);
      var rest := SourcesSet(env, sources[1..]);
      var moved := all - {0};
      forall i: nat | i > 0 ensures i in moved <==> i - 1 in rest {
        assert i < |sources| ==> sources[i] == sources[1..][i - 1];
      }
      Shifted(rest, moved);
      assert all == moved + if 0 in all then {0} else {};
    }
  }

  lemma {:induction false} Shifted(of: set<nat>, moved: set<nat>)
    requires forall i: nat :: i in moved <==> i > 0 && i - 1 in of
    ensures |moved| == |of|
  {
    if of == {} {
      assert moved == {};
    } else {
      var k :| k in of;
      Shifted(of - {k}, moved - {k + 1});
    }
  }

  /** What a provider's variable is called, in the order the names are tried. */
  function NamesFor(provider: string): seq<string> {
    match provider
    case "openrouter" => ["OPENROUTER_API_KEY"]
    case "openai" => ["OPENAI_API_KEY"]
    case "gemini" => ["GEMINI_API_KEY"]
    case "vertex_ai" => ["GOOGLE_CLOUD_API_KEY"]
    case "groq" => ["GROQ_CLOUD_API_KEY", "GROQ_API_KEY"]
    case "nvidia_nim" => ["NVIDIA_BUILD_API_KEY", "NVIDIA_NIM_API_KEY"]
    case "deepseek" => ["DEEPSEEK_API_KEY"]
    case "huggingface" => ["HF_TOKEN", "HUGGINGFACE_API_KEY"]
    case _ => []
  }

  lemma {:induction false} SetForIs(env: Environment, provider: string)
    ensures SetFor(env, ENV_PROVIDER_MAP, provider) == FirstSet(env, NamesFor(provider))
  {
    MapHasDistinctProviders();
    if i :| 0 <= i < |ENV_PROVIDER_MAP| && ENV_PROVIDER_MAP[i].provider == provider {
      FirstNames();
      LastNames();
      SetForMember(env, ENV_PROVIDER_MAP, ENV_PROVIDER_MAP[i]);
    } else {
      NoSource(env, ENV_PROVIDER_MAP, provider);
      assert ENV_PROVIDER_MAP[0].provider != provider && ENV_PROVIDER_MAP[1].provider != provider;
      assert ENV_PROVIDER_MAP[2].provider != provider && ENV_PROVIDER_MAP[3].provider != provider;
      assert ENV_PROVIDER_MAP[4].provider != provider && ENV_PROVIDER_MAP[5].provider != provider;
      assert ENV_PROVIDER_MAP[6].provider != provider && ENV_PROVIDER_MAP[7].provider != provider;
      OtherProvider(provider);
    }
  }

  lemma {:induction false} FirstNames()
    ensures forall i | 0 <= i < 4 :: NamesFor(ENV_PROVIDER_MAP[i].provider) == ENV_PROVIDER_MAP[i].names
  {
    assert NamesFor("openrouter") == ["OPENROUTER_API_KEY"] && NamesFor("openai") == ["OPENAI_API_KEY"];
    assert NamesFor("gemini") == ["GEMINI_API_KEY"] && NamesFor("vertex_ai") == ["GOOGLE_CLOUD_API_KEY"];
  }

  lemma {:induction false} LastNames()
    ensures forall i | 4 <= i < 8 :: NamesFor(ENV_PROVIDER_MAP[i].provider) == ENV_PROVIDER_MAP[i].names
  {
    assert NamesFor("groq") == ["GROQ_CLOUD_API_KEY", "GROQ_API_KEY"];
    assert NamesFor("nvidia_nim") == ["NVIDIA_BUILD_API_KEY", "NVIDIA_NIM_API_KEY"];
    assert NamesFor("deepseek") == ["DEEPSEEK_API_KEY"];
    assert NamesFor("huggingface") == ["HF_TOKEN", "HUGGINGFACE_API_KEY"];
  }

  lemma {:induction false} OtherProvider(provider: string)
    requires provider !in {"openrouter", "openai", "gemini", "vertex_ai", "groq", "nvidia_nim", "deepseek", "huggingface"}
    ensures NamesFor(provider) == []
  {
  }

  /** The operator's key after a seed: the first set variable of the provider, stripped, with its tail;
      without a set variable the key there was, and every other account's key as it was. */
  lemma {:induction false} OperatorKeys(d: Data, env: Environment, newId: A.UserId, salt: nat, iv: nat, owner: A.UserId, provider: string, k: nat)
    requires UniqueKeys(d.credentials)
    requires k <= |NamesFor(provider)| && forall i | 0 <= i < k :: !IsSet(env, NamesFor(provider)[i])
    requires k < |NamesFor(provider)| ==> IsSet(env, NamesFor(provider)[k])
    ensures
      var operator := WithOperator(d.users, env, newId, salt).1;
      KeyOf(Seeded(d, env, newId, salt, iv).credentials, owner, provider) ==
      if owner == operator && k < |NamesFor(provider)|
      then var key := Strip(env[NamesFor(provider)[k]]);
           Some((key, if |key| < 4 then key else key[|key| - 4..]))
      else KeyOf(d.credentials, owner, provider)
  {
    SeedSpec(d, env, newId, salt, iv, owner, provider);
    SetForIs(env, provider);
    FirstSetIs(env, NamesFor(provider), k);
  }

  /** The operator's account: the one of the seed's address, untouched; else a new one with the seed's
      password. */
  lemma {:induction false} OperatorAccount(users: seq<A.User>, env: Environment, newId: A.UserId, salt: nat)
    requires A.UniqueRows(users)
    ensures
      var (after, id) := WithOperator(users, env, newId, salt);
      var address := A.NormalizeEmail(if "TVASHTR_SEED_EMAIL" in env then env["TVASHTR_SEED_EMAIL"] else "operator@tvashtr.local");
      var password := if "TVASHTR_SEED_PASSWORD" in env then env["TVASHTR_SEED_PASSWORD"] else "tvashtr-dev";
      && (forall u | u in users && u.email == address :: after == users && id == u.id)
      && ((forall u | u in users :: u.email != address) ==>
            && id == newId && |after| == |users| + 1 && after[..|users|] == users
            && after[|users|].id == newId && after[|users|].email == address
            && after[|users|].credential == A.Hashed(password, salt) && after[|users|].githubId == None)
  {
    A.ByEmailSpec(users, SeedEmail(env));
    if A.ByEmail(users, SeedEmail(env)).Some? {
      A.OnlyRow(users, A.ByEmail(users, SeedEmail(env)).value);
    }
  }

  /** What is reported: whether an account was made, how many sources were set, and how many rows the
      backfill changed. */
  lemma {:induction false} ReportIsTrue(d: Data, env: Environment, newId: A.UserId, salt: nat, iv: nat)
    ensures
      var report := ReportOf(d, env, ENV_PROVIDER_MAP);
      var after := Seeded(d, env, newId, salt, iv);
      && (report.created <==> |after.users| == |d.users| + 1)
      && (!report.created <==> after.users == d.users)
      && report.imported == |SourcesSet(env, ENV_PROVIDER_MAP)|
      && |after.runs| == |d.runs| && report.runs == Differences(d.runs, after.runs)
      && |after.graphs| == |d.graphs| && report.teams == Differences(d.graphs, after.graphs)
  {
    var operator := WithOperator(d.users, env, newId, salt).1;
    ImportedCount(env, ENV_PROVIDER_MAP);
    BackfillCounts(d.runs, d.graphs, operator);
  }
}
