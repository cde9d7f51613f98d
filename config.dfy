/** `shared/config.py`: the settings read from the environment, the start-up check of the
    required settings, and the default policy constants. */
module Config {
  import opened Wrappers
  import opened Text

  /** The settings `validate_config` can see, as read by the `from_env` constructors. */
  datatype Settings = Settings(
    eventgridEndpoint: string, eventgridKey: string,
    workspaceId: string, lakehouseId: string, warehouseServer: string, warehouseDatabase: string,
    foundryEndpoint: string, foundryApiKey: string)

  /** `os.getenv(name, default)` over an environment given as a map. */
  function GetEnv(env: map<string, string>, name: string, default: string): (v: string)
    ensures name in env ==> v == env[name]
    ensures name !in env ==> v == default
  {
    if name in env then env[name] else default
  }

  /** The `from_env` constructors of the Event Grid, Fabric and Foundry configurations. */
  function FromEnv(env: map<string, string>): (s: Settings)
    ensures "EVENTGRID_TOPIC_ENDPOINT" !in env ==> s.eventgridEndpoint == ""
    ensures "FABRIC_DATABASE" !in env ==> s.warehouseDatabase == "parametric_insurance_warehouse"
  {
    Settings(
      GetEnv(env, "EVENTGRID_TOPIC_ENDPOINT", ""), GetEnv(env, "EVENTGRID_KEY", ""),
      GetEnv(env, "FABRIC_WORKSPACE_ID", ""), GetEnv(env, "FABRIC_LAKEHOUSE_ID", ""),
      GetEnv(env, "FABRIC_WAREHOUSE_SERVER", ""),
      GetEnv(env, "FABRIC_DATABASE", "parametric_insurance_warehouse"),
      GetEnv(env, "FOUNDRY_ENDPOINT", ""), GetEnv(env, "FOUNDRY_API_KEY", ""))
  }

  /** The six required settings in checking order, each with the message reported when it
      is empty. */
  function Required(cfg: Settings): seq<(string, string)> {
    [ ("EVENTGRID_TOPIC_ENDPOINT not set", cfg.eventgridEndpoint), ("EVENTGRID_KEY not set", cfg.eventgridKey),
      ("FABRIC_WORKSPACE_ID not set", cfg.workspaceId), ("FABRIC_WAREHOUSE_SERVER not set", cfg.warehouseServer),
      ("FOUNDRY_ENDPOINT not set", cfg.foundryEndpoint), ("FOUNDRY_API_KEY not set", cfg.foundryApiKey) ]
  }

  /** The message of every empty entry, in the order of the entries. */
  function MissingMessages(checks: seq<(string, string)>): (msgs: seq<string>)
    ensures |msgs| <= |checks|
    ensures msgs == [] <==> forall i :: 0 <= i < |checks| ==> checks[i].1 != ""
  {
    if checks == [] then []
    else IfEmpty(checks[0].1, checks[0].0) + MissingMessages(checks[1..])
  }

  /** The messages `validate_config` collects for `cfg`. */
  function Errors(cfg: Settings): seq<string> {
    MissingMessages(Required(cfg))
  }

  /** `validate_config()`: `Ok(true)` when every required setting is present, otherwise the
      `ValueError` it raises. */
  method ValidateConfig(cfg: Settings) returns (r: Result<bool>)
    ensures Errors(cfg) == [] ==> r == Ok(true)
    ensures Errors(cfg) != [] ==> r == Err("Configuration errors: " + Join(Errors(cfg), ", "))
  {
    var errors: seq<string> := [];
    if cfg.eventgridEndpoint == "" {
      errors := errors + ["EVENTGRID_TOPIC_ENDPOINT not set"];
    }
    assert errors == IfEmpty(cfg.eventgridEndpoint, "EVENTGRID_TOPIC_ENDPOINT not set");
    if cfg.eventgridKey == "" {
      errors := errors + ["EVENTGRID_KEY not set"];
    }
    assert errors == IfEmpty(cfg.eventgridEndpoint, "EVENTGRID_TOPIC_ENDPOINT not set") + IfEmpty(cfg.eventgridKey, "EVENTGRID_KEY not set");
    if cfg.workspaceId == "" {
      errors := errors + ["FABRIC_WORKSPACE_ID not set"];
    }
    assert errors == IfEmpty(cfg.eventgridEndpoint, "EVENTGRID_TOPIC_ENDPOINT not set") + IfEmpty(cfg.eventgridKey, "EVENTGRID_KEY not set") + IfEmpty(cfg.workspaceId, "FABRIC_WORKSPACE_ID not set");
    if cfg.warehouseServer == "" {
      errors := errors + ["FABRIC_WAREHOUSE_SERVER not set"];
    }
    assert errors == IfEmpty(cfg.eventgridEndpoint, "EVENTGRID_TOPIC_ENDPOINT not set") + IfEmpty(cfg.eventgridKey, "EVENTGRID_KEY not set") + IfEmpty(cfg.workspaceId, "FABRIC_WORKSPACE_ID not set") + IfEmpty(cfg.warehouseServer, "FABRIC_WAREHOUSE_SERVER not set");
    if cfg.foundryEndpoint == "" {
      errors := errors + ["FOUNDRY_ENDPOINT not set"];
    }
    assert errors == IfEmpty(cfg.eventgridEndpoint, "EVENTGRID_TOPIC_ENDPOINT not set") + IfEmpty(cfg.eventgridKey, "EVENTGRID_KEY not set") + IfEmpty(cfg.workspaceId, "FABRIC_WORKSPACE_ID not set") + IfEmpty(cfg.warehouseServer, "FABRIC_WAREHOUSE_SERVER not set") + IfEmpty(cfg.foundryEndpoint, "FOUNDRY_ENDPOINT not set");
    if cfg.foundryApiKey == "" {
      errors := errors + ["FOUNDRY_API_KEY not set"];
    }
    assert errors == IfEmpty(cfg.eventgridEndpoint, "EVENTGRID_TOPIC_ENDPOINT not set") + IfEmpty(cfg.eventgridKey, "EVENTGRID_KEY not set") + IfEmpty(cfg.workspaceId, "FABRIC_WORKSPACE_ID not set") + IfEmpty(cfg.warehouseServer, "FABRIC_WAREHOUSE_SERVER not set") + IfEmpty(cfg.foundryEndpoint, "FOUNDRY_ENDPOINT not set") + IfEmpty(cfg.foundryApiKey, "FOUNDRY_API_KEY not set");
    ErrorsUnfold(cfg);
    if errors != [] {
      return Err("Configuration errors: " + Join(errors, ", "));
    }
    return Ok(true);
  }

  function IfEmpty(value: string, msg: string): seq<string> {
    if value == "" then [msg] else []
  }

  /** The messages of six entries, one entry at a time. */
  lemma {:induction false} MissingMessagesOfSix(a: (string, string), b: (string, string), c: (string, string),
                                                 d: (string, string), e: (string, string), f: (string, string))
    ensures MissingMessages([a, b, c, d, e, f]) ==
      IfEmpty(a.1, a.0) + IfEmpty(b.1, b.0) + IfEmpty(c.1, c.0) + IfEmpty(d.1, d.0) + IfEmpty(e.1, e.0) + IfEmpty(f.1, f.0)
  {
    var ma, mb, mc, md, me, mf := IfEmpty(a.1, a.0), IfEmpty(b.1, b.0), IfEmpty(c.1, c.0), IfEmpty(d.1, d.0), IfEmpty(e.1, e.0), IfEmpty(f.1, f.0);
    var xs := [a, b, c, d, e, f];
    assert MissingMessages(xs[5..]) == IfEmpty(f.1, f.0) by {
      assert xs[5..][1..] == [];
    }
    assert MissingMessages(xs[4..]) == IfEmpty(e.1, e.0) + MissingMessages(xs[5..]) by {
      assert xs[4..][1..] == xs[5..];
    }
    assert MissingMessages(xs[3..]) == IfEmpty(d.1, d.0) + MissingMessages(xs[4..]) by {
      assert xs[3..][1..] == xs[4..];
    }
    assert MissingMessages(xs[2..]) == IfEmpty(c.1, c.0) + MissingMessages(xs[3..]) by {
      assert xs[2..][1..] == xs[3..];
    }
    assert MissingMessages(xs[1..]) == IfEmpty(b.1, b.0) + MissingMessages(xs[2..]) by {
      assert xs[1..][1..] == xs[2..];
    }
    AppendAssoc(ma, mb, mc + (md + (me + mf)));
    AppendAssoc(ma + mb, mc, md + (me + mf));
    AppendAssoc(ma + mb + mc, md, me + mf);
    AppendAssoc(ma + mb + mc + md, me, mf);
  }

  lemma ErrorsUnfold(cfg: Settings)
    ensures Errors(cfg) ==
      IfEmpty(cfg.eventgridEndpoint, "EVENTGRID_TOPIC_ENDPOINT not set")
      + IfEmpty(cfg.eventgridKey, "EVENTGRID_KEY not set")
      + IfEmpty(cfg.workspaceId, "FABRIC_WORKSPACE_ID not set")
      + IfEmpty(cfg.warehouseServer, "FABRIC_WAREHOUSE_SERVER not set")
      + IfEmpty(cfg.foundryEndpoint, "FOUNDRY_ENDPOINT not set")
      + IfEmpty(cfg.foundryApiKey, "FOUNDRY_API_KEY not set")
  {
    var c := Required(cfg);
    MissingMessagesOfSix(c[0], c[1], c[2], c[3], c[4], c[5]);
    assert c == [c[0], c[1], c[2], c[3], c[4], c[5]];
  }

  /** The check passes exactly when all six required settings are non-empty. */
  lemma ValidIffComplete(cfg: Settings)
    ensures Errors(cfg) == [] <==>
      cfg.eventgridEndpoint != "" && cfg.eventgridKey != "" && cfg.workspaceId != ""
      && cfg.warehouseServer != "" && cfg.foundryEndpoint != "" && cfg.foundryApiKey != ""
  {
    var c := Required(cfg);
    assert c[0].1 == cfg.eventgridEndpoint && c[1].1 == cfg.eventgridKey && c[2].1 == cfg.workspaceId;
    assert c[3].1 == cfg.warehouseServer && c[4].1 == cfg.foundryEndpoint && c[5].1 == cfg.foundryApiKey;
  }

  /** Each missing setting adds exactly one message; with every setting empty the messages
      come in the fixed order of the checks. */
  lemma AllMissingOrder(cfg: Settings)
    requires cfg.eventgridEndpoint == "" && cfg.eventgridKey == "" && cfg.workspaceId == ""
    requires cfg.warehouseServer == "" && cfg.foundryEndpoint == "" && cfg.foundryApiKey == ""
    ensures Errors(cfg) == ["EVENTGRID_TOPIC_ENDPOINT not set", "EVENTGRID_KEY not set",
      "FABRIC_WORKSPACE_ID not set", "FABRIC_WAREHOUSE_SERVER not set",
      "FOUNDRY_ENDPOINT not set", "FOUNDRY_API_KEY not set"]
  {
    ErrorsUnfold(cfg);
  }

  /** Only the lakehouse id and the warehouse database play no part in the check. */
  lemma UncheckedSettings(cfg: Settings, lakehouse: string, database: string)
    ensures Errors(cfg.(lakehouseId := lakehouse, warehouseDatabase := database)) == Errors(cfg)
  {
  }

  // ---- PolicyConfig ----

  const DefaultThresholdMinutes: int := 120
  const DefaultHourlyRate: real := 500.0
  const MaxPayoutPerClaim: real := 50000.0
  const SeverityMultipliers: map<string, real> :=
    map["low" := 1.0, "medium" := 1.2, "high" := 1.5, "severe" := 2.0]
  const MaxClaimsPerMonth: int := 5
  const MaxClaimsPerYear: int := 20

  /** The severity multipliers never decrease from "low" through "severe", and the monthly
      claim limit is within the yearly one. */
  lemma PolicyConstantsOrdered()
    ensures SeverityMultipliers.Keys == {"low", "medium", "high", "severe"}
    ensures SeverityMultipliers["low"] <= SeverityMultipliers["medium"]
      <= SeverityMultipliers["high"] <= SeverityMultipliers["severe"]
    ensures MaxClaimsPerMonth <= MaxClaimsPerYear
  {
  }
}
