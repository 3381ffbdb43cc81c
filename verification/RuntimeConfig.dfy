/** Runtime settings on top of the environment (config/runtime_config.py, config/env_loader.py):
    flat patches saved by the UI are nested, merged into a configuration tree, and settled.
    The engine merges every patch onto its already merged configuration; the API merges only
    the newest onto the environment. Both are compared here. */
module RuntimeConfig {
  import opened Domain

  datatype Value = Text(text: string) | Number(number: real) | Flag(on: bool) | Null

  datatype Json = Leaf(value: Value) | Dict(entries: Tree)

  /** A nested dictionary; the engine's configuration is one. Timeframes are numbers of seconds. */
  type Tree = map<string, Json>

  type Patch = map<string, Value>

  // ---------------------------------------------------------------- deep merge

  function Overlay(base: Tree, patch: Tree, k: string): Json
    requires k in patch
    decreases Dict(patch), 0
  {
    if k in base && base[k].Dict? && patch[k].Dict? then Dict(DeepMerge(base[k].entries, patch[k].entries)) else patch[k]
  }

  function DeepMerge(base: Tree, patch: Tree): Tree
    decreases Dict(patch), 1
  {
    map k | k in base.Keys + patch.Keys :: if k in patch then Overlay(base, patch, k) else base[k]
  }

  lemma MergedPointwise(base: Tree, patch: Tree, merged: Tree)
    requires merged.Keys == base.Keys + patch.Keys
    requires forall k :: k in merged ==> merged[k] == if k in patch then Overlay(base, patch, k) else base[k]
    ensures merged == DeepMerge(base, patch)
  {
    hide Overlay;
  }

  method Merge(base: Tree, patch: Tree) returns (merged: Tree)
    ensures merged == DeepMerge(base, patch)
    decreases Dict(patch)
  {
    hide DeepMerge;
    merged := base;
    var rest := patch.Keys;
    while rest != {}
      invariant rest <= patch.Keys
      invariant merged.Keys == base.Keys + (patch.Keys - rest)
      invariant forall k :: k in merged ==>
                  merged[k] == if k in patch && k !in rest then Overlay(base, patch, k) else base[k]
      decreases rest
    {
      var k :| k in rest;
      if k in merged && merged[k].Dict? && patch[k].Dict? {
        assert patch[k] < Dict(patch);
        var sub := Merge(merged[k].entries, patch[k].entries);
        merged := merged[k := Dict(sub)];
      } else {
        merged := merged[k := patch[k]];
      }
      rest := rest - {k};
    }
    MergedPointwise(base, patch, merged);
  }

  /** Everything the first patch sets, the second sets too, subtree for subtree. */
  predicate Covered(first: Tree, second: Tree)
    decreases Dict(first)
  {
    forall k :: k in first ==>
      && k in second
      && (second[k].Dict? ==> first[k].Dict? && Covered(first[k].entries, second[k].entries))
  }

  lemma {:induction false} CoveredMerge(first: Tree, second: Tree)
    requires Covered(first, second)
    ensures DeepMerge(first, second) == second
    decreases Dict(second)
  {
    forall k | k in second
      ensures Overlay(first, second, k) == second[k]
    {
      if k in first && first[k].Dict? && second[k].Dict? {
        CoveredMerge(first[k].entries, second[k].entries);
      }
    }
  }

  /** A patch that covers an earlier one erases it, at every depth. */
  lemma {:induction false} MergeAbsorbs(base: Tree, first: Tree, second: Tree)
    requires Covered(first, second)
    ensures DeepMerge(DeepMerge(base, first), second) == DeepMerge(base, second)
    decreases Dict(second)
  {
    var once := DeepMerge(base, first);
    forall k | k in second
      ensures Overlay(once, second, k) == Overlay(base, second, k)
    {
      if k !in first {
        assert k in once <==> k in base;
      } else if second[k].Dict? {
        assert first[k].Dict?;
        assert once[k] == Overlay(base, first, k);
        if k in base && base[k].Dict? {
          MergeAbsorbs(base[k].entries, first[k].entries, second[k].entries);
        } else {
          CoveredMerge(first[k].entries, second[k].entries);
        }
      }
    }
    assert forall k :: k in once && k !in second ==> k in base && once[k] == base[k];
    assert DeepMerge(once, second).Keys == DeepMerge(base, second).Keys;
  }

  // ---------------------------------------------------------------- from a flat patch to a nested one

  /** Nested name to patch key, section by section. */
  type Table = map<string, string>

  const SCALARS: set<string> := {"risk_enabled", "flatten_on_shutdown", "predictor_type"}
  const SECTIONS: set<string> := {"run_context", "market_data", "exchange", "trade_rules", "sizing", "risk",
                                  "signal_policy", "autopilot"}

  function TableOf(section: string): Table {
    match section
    case "run_context" => map[
      "run_id" := "run_id", "strategy_id" := "strategy_id", "model_version" := "model_version",
      "feature_set_version" := "feature_set_version"]
    case "market_data" => map[
      "symbol" := "symbol", "poll_interval_seconds" := "poll_interval_seconds"]
    case "exchange" => map[
      "leverage" := "leverage", "margin_type" := "margin_type", "position_side_mode" := "position_side_mode",
      "oco_enabled" := "oco_enabled"]
    case "trade_rules" => map[
      "tp_pct" := "trade_tp_pct", "sl_pct" := "trade_sl_pct"]
    case "sizing" => map[
      "risk_per_trade_pct" := "sizing_risk_per_trade_pct",
      "max_position_notional_pct" := "sizing_max_position_notional_pct",
      "min_order_notional_usdt" := "sizing_min_order_notional_usdt", "max_leverage" := "sizing_max_leverage"]
    case "risk" => map[
      "max_position_notional_pct" := "risk_max_position_notional_pct",
      "daily_loss_limit_pct" := "risk_daily_loss_limit_pct",
      "duplicate_order_window_seconds" := "risk_duplicate_order_window_seconds",
      "min_hold_seconds_before_signal_exit" := "risk_min_hold_seconds_before_signal_exit",
      "max_consecutive_losses" := "risk_max_consecutive_losses",
      "consecutive_loss_pause_minutes" := "risk_consecutive_loss_pause_minutes"]
    case "signal_policy" => map[
      "mode" := "signal_mode", "consecutive_required" := "signal_consecutive_required"]
    case "autopilot" => map[
      "enabled" := "autopilot_enabled", "score_percentile" := "autopilot_score_percentile",
      "score_k" := "autopilot_score_k", "base_tp_atr_mult" := "autopilot_base_tp_atr_mult",
      "base_sl_atr_mult" := "autopilot_base_sl_atr_mult",
      "base_consecutive_required" := "autopilot_base_consecutive_required",
      "atr_period" := "autopilot_atr_period", "vol_lookback" := "autopilot_vol_lookback",
      "high_vol_position_scale" := "autopilot_high_vol_position_scale",
      "high_vol_consecutive_delta" := "autopilot_high_vol_consecutive_delta",
      "high_vol_threshold_mult" := "autopilot_high_vol_threshold_mult"]
    case "timesfm" => map[
      "timeframe" := "timesfm_timeframe", "forecast_mode" := "timesfm_forecast_mode",
      "horizon" := "timesfm_horizon", "signal_threshold" := "timesfm_signal_threshold",
      "exit_signal_threshold" := "timesfm_exit_signal_threshold",
      "exit_threshold_mult" := "timesfm_exit_threshold_mult",
      "timeframe_threshold_scale" := "timesfm_timeframe_threshold_scale",
      "predict_on_candle_close" := "timesfm_predict_on_candle_close", "fee_rate" := "timesfm_fee_rate",
      "slippage_rate" := "timesfm_slippage_rate", "safety_margin" := "timesfm_safety_margin"]
    case "fincast" => map[
      "timeframe" := "fincast_timeframe", "checkpoint_path" := "fincast_checkpoint_path",
      "repo_path" := "fincast_repo_path", "backend" := "fincast_backend",
      "forecast_mode" := "fincast_forecast_mode", "horizon" := "fincast_horizon",
      "signal_threshold" := "fincast_signal_threshold",
      "exit_signal_threshold" := "fincast_exit_signal_threshold",
      "exit_threshold_mult" := "fincast_exit_threshold_mult",
      "timeframe_threshold_scale" := "fincast_timeframe_threshold_scale",
      "predict_on_candle_close" := "fincast_predict_on_candle_close", "fee_rate" := "fincast_fee_rate",
      "slippage_rate" := "fincast_slippage_rate", "safety_margin" := "fincast_safety_margin"]
    case _ => map[]
  }

  /** Every key a patch may hold (RUNTIME_PARAM_KEYS, the fields of RuntimeConfigParams). */
  function ParamKeys(): set<string> {
    SCALARS + set section, n | section in SECTIONS + {"timesfm", "fincast"} && n in TableOf(section) :: TableOf(section)[n]
  }

  function Pick(p: Patch, t: Table): Tree {
    map n | n in t && t[n] in p :: Leaf(p[t[n]])
  }

  /** Only the predictor sections the patch touches. */
  function PickPredictors(p: Patch): Tree {
    map n | n in {"timesfm", "fincast"} && Pick(p, TableOf(n)) != map[] :: Dict(Pick(p, TableOf(n)))
  }

  function Part(p: Patch, name: string): Option<Json> {
    if name in SCALARS then if name in p then Some(Leaf(p[name])) else None
    else
      var t := if name == "predictor_config" then PickPredictors(p) else Pick(p, TableOf(name));
      if t == map[] then None else Some(Dict(t))
  }

  const PLACES: set<string> := SCALARS + SECTIONS + {"predictor_config"}

  function Nested(p: Patch): Tree {
    map n | n in PLACES && Part(p, n).Some? :: Part(p, n).value
  }

  method PickSection(p: Patch, t: Table) returns (section: Tree)
    ensures section == Pick(p, t)
  {
    section := map[];
    var rest := t.Keys;
    while rest != {}
      invariant rest <= t.Keys
      invariant section == map n | n in t && n !in rest && t[n] in p :: Leaf(p[t[n]])
      decreases rest
    {
      var n :| n in rest;
      if t[n] in p {
        section := section[n := Leaf(p[t[n]])];
      }
      rest := rest - {n};
    }
  }

  lemma SectionPart(p: Patch, name: string)
    requires name in SECTIONS
    ensures Part(p, name) == if Pick(p, TableOf(name)) == map[] then None else Some(Dict(Pick(p, TableOf(name))))
  {
    hide TableOf, Pick;
  }

  lemma OtherParts(p: Patch)
    ensures Part(p, "predictor_config") == if PickPredictors(p) == map[] then None else Some(Dict(PickPredictors(p)))
    ensures forall k :: k in SCALARS ==> Part(p, k) == if k in p then Some(Leaf(p[k])) else None
  {
    hide TableOf, PickPredictors;
  }

  lemma NestedPointwise(p: Patch, nested: Tree)
    requires nested.Keys <= PLACES
    requires forall n :: n in PLACES ==> Part(p, n) == if n in nested then Some(nested[n]) else None
    ensures nested == Nested(p)
  {
    hide Part;
  }

  method PickAllSections(p: Patch) returns (nested: Tree)
    ensures nested.Keys <= SECTIONS
    ensures forall n :: n in SECTIONS ==> Part(p, n) == if n in nested then Some(nested[n]) else None
  {
    hide TableOf, Pick, Part;
    nested := map[];
    var rest := SECTIONS;
    while rest != {}
      invariant rest <= SECTIONS && nested.Keys <= SECTIONS - rest
      invariant forall n :: n in SECTIONS - rest ==> Part(p, n) == if n in nested then Some(nested[n]) else None
      decreases rest
    {
      var name :| name in rest;
      var section := PickSection(p, TableOf(name));
      SectionPart(p, name);
      if section != map[] {
        nested := nested[name := Dict(section)];
      }
      rest := rest - {name};
    }
  }

  method PickBothPredictors(p: Patch) returns (predictors: Tree)
    ensures predictors == PickPredictors(p)
  {
    hide TableOf, Pick;
    predictors := map[];
    var timesfm := PickSection(p, TableOf("timesfm"));
    if timesfm != map[] {
      predictors := predictors["timesfm" := Dict(timesfm)];
    }
    var fincast := PickSection(p, TableOf("fincast"));
    if fincast != map[] {
      predictors := predictors["fincast" := Dict(fincast)];
    }
  }

  method RuntimePatchToNested(p: Patch) returns (nested: Tree)
    ensures nested == Nested(p)
  {
    hide Part, PickPredictors, Nested;
    nested := PickAllSections(p);
    var predictors := PickBothPredictors(p);
    OtherParts(p);
    if predictors != map[] {
      nested := nested["predictor_config" := Dict(predictors)];
    }
    if "risk_enabled" in p {
      nested := nested["risk_enabled" := Leaf(p["risk_enabled"])];
    }
    if "flatten_on_shutdown" in p {
      nested := nested["flatten_on_shutdown" := Leaf(p["flatten_on_shutdown"])];
    }
    if "predictor_type" in p {
      nested := nested["predictor_type" := Leaf(p["predictor_type"])];
    }
    NestedPointwise(p, nested);
  }

  lemma PredictorsCover(first: Patch, second: Patch)
    requires first.Keys <= second.Keys
    ensures Covered(PickPredictors(first), PickPredictors(second))
  {
    hide TableOf, Pick;
    PicksCover(first, second, TableOf("timesfm"));
    PicksCover(first, second, TableOf("fincast"));
  }

  lemma PartCovers(first: Patch, second: Patch, n: string)
    requires first.Keys <= second.Keys && Part(first, n).Some?
    ensures var a, b := Part(first, n), Part(second, n);
            b.Some? && (b.value.Dict? ==> a.value.Dict? && Covered(a.value.entries, b.value.entries))
  {
    hide TableOf, Pick;
    if n == "predictor_config" {
      PredictorsCover(first, second);
    } else if n !in SCALARS {
      PicksCover(first, second, TableOf(n));
    }
  }

  lemma NestedCovers(first: Patch, second: Patch)
    requires first.Keys <= second.Keys
    ensures Covered(Nested(first), Nested(second))
  {
    hide Part;
    forall n | n in Nested(first)
      ensures n in Nested(second)
      ensures Nested(second)[n].Dict? ==>
                Nested(first)[n].Dict? && Covered(Nested(first)[n].entries, Nested(second)[n].entries)
    {
      PartCovers(first, second, n);
    }
  }

  lemma PicksCover(first: Patch, second: Patch, t: Table)
    requires first.Keys <= second.Keys
    ensures Covered(Pick(first, t), Pick(second, t))
    ensures Pick(first, t) != map[] ==> Pick(second, t) != map[]
  {
    if Pick(first, t) != map[] {
      var n :| n in Pick(first, t);
      assert n in Pick(second, t);
    }
  }

  // ---------------------------------------------------------------- identity presets

  /** The labels a predictor brings with it, whatever the patch said about them. */
  function IdentityOf(predictor: string): Patch {
    match predictor
    case "timesfm" => map["run_id" := Text("prod_timesfm_run"), "strategy_id" := Text("timesfm_passthrough"),
                          "model_version" := Text("timesfm-2.5-200m"), "feature_set_version" := Text("price-history-v1")]
    case "fincast" => map["run_id" := Text("prod_fincast_run"), "strategy_id" := Text("fincast_passthrough"),
                          "model_version" := Text("fincast-1b"), "feature_set_version" := Text("price-history-v1")]
    case _ => map[]
  }

  /** Choosing a predictor names the session and the strategy after it, whatever the patch says. */
  lemma IdentityNames(p: Patch, predictor: string)
    requires "predictor_type" in p && p["predictor_type"] == Text(predictor) && predictor in {"timesfm", "fincast"}
    ensures var labelled := WithIdentity(p);
            && "run_id" in labelled && labelled["run_id"] == Text("prod_" + predictor + "_run")
            && "strategy_id" in labelled && labelled["strategy_id"] == Text(predictor + "_passthrough")
            && forall k :: k in p && k !in IDENTITY_KEYS ==> k in labelled && labelled[k] == p[k]
  {
    SessionNames();
    StrategyNames();
  }

  lemma SessionNames()
    ensures "prod_" + "timesfm" + "_run" == "prod_timesfm_run" && "prod_" + "fincast" + "_run" == "prod_fincast_run"
  {
  }

  lemma StrategyNames()
    ensures "timesfm" + "_passthrough" == "timesfm_passthrough" && "fincast" + "_passthrough" == "fincast_passthrough"
  {
  }

  function WithIdentity(p: Patch): Patch {
    if "predictor_type" in p && p["predictor_type"].Text? then p + IdentityOf(p["predictor_type"].text) else p
  }

  const IDENTITY_KEYS: set<string> := {"run_id", "strategy_id", "model_version", "feature_set_version"}

  lemma IdentityKeysKnown(p: Patch)
    ensures WithIdentity(p).Keys <= p.Keys + IDENTITY_KEYS && IDENTITY_KEYS <= ParamKeys()
  {
    forall k | k in IDENTITY_KEYS
      ensures k in ParamKeys()
    {
      assert "run_context" in SECTIONS && k in TableOf("run_context") && TableOf("run_context")[k] == k;
    }
  }

  /** What save_config stores: the previous patch, restricted to known keys, overlaid by the request. */
  function SavedPatch(previous: Patch, request: Patch): Patch {
    WithIdentity((map k | k in previous && k in ParamKeys() :: previous[k]) + request)
  }

  /** Saving never loses a key and always leaves a patch its own identity defaults do not change. */
  lemma SavedPatchesGrow(previous: Patch, request: Patch)
    requires previous.Keys <= ParamKeys() && request.Keys <= ParamKeys()
    ensures var saved := SavedPatch(previous, request);
            && previous.Keys + request.Keys <= saved.Keys <= ParamKeys()
            && WithIdentity(saved) == saved
            && (forall k :: k in request && k !in IDENTITY_KEYS ==> saved[k] == request[k])
            && (forall k :: k in previous && k !in request && k !in IDENTITY_KEYS ==> saved[k] == previous[k])
  {
    hide ParamKeys;
    IdentityKeysKnown((map k | k in previous && k in ParamKeys() :: previous[k]) + request);
  }

  // ---------------------------------------------------------------- settling a merged tree

  const TIMESFM_DEFAULTS: Tree := map[
    "model_id" := Leaf(Text("google/timesfm-2.5-200m-pytorch")), "context_length" := Leaf(Number(128.0)),
    "min_context" := Leaf(Number(64.0)), "horizon" := Leaf(Number(3.0)), "forecast_mode" := Leaf(Text("average")),
    "forecast_index" := Leaf(Number(-1.0)), "use_ohlcv_history" := Leaf(Flag(true)), "timeframe" := Leaf(Number(60.0)),
    "fee_rate" := Leaf(Number(0.0004)), "slippage_rate" := Leaf(Number(0.0005)), "safety_margin" := Leaf(Number(0.001)),
    "signal_threshold" := Leaf(Null), "exit_signal_threshold" := Leaf(Null), "exit_threshold_mult" := Leaf(Number(0.85)),
    "timeframe_threshold_scale" := Leaf(Flag(true)), "ref_timeframe" := Leaf(Number(60.0)), "ref_horizon" := Leaf(Number(3.0)),
    "min_threshold_fee_ratio" := Leaf(Number(0.25)), "predict_on_candle_close" := Leaf(Flag(true)),
    "append_live_price_to_history" := Leaf(Flag(false)), "model_version" := Leaf(Text("timesfm-2.5-200m")),
    "feature_set_version" := Leaf(Text("price-history-v1"))]

  const FINCAST_DEFAULTS: Tree := map[
    "checkpoint_path" := Leaf(Text("")), "repo_path" := Leaf(Text("")), "backend" := Leaf(Text("gpu")),
    "freq" := Leaf(Number(0.0)), "point_forecast_mode" := Leaf(Text("mean")), "num_experts" := Leaf(Number(4.0)),
    "gating_top_n" := Leaf(Number(2.0)), "load_from_compile" := Leaf(Flag(true)), "normalize_inputs" := Leaf(Flag(true)),
    "context_length" := Leaf(Number(128.0)), "min_context" := Leaf(Number(64.0)), "horizon" := Leaf(Number(3.0)),
    "forecast_mode" := Leaf(Text("average")), "forecast_index" := Leaf(Number(-1.0)), "use_ohlcv_history" := Leaf(Flag(true)),
    "timeframe" := Leaf(Number(60.0)), "fee_rate" := Leaf(Number(0.0004)), "slippage_rate" := Leaf(Number(0.0005)),
    "safety_margin" := Leaf(Number(0.001)), "signal_threshold" := Leaf(Null), "exit_signal_threshold" := Leaf(Null),
    "exit_threshold_mult" := Leaf(Number(0.85)), "timeframe_threshold_scale" := Leaf(Flag(true)),
    "ref_timeframe" := Leaf(Number(60.0)), "ref_horizon" := Leaf(Number(3.0)), "min_threshold_fee_ratio" := Leaf(Number(0.25)),
    "predict_on_candle_close" := Leaf(Flag(true)), "append_live_price_to_history" := Leaf(Flag(false)),
    "model_version" := Leaf(Text("fincast-1b")), "feature_set_version" := Leaf(Text("price-history-v1"))]

  function DefaultsOf(predictor: string): Tree {
    if predictor == "timesfm" then TIMESFM_DEFAULTS else FINCAST_DEFAULTS
  }

  function Entries(t: Tree, name: string): Tree {
    if name in t && t[name].Dict? then t[name].entries else map[]
  }

  /** An empty section stays absent; any other is completed with the defaults. */
  function Fill(section: Tree, defaults: Tree): Tree {
    if section == map[] then map[] else defaults + section
  }

  function Predictor(t: Tree, predictor: string): Tree {
    Entries(Entries(t, "predictor_config"), predictor)
  }

  /** EngineConfig.from_dict on a merged tree: the other sections come complete from the engine's own configuration. */
  function FromDict(t: Tree): Tree {
    t["predictor_config" := Dict(map["timesfm" := Dict(Fill(Predictor(t, "timesfm"), DefaultsOf("timesfm"))),
                                     "fincast" := Dict(Fill(Predictor(t, "fincast"), DefaultsOf("fincast")))])]
  }

  const POLL: string := "poll_interval_seconds"
  const DEFAULT_POLL: real := 5.0
  const DEFAULT_TIMEFRAME: real := 60.0

  function NumberAt(t: Tree, name: string, default_: real): real {
    if name in t && t[name].Leaf? && t[name].value.Number? then t[name].value.number else default_
  }

  function PollSeconds(t: Tree): real {
    NumberAt(Entries(t, "market_data"), POLL, DEFAULT_POLL)
  }

  /** Seconds in one candle of the active predictor, when poll alignment is on and a predictor has one. */
  function PollFloor(align: bool, t: Tree): Option<real> {
    var active := if "predictor_type" in t && t["predictor_type"] == Leaf(Text("fincast")) then Predictor(t, "fincast")
                  else if "predictor_type" in t && t["predictor_type"] == Leaf(Text("timesfm")) then Predictor(t, "timesfm")
                  else map[];
    if !align || active == map[] then None else Some(NumberAt(active, "timeframe", DEFAULT_TIMEFRAME))
  }

  function WithPoll(t: Tree, seconds: real): Tree {
    t["market_data" := Dict(Entries(t, "market_data")[POLL := Leaf(Number(seconds))])]
  }

  function AlignPoll(align: bool, t: Tree): Tree {
    var floor := PollFloor(align, t);
    if floor.Some? && PollSeconds(t) < floor.value then WithPoll(t, floor.value) else t
  }

  function Settle(base: Tree, p: Patch): Tree {
    FromDict(DeepMerge(base, Nested(WithIdentity(p))))
  }

  function MergeRuntime(align: bool, base: Tree, p: Patch): Tree {
    AlignPoll(align, Settle(base, p))
  }

  method MergeRuntimeConfig(align: bool, base: Tree, p: Patch) returns (cfg: Tree)
    ensures cfg == MergeRuntime(align, base, p)
  {
    var nested := RuntimePatchToNested(WithIdentity(p));
    var merged := Merge(base, nested);
    cfg := AlignPoll(align, FromDict(merged));
  }

  /** The configuration apart from the poll interval. */
  function WithoutPoll(t: Tree): Tree {
    t["market_data" := Dict(Entries(t, "market_data") - {POLL})]
  }

  predicate AgreeButPoll(a: Tree, b: Tree) {
    WithoutPoll(a) == WithoutPoll(b)
  }
}
