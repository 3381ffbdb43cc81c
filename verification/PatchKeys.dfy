/** The naming of patch keys: every key is its section's prefix followed by the name it is nested under. */
module PatchKeys {
  import opened RuntimeConfig

  function Prefix(section: string): string {
    match section
    case "trade_rules" => "trade_"
    case "signal_policy" => "signal_"
    case "sizing" => "sizing_"
    case "risk" => "risk_"
    case "autopilot" => "autopilot_"
    case "timesfm" => "timesfm_"
    case "fincast" => "fincast_"
    case _ => ""
  }

  lemma TradeRulesKeys()
    ensures "trade_" + "tp_pct" == "trade_tp_pct"
    ensures "trade_" + "sl_pct" == "trade_sl_pct"
  {
  }

  lemma SizingKeys1()
    ensures "sizing_" + "risk_per_trade_pct" == "sizing_risk_per_trade_pct"
    ensures "sizing_" + "max_position_notional_pct" == "sizing_max_position_notional_pct"
  {
  }

  lemma SizingKeys2()
    ensures "sizing_" + "min_order_notional_usdt" == "sizing_min_order_notional_usdt"
    ensures "sizing_" + "max_leverage" == "sizing_max_leverage"
  {
  }

  lemma RiskKeys1()
    ensures "risk_" + "max_position_notional_pct" == "risk_max_position_notional_pct"
    ensures "risk_" + "daily_loss_limit_pct" == "risk_daily_loss_limit_pct"
  {
  }

  lemma RiskKeys2()
    ensures "risk_" + "duplicate_order_window_seconds" == "risk_duplicate_order_window_seconds"
  {
  }

  lemma RiskKeys3()
    ensures "risk_" + "min_hold_seconds_before_signal_exit" == "risk_min_hold_seconds_before_signal_exit"
  {
  }

  lemma RiskKeys4()
    ensures "risk_" + "max_consecutive_losses" == "risk_max_consecutive_losses"
    ensures "risk_" + "consecutive_loss_pause_minutes" == "risk_consecutive_loss_pause_minutes"
  {
  }

  lemma SignalPolicyKeys()
    ensures "signal_" + "mode" == "signal_mode"
    ensures "signal_" + "consecutive_required" == "signal_consecutive_required"
  {
  }

  lemma AutopilotKeys1()
    ensures "autopilot_" + "enabled" == "autopilot_enabled"
    ensures "autopilot_" + "score_percentile" == "autopilot_score_percentile"
    ensures "autopilot_" + "score_k" == "autopilot_score_k"
  {
  }

  lemma AutopilotKeys2()
    ensures "autopilot_" + "base_tp_atr_mult" == "autopilot_base_tp_atr_mult"
    ensures "autopilot_" + "base_sl_atr_mult" == "autopilot_base_sl_atr_mult"
  {
  }

  lemma AutopilotKeys3()
    ensures "autopilot_" + "base_consecutive_required" == "autopilot_base_consecutive_required"
    ensures "autopilot_" + "atr_period" == "autopilot_atr_period"
  {
  }

  lemma AutopilotKeys4()
    ensures "autopilot_" + "vol_lookback" == "autopilot_vol_lookback"
    ensures "autopilot_" + "high_vol_position_scale" == "autopilot_high_vol_position_scale"
  {
  }

  lemma AutopilotKeys5()
    ensures "autopilot_" + "high_vol_consecutive_delta" == "autopilot_high_vol_consecutive_delta"
  {
  }

  lemma AutopilotKeys6()
    ensures "autopilot_" + "high_vol_threshold_mult" == "autopilot_high_vol_threshold_mult"
  {
  }

  lemma TimesfmKeys1()
    ensures "timesfm_" + "timeframe" == "timesfm_timeframe"
    ensures "timesfm_" + "forecast_mode" == "timesfm_forecast_mode"
    ensures "timesfm_" + "horizon" == "timesfm_horizon"
  {
  }

  lemma TimesfmKeys2()
    ensures "timesfm_" + "signal_threshold" == "timesfm_signal_threshold"
    ensures "timesfm_" + "exit_signal_threshold" == "timesfm_exit_signal_threshold"
  {
  }

  lemma TimesfmKeys3()
    ensures "timesfm_" + "exit_threshold_mult" == "timesfm_exit_threshold_mult"
    ensures "timesfm_" + "timeframe_threshold_scale" == "timesfm_timeframe_threshold_scale"
  {
  }

  lemma TimesfmKeys4()
    ensures "timesfm_" + "predict_on_candle_close" == "timesfm_predict_on_candle_close"
    ensures "timesfm_" + "fee_rate" == "timesfm_fee_rate"
  {
  }

  lemma TimesfmKeys5()
    ensures "timesfm_" + "slippage_rate" == "timesfm_slippage_rate"
    ensures "timesfm_" + "safety_margin" == "timesfm_safety_margin"
  {
  }

  lemma FincastKeys1()
    ensures "fincast_" + "timeframe" == "fincast_timeframe"
    ensures "fincast_" + "checkpoint_path" == "fincast_checkpoint_path"
    ensures "fincast_" + "repo_path" == "fincast_repo_path"
  {
  }

  lemma FincastKeys2()
    ensures "fincast_" + "backend" == "fincast_backend"
    ensures "fincast_" + "forecast_mode" == "fincast_forecast_mode"
    ensures "fincast_" + "horizon" == "fincast_horizon"
  {
  }

  lemma FincastKeys3()
    ensures "fincast_" + "signal_threshold" == "fincast_signal_threshold"
    ensures "fincast_" + "exit_signal_threshold" == "fincast_exit_signal_threshold"
  {
  }

  lemma FincastKeys4()
    ensures "fincast_" + "exit_threshold_mult" == "fincast_exit_threshold_mult"
    ensures "fincast_" + "timeframe_threshold_scale" == "fincast_timeframe_threshold_scale"
  {
  }

  lemma FincastKeys5()
    ensures "fincast_" + "predict_on_candle_close" == "fincast_predict_on_candle_close"
    ensures "fincast_" + "fee_rate" == "fincast_fee_rate"
  {
  }

  lemma FincastKeys6()
    ensures "fincast_" + "slippage_rate" == "fincast_slippage_rate"
    ensures "fincast_" + "safety_margin" == "fincast_safety_margin"
  {
  }

  lemma AdaptiveKeysArePrefixed(section: string, n: string)
    requires section in {"autopilot", "timesfm", "fincast"} && n in TableOf(section)
    ensures TableOf(section)[n] == Prefix(section) + n
  {
    match section
    case "autopilot" =>
      AutopilotKeys1();
      AutopilotKeys2();
      AutopilotKeys3();
      AutopilotKeys4();
      AutopilotKeys5();
      AutopilotKeys6();
    case "timesfm" =>
      TimesfmKeys1();
      TimesfmKeys2();
      TimesfmKeys3();
      TimesfmKeys4();
      TimesfmKeys5();
    case "fincast" =>
      FincastKeys1();
      FincastKeys2();
      FincastKeys3();
      FincastKeys4();
      FincastKeys5();
      FincastKeys6();
  }

  /** Of all ten sections. */
  lemma KeysArePrefixed(section: string, n: string)
    requires section in SECTIONS + {"timesfm", "fincast"} && n in TableOf(section)
    ensures TableOf(section)[n] == Prefix(section) + n
  {
    match section
    case "trade_rules" =>
      TradeRulesKeys();
    case "sizing" =>
      SizingKeys1();
      SizingKeys2();
    case "risk" =>
      RiskKeys1();
      RiskKeys2();
      RiskKeys3();
      RiskKeys4();
    case "signal_policy" =>
      SignalPolicyKeys();
    case _ =>
      if section in {"autopilot", "timesfm", "fincast"} {
        AdaptiveKeysArePrefixed(section, n);
      } else {
        assert "" + n == n;
      }
  }
}
