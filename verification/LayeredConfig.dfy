/** Merging every saved patch onto the last configuration, as the engine does, against merging only
    the newest onto the environment, as the API does. */
module LayeredConfig {
  import opened Domain
  import opened RuntimeConfig

  lemma {:induction false} LeavesMerge(base: Tree, leaves: Tree)
    requires forall k :: k in leaves ==> leaves[k].Leaf?
    ensures DeepMerge(base, leaves) == base + leaves
  {
  }

  lemma EntriesMerged(base: Tree, patch: Tree, name: string)
    requires name in patch ==> patch[name].Dict?
    ensures Entries(DeepMerge(base, patch), name) == DeepMerge(Entries(base, name), Entries(patch, name))
  {
    if name !in patch {
      LeavesMerge(Entries(base, name), map[]);
      assert Entries(base, name) + map[] == Entries(base, name);
    } else {
      CoveredMerge(map[], Entries(patch, name));
    }
  }

  lemma NestedEntries(p: Patch, name: string)
    requires name !in SCALARS
    ensures name in Nested(p) ==> Nested(p)[name].Dict?
    ensures Entries(Nested(p), name) == if name == "predictor_config" then PickPredictors(p)
                                        else if name in SECTIONS then Pick(p, TableOf(name)) else map[]
  {
    hide TableOf, Pick, PickPredictors;
  }

  /** A predictor's section after the deep merge: its old fields, overlaid by the patch's. */
  lemma PredictorMerged(base: Tree, p: Patch, predictor: string)
    requires predictor in {"timesfm", "fincast"}
    ensures Predictor(DeepMerge(base, Nested(p)), predictor) == Predictor(base, predictor) + Pick(p, TableOf(predictor))
  {
    hide TableOf, Pick, Nested, DeepMerge;
    NestedEntries(p, "predictor_config");
    EntriesMerged(base, Nested(p), "predictor_config");
    EntriesMerged(Entries(base, "predictor_config"), PickPredictors(p), predictor);
    assert Entries(PickPredictors(p), predictor) == Pick(p, TableOf(predictor));
    PickIsLeaves(p, TableOf(predictor));
    LeavesMerge(Predictor(base, predictor), Pick(p, TableOf(predictor)));
  }

  /** The same for any other section. */
  lemma SectionMerged(base: Tree, p: Patch, section: string)
    requires section in SECTIONS
    ensures Entries(DeepMerge(base, Nested(p)), section) == Entries(base, section) + Pick(p, TableOf(section))
  {
    hide TableOf, Pick, Nested, DeepMerge;
    NestedEntries(p, section);
    EntriesMerged(base, Nested(p), section);
    PickIsLeaves(p, TableOf(section));
    LeavesMerge(Entries(base, section), Pick(p, TableOf(section)));
  }

  lemma PickIsLeaves(p: Patch, t: Table)
    ensures forall k :: k in Pick(p, t) ==> Pick(p, t)[k].Leaf?
  {
  }

  /** Settling twice under a growing patch is settling once. */
  lemma FillAbsorbs(section: Tree, first: Tree, second: Tree, defaults: Tree)
    requires first.Keys <= second.Keys
    ensures Fill(Fill(section + first, defaults) + second, defaults) == Fill(section + second, defaults)
  {
    assert section + first == map[] ==> Fill(section + first, defaults) + second == section + second;
    if section + first != map[] {
      assert section + second != map[] by {
        var k :| k in section + first;
        assert k in section + second;
      }
      assert defaults + (defaults + (section + first) + second) == defaults + (section + second);
    }
  }

  lemma PicksGrow(first: Patch, second: Patch, t: Table)
    requires first.Keys <= second.Keys
    ensures Pick(first, t).Keys <= Pick(second, t).Keys
  {
  }

  lemma PredictorSettled(t: Tree, predictor: string)
    requires predictor in {"timesfm", "fincast"}
    ensures Predictor(FromDict(t), predictor) == Fill(Predictor(t, predictor), DefaultsOf(predictor))
  {
    hide DefaultsOf, Fill;
  }

  /** Two settled merges with the same predictors and the same rest are the same. */
  lemma FromDictExtensional(a: Tree, b: Tree)
    requires Fill(Predictor(a, "timesfm"), DefaultsOf("timesfm")) == Fill(Predictor(b, "timesfm"), DefaultsOf("timesfm"))
    requires Fill(Predictor(a, "fincast"), DefaultsOf("fincast")) == Fill(Predictor(b, "fincast"), DefaultsOf("fincast"))
    requires a - {"predictor_config"} == b - {"predictor_config"}
    ensures FromDict(a) == FromDict(b)
  {
    hide DefaultsOf, Fill, Predictor;
    assert forall k :: k in a && k != "predictor_config" ==> k in a - {"predictor_config"};
    assert forall k :: k in b && k != "predictor_config" ==> k in b - {"predictor_config"};
    assert FromDict(a).Keys == FromDict(b).Keys;
    assert forall k :: k in FromDict(a) ==> FromDict(a)[k] == FromDict(b)[k];
  }

  lemma PredictorsAbsorb(base: Tree, first: Patch, second: Patch, predictor: string)
    requires first.Keys <= second.Keys && predictor in {"timesfm", "fincast"}
    ensures var d := DefaultsOf(predictor);
            Fill(Predictor(DeepMerge(FromDict(DeepMerge(base, Nested(first))), Nested(second)), predictor), d)
            == Fill(Predictor(DeepMerge(base, Nested(second)), predictor), d)
  {
    hide TableOf, Pick, Nested, DeepMerge, DefaultsOf, FromDict, Fill, Predictor;
    var t := TableOf(predictor);
    PicksGrow(first, second, t);
    PredictorMerged(base, first, predictor);
    PredictorSettled(DeepMerge(base, Nested(first)), predictor);
    PredictorMerged(FromDict(DeepMerge(base, Nested(first))), second, predictor);
    PredictorMerged(base, second, predictor);
    FillAbsorbs(Predictor(base, predictor), Pick(first, t), Pick(second, t), DefaultsOf(predictor));
  }

  /** Outside the predictors the deep merge absorbs as it is. */
  lemma RestAbsorbs(base: Tree, first: Tree, second: Tree)
    requires Covered(first, second)
    ensures DeepMerge(FromDict(DeepMerge(base, first)), second) - {"predictor_config"}
            == DeepMerge(base, second) - {"predictor_config"}
  {
    hide Covered, Fill, Predictor, DefaultsOf;
    MergeAbsorbs(base, first, second);
    OtherKeysMerge(FromDict(DeepMerge(base, first)), DeepMerge(base, first), second);
  }

  lemma OtherKeysMerge(a: Tree, b: Tree, patch: Tree)
    requires a - {"predictor_config"} == b - {"predictor_config"}
    ensures DeepMerge(a, patch) - {"predictor_config"} == DeepMerge(b, patch) - {"predictor_config"}
  {
    forall k | k != "predictor_config"
      ensures k in a <==> k in b
      ensures k in a ==> a[k] == b[k]
      ensures k in patch ==> Overlay(a, patch, k) == Overlay(b, patch, k)
    {
      assert k in a <==> k in a - {"predictor_config"};
      assert k in b <==> k in b - {"predictor_config"};
    }
    assert (DeepMerge(a, patch) - {"predictor_config"}).Keys == (DeepMerge(b, patch) - {"predictor_config"}).Keys;
  }

  lemma SettleAbsorbs(base: Tree, first: Patch, second: Patch)
    requires first.Keys <= second.Keys
    ensures FromDict(DeepMerge(FromDict(DeepMerge(base, Nested(first))), Nested(second)))
            == FromDict(DeepMerge(base, Nested(second)))
  {
    hide TableOf, Pick, Nested, DeepMerge, DefaultsOf, FromDict, Fill, Predictor, Covered;
    NestedCovers(first, second);
    PredictorsAbsorb(base, first, second, "timesfm");
    PredictorsAbsorb(base, first, second, "fincast");
    RestAbsorbs(base, Nested(first), Nested(second));
    FromDictExtensional(DeepMerge(FromDict(DeepMerge(base, Nested(first))), Nested(second)),
                        DeepMerge(base, Nested(second)));
  }

  // ---------------------------------------------------------------- the poll interval on the side

  lemma SameButPoll(a: Tree, b: Tree)
    requires forall k :: k != "market_data" ==> (k in a <==> k in b) && (k in a ==> a[k] == b[k])
    requires Entries(a, "market_data") - {POLL} == Entries(b, "market_data") - {POLL}
    ensures AgreeButPoll(a, b)
  {
    assert WithoutPoll(a).Keys == WithoutPoll(b).Keys;
    assert forall k :: k in WithoutPoll(a) ==> WithoutPoll(a)[k] == WithoutPoll(b)[k];
  }

  lemma ButPollPointwise(a: Tree, b: Tree)
    requires AgreeButPoll(a, b)
    ensures forall k :: k != "market_data" ==> (k in a <==> k in b) && (k in a ==> a[k] == b[k])
    ensures Entries(a, "market_data") - {POLL} == Entries(b, "market_data") - {POLL}
  {
    forall k | k != "market_data"
      ensures (k in a <==> k in b) && (k in a ==> a[k] == b[k])
    {
      assert k in a <==> k in WithoutPoll(a);
      assert k in b <==> k in WithoutPoll(b);
      assert k in a ==> WithoutPoll(a)[k] == a[k];
      assert k in b ==> WithoutPoll(b)[k] == b[k];
    }
    assert WithoutPoll(a)["market_data"] == WithoutPoll(b)["market_data"];
  }

  lemma AlignKeepsRest(align: bool, t: Tree)
    ensures AgreeButPoll(AlignPoll(align, t), t)
  {
    hide PollFloor, PollSeconds, WithoutPoll, AgreeButPoll;
    SameButPoll(AlignPoll(align, t), t);
  }

  lemma FloorIgnoresPoll(align: bool, a: Tree, b: Tree)
    requires AgreeButPoll(a, b)
    ensures PollFloor(align, a) == PollFloor(align, b)
  {
    hide AgreeButPoll;
    ButPollPointwise(a, b);
  }

  lemma UpdatedRest(a: Tree, b: Tree, p: Tree)
    requires a - {POLL} == b - {POLL}
    ensures (a + p) - {POLL} == (b + p) - {POLL}
  {
    forall k | k != POLL
      ensures k in a <==> k in b
      ensures k in a ==> a[k] == b[k]
    {
      assert k in a <==> k in a - {POLL};
      assert k in b <==> k in b - {POLL};
    }
    assert ((a + p) - {POLL}).Keys == ((b + p) - {POLL}).Keys;
  }

  lemma MergeIgnoresPoll(a: Tree, b: Tree, p: Patch)
    requires AgreeButPoll(a, b)
    ensures AgreeButPoll(DeepMerge(a, Nested(p)), DeepMerge(b, Nested(p)))
  {
    hide TableOf, Pick, Nested, AgreeButPoll;
    ButPollPointwise(a, b);
    SectionMerged(a, p, "market_data");
    SectionMerged(b, p, "market_data");
    UpdatedRest(Entries(a, "market_data"), Entries(b, "market_data"), Pick(p, TableOf("market_data")));
    SameButPoll(DeepMerge(a, Nested(p)), DeepMerge(b, Nested(p)));
  }

  lemma FromDictIgnoresPoll(a: Tree, b: Tree)
    requires AgreeButPoll(a, b)
    ensures AgreeButPoll(FromDict(a), FromDict(b))
  {
    hide AgreeButPoll, Fill, DefaultsOf;
    ButPollPointwise(a, b);
    SameButPoll(FromDict(a), FromDict(b));
  }

  /** The heart of the comparison: a later patch with all the keys makes an earlier one invisible,
      except through the poll interval. */
  lemma LayerAbsorbed(align: bool, base: Tree, first: Patch, second: Patch)
    requires WithIdentity(first).Keys <= WithIdentity(second).Keys
    ensures AgreeButPoll(MergeRuntime(align, MergeRuntime(align, base, first), second), MergeRuntime(align, base, second))
  {
    hide WithoutPoll, AlignPoll, Nested, WithIdentity, DeepMerge, FromDict;
    var n := WithIdentity(second);
    var once := Settle(base, first);
    AlignKeepsRest(align, once);
    MergeRespectsPoll(align, AlignPoll(align, once), once, second);
    SettleAbsorbs(base, WithIdentity(first), n);
  }

  lemma MergeRespectsPoll(align: bool, a: Tree, b: Tree, p: Patch)
    requires AgreeButPoll(a, b)
    ensures AgreeButPoll(MergeRuntime(align, a, p), MergeRuntime(align, b, p))
  {
    hide WithoutPoll, AlignPoll, Nested, WithIdentity, DeepMerge, FromDict;
    var n := WithIdentity(p);
    MergeIgnoresPoll(a, b, n);
    FromDictIgnoresPoll(DeepMerge(a, Nested(n)), DeepMerge(b, Nested(n)));
    var x, y := Settle(a, p), Settle(b, p);
    AlignKeepsRest(align, x);
    AlignKeepsRest(align, y);
  }

  // ---------------------------------------------------------------- whole histories

  /** The engine: every patch in turn, each on top of the configuration so far. */
  function Layered(align: bool, base: Tree, patches: seq<Patch>): Tree {
    if patches == [] then base
    else MergeRuntime(align, Layered(align, base, patches[..|patches| - 1]), patches[|patches| - 1])
  }

  /** Every patch so far sets only keys the given one sets. */
  ghost predicate AllWithin(patches: seq<Patch>, p: Patch) {
    forall i :: 0 <= i < |patches| ==> WithIdentity(patches[i]).Keys <= WithIdentity(p).Keys
  }

  /** However many patches the engine has layered, ending with one that holds all their keys, it agrees with
      merging that one alone on every field except the poll interval. */
  lemma {:induction false} LayeredEqualsOneShot(align: bool, base: Tree, earlier: seq<Patch>, last: Patch)
    requires AllWithin(earlier, last)
    ensures AgreeButPoll(Layered(align, base, earlier + [last]), MergeRuntime(align, base, last))
    decreases |earlier|
  {
    hide WithoutPoll, MergeRuntime, WithIdentity;
    assert (earlier + [last])[..|earlier|] == earlier;
    if earlier != [] {
      var before, p := earlier[..|earlier| - 1], earlier[|earlier| - 1];
      LayeredEqualsOneShot(align, base, before, last);
      assert (before + [last])[..|before|] == before;
      assert earlier == before + [p];
      LayerAbsorbed(align, Layered(align, base, before), p, last);
      }
  }

  // ---------------------------------------------------------------- the poll interval itself

  /** The poll interval before alignment: the patch's own, or the one below. */
  lemma PollMerged(base: Tree, p: Patch)
    ensures PollSeconds(Settle(base, p)) ==
            if POLL in WithIdentity(p) then NumberAt(Pick(WithIdentity(p), TableOf("market_data")), POLL, DEFAULT_POLL)
            else PollSeconds(base)
  {
    hide WithIdentity, Nested, Pick, DeepMerge, Fill, DefaultsOf;
    var n := WithIdentity(p);
    SectionMerged(base, n, "market_data");
    assert Entries(Settle(base, p), "market_data") == Entries(DeepMerge(base, Nested(n)), "market_data");
    MarketPick(n);
  }

  lemma MarketPick(p: Patch)
    ensures POLL in Pick(p, TableOf("market_data")) <==> POLL in p
  {
  }

  /** Alignment raises the interval to the active predictor's candle and changes nothing else about it. */
  lemma PollAligned(align: bool, t: Tree)
    ensures PollSeconds(AlignPoll(align, t)) ==
            if PollFloor(align, t).Some? then MaxReal(PollSeconds(t), PollFloor(align, t).value) else PollSeconds(t)
    ensures PollFloor(align, AlignPoll(align, t)) == PollFloor(align, t)
  {
    hide PollFloor, AgreeButPoll;
    AlignKeepsRest(align, t);
    FloorIgnoresPoll(align, AlignPoll(align, t), t);
  }

  lemma {:induction false} PollOnlyRises(align: bool, base: Tree, patches: seq<Patch>)
    requires forall i :: 0 <= i < |patches| ==> POLL !in WithIdentity(patches[i])
    ensures PollSeconds(Layered(align, base, patches)) >= PollSeconds(base)
  {
    hide WithIdentity, Settle, PollFloor, AlignPoll, PollSeconds;
    if patches != [] {
      var before, p := patches[..|patches| - 1], patches[|patches| - 1];
      PollOnlyRises(align, base, before);
      PollMerged(Layered(align, base, before), p);
      PollAligned(align, Settle(Layered(align, base, before), p));
    }
  }

  /** The engine's interval is never below the API's, and equal exactly when the newest patch sets it or nothing
      layered before had raised it above the API's. */
  lemma PollAgreesIff(align: bool, base: Tree, earlier: seq<Patch>, last: Patch)
    requires AllWithin(earlier, last)
    ensures var engine, api := PollSeconds(Layered(align, base, earlier + [last])), PollSeconds(MergeRuntime(align, base, last));
            && engine >= api
            && (engine == api <==> POLL in WithIdentity(last) || PollSeconds(Layered(align, base, earlier)) <= api)
  {
    hide WithIdentity, Settle, PollFloor, AlignPoll, PollSeconds, AgreeButPoll;
    assert (earlier + [last])[..|earlier|] == earlier;
    var c := Layered(align, base, earlier);
    PollMerged(c, last);
    PollMerged(base, last);
    PollAligned(align, Settle(c, last));
    PollAligned(align, Settle(base, last));
    LayeredEqualsOneShot(align, base, earlier, last);
    SameFloors(align, Settle(c, last), Settle(base, last));
    if POLL !in WithIdentity(last) {
      PollOnlyRises(align, base, earlier);
    }
  }

  lemma SameFloors(align: bool, a: Tree, b: Tree)
    requires AgreeButPoll(AlignPoll(align, a), AlignPoll(align, b))
    ensures PollFloor(align, a) == PollFloor(align, b)
  {
    hide AgreeButPoll, AlignPoll, PollFloor;
    FloorIgnoresPoll(align, AlignPoll(align, a), AlignPoll(align, b));
    PollAligned(align, a);
    PollAligned(align, b);
  }

  /** Patches saved one after the other: keys are only ever added. */
  ghost predicate Growing(patches: seq<Patch>) {
    forall i, j :: 0 <= i < j < |patches| ==> WithIdentity(patches[i]).Keys <= WithIdentity(patches[j]).Keys
  }

  predicate FloorWithin(align: bool, base: Tree, p: Patch, bound: real) {
    var floor := PollFloor(align, MergeRuntime(align, base, p));
    floor.Some? ==> floor.value <= bound
  }

  lemma {:induction false} LayeredPollWithin(align: bool, base: Tree, patches: seq<Patch>, bound: real)
    requires Growing(patches) && forall i :: 0 <= i < |patches| ==> POLL !in WithIdentity(patches[i])
    ensures PollSeconds(Layered(align, base, patches)) <= bound
            <==> PollSeconds(base) <= bound && forall i :: 0 <= i < |patches| ==> FloorWithin(align, base, patches[i], bound)
  {
    hide WithIdentity, Settle, PollFloor, AlignPoll, PollSeconds, AgreeButPoll;
    if patches != [] {
      var before, p := patches[..|patches| - 1], patches[|patches| - 1];
      assert patches == before + [p];
      var c := Layered(align, base, before);
      LayeredPollWithin(align, base, before, bound);
      PollMerged(c, p);
      PollAligned(align, Settle(c, p));
      LayeredEqualsOneShot(align, base, before, p);
      SameFloors(align, Settle(c, p), Settle(base, p));
      PollAligned(align, Settle(base, p));
      assert forall i :: 0 <= i < |patches| ==> patches[i] == if i == |before| then p else before[i];
    }
  }

  /** For patches saved one after the other: the two intervals are equal exactly when the newest patch sets it or no
      earlier patch chose a longer candle than the interval the API shows. */
  lemma SavedPollAgreesIff(align: bool, base: Tree, earlier: seq<Patch>, last: Patch)
    requires Growing(earlier + [last])
    ensures var engine, api := PollSeconds(Layered(align, base, earlier + [last])), PollSeconds(MergeRuntime(align, base, last));
            && engine >= api
            && (engine == api <==>
                  POLL in WithIdentity(last) || forall i :: 0 <= i < |earlier| ==> FloorWithin(align, base, earlier[i], api))
  {
    hide WithIdentity, Settle, PollFloor, AlignPoll, PollSeconds, AgreeButPoll;
    var all := earlier + [last];
    assert all[|earlier|] == last && forall i :: 0 <= i < |earlier| ==> all[i] == earlier[i];
    assert AllWithin(earlier, last);
    PollAgreesIff(align, base, earlier, last);
    if POLL !in WithIdentity(last) {
      LayeredPollWithin(align, base, earlier, PollSeconds(MergeRuntime(align, base, last)));
      PollMerged(base, last);
      PollAligned(align, Settle(base, last));
    }
  }

  const HOURLY: Patch := map["timesfm_timeframe" := Number(3600.0)]
  const MINUTELY: Patch := map["timesfm_timeframe" := Number(60.0)]
  const MINUTE_BASE: Tree := map[
    "predictor_type" := Leaf(Text("timesfm")),
    "market_data" := Dict(map[POLL := Leaf(Number(5.0))]),
    "predictor_config" := Dict(map["timesfm" := Dict(map["timeframe" := Leaf(Number(60.0))])])]

  lemma TimeframeSet(base: Tree, seconds: real)
    requires "predictor_type" in base && base["predictor_type"] == Leaf(Text("timesfm"))
    ensures PollFloor(true, Settle(base, map["timesfm_timeframe" := Number(seconds)])) == Some(seconds)
    ensures "predictor_type" in Settle(base, map["timesfm_timeframe" := Number(seconds)])
    ensures Settle(base, map["timesfm_timeframe" := Number(seconds)])["predictor_type"] == Leaf(Text("timesfm"))
  {
    hide Nested, Pick, DeepMerge, Predictor;
    var p: Patch := map["timesfm_timeframe" := Number(seconds)];
    var t := DeepMerge(base, Nested(p));
    PredictorMerged(base, p, "timesfm");
    PredictorSettled(t, "timesfm");
    TimeframePick(p);
    PredictorTypeKept(base, p);
  }

  lemma TimeframePick(p: Patch)
    requires "timesfm_timeframe" in p
    ensures var picked := Pick(p, TableOf("timesfm"));
            "timeframe" in picked && picked["timeframe"] == Leaf(p["timesfm_timeframe"])
  {
  }

  lemma PredictorTypeKept(base: Tree, p: Patch)
    requires "predictor_type" in base && "predictor_type" !in p
    ensures var t := DeepMerge(base, Nested(p)); "predictor_type" in t && t["predictor_type"] == base["predictor_type"]
  {
    hide TableOf, Pick;
  }

  /** One hour, then back to one minute: the engine keeps polling hourly while the API shows a minute. */
  lemma EngineKeepsSlowPoll()
    ensures PollSeconds(Layered(true, MINUTE_BASE, [HOURLY, MINUTELY])) == 3600.0
    ensures PollSeconds(MergeRuntime(true, MINUTE_BASE, MINUTELY)) == 60.0
  {
    hide Settle, PollFloor, AlignPoll;
    var c := MergeRuntime(true, MINUTE_BASE, HOURLY);
    assert [HOURLY, MINUTELY][..1] == [HOURLY] && [HOURLY][..0] == [];
    assert Layered(true, MINUTE_BASE, [HOURLY]) == c;
    assert Layered(true, MINUTE_BASE, [HOURLY, MINUTELY]) == MergeRuntime(true, c, MINUTELY);
    assert PollSeconds(MINUTE_BASE) == 5.0;
    TimeframeSet(MINUTE_BASE, 3600.0);
    TimeframeSet(MINUTE_BASE, 60.0);
    PollMerged(MINUTE_BASE, HOURLY);
    PollMerged(MINUTE_BASE, MINUTELY);
    PollMerged(c, MINUTELY);
    PollAligned(true, Settle(MINUTE_BASE, HOURLY));
    PollAligned(true, Settle(MINUTE_BASE, MINUTELY));
    TypeSurvives(Settle(MINUTE_BASE, HOURLY));
    TimeframeSet(c, 60.0);
    PollAligned(true, Settle(c, MINUTELY));
  }

  lemma TypeSurvives(t: Tree)
    requires "predictor_type" in t
    ensures var a := AlignPoll(true, t); "predictor_type" in a && a["predictor_type"] == t["predictor_type"]
  {
    hide PollFloor, PollSeconds;
  }

  // ---------------------------------------------------------------- where each parameter lands

  /** The section of the effective configuration a nested name is read from. */
  function EffectiveSection(t: Tree, section: string): Tree {
    if section in {"timesfm", "fincast"} then Predictor(t, section) else Entries(t, section)
  }

  lemma SettledSection(base: Tree, p: Patch, section: string)
    requires section in SECTIONS + {"timesfm", "fincast"}
    ensures var picked := EffectiveSection(base, section) + Pick(WithIdentity(p), TableOf(section));
            EffectiveSection(Settle(base, p), section)
            == if section in {"timesfm", "fincast"} then Fill(picked, DefaultsOf(section)) else picked
  {
    hide TableOf, Pick, Nested, WithIdentity, DeepMerge, DefaultsOf, Predictor, Fill;
    var id := WithIdentity(p);
    if section in SECTIONS {
      SectionMerged(base, id, section);
    } else {
      PredictorMerged(base, id, section);
      PredictorSettled(DeepMerge(base, Nested(id)), section);
    }
  }

  lemma AlignedSection(align: bool, t: Tree, section: string, n: string)
    requires n != POLL
    ensures var a, b := EffectiveSection(AlignPoll(align, t), section), EffectiveSection(t, section);
            (n in a <==> n in b) && (n in a ==> a[n] == b[n])
  {
    hide PollFloor, PollSeconds;
  }

  /** Every parameter of the patch (its identity labels included) is in force afterwards, at its own place; every
      other setting is as it was, or a default in a predictor section the patch just brought to life. */
  lemma EveryParameterLands(align: bool, base: Tree, p: Patch, section: string, n: string)
    requires section in SECTIONS + {"timesfm", "fincast"} && n in TableOf(section) && n != POLL
    ensures var effective, key := EffectiveSection(MergeRuntime(align, base, p), section), TableOf(section)[n];
            if key in WithIdentity(p) then n in effective && effective[n] == Leaf(WithIdentity(p)[key])
            else if n in EffectiveSection(base, section) then n in effective && effective[n] == EffectiveSection(base, section)[n]
            else n in effective ==> section in {"timesfm", "fincast"} && n in DefaultsOf(section)
                                    && effective[n] == DefaultsOf(section)[n]
  {
    hide TableOf, WithIdentity, DefaultsOf, EffectiveSection, AlignPoll, Settle;
    SettledSection(base, p, section);
    AlignedSection(align, Settle(base, p), section, n);
  }

  /** With alignment on, the interval in force is the one asked for (or the one below) raised to the active predictor's
      candle, and without it just that one; a predictor section nobody configured raises nothing. */
  lemma PollCoversCandle(align: bool, base: Tree, p: Patch, predictor: string)
    requires predictor in {"timesfm", "fincast"} && "predictor_type" in MergeRuntime(align, base, p)
    requires MergeRuntime(align, base, p)["predictor_type"] == Leaf(Text(predictor))
    ensures var t := MergeRuntime(align, base, p);
            var asked := if POLL in WithIdentity(p) then
                           if WithIdentity(p)[POLL].Number? then WithIdentity(p)[POLL].number else 5.0
                         else PollSeconds(base);
            var section := Entries(Entries(t, "predictor_config"), predictor);
            var candle := if "timeframe" in section && section["timeframe"].Leaf? && section["timeframe"].value.Number? then
                            section["timeframe"].value.number else 60.0;
            PollSeconds(t) == if align && section != map[] && candle > asked then candle else asked
  {
    hide WithIdentity, Settle, AlignPoll, PollSeconds, Entries;
    PollMerged(base, p);
    PollAligned(align, Settle(base, p));
    AskedNumber(WithIdentity(p));
  }

  lemma AskedNumber(p: Patch)
    ensures POLL in p ==>
              NumberAt(Pick(p, TableOf("market_data")), POLL, DEFAULT_POLL) ==
              if p[POLL].Number? then p[POLL].number else 5.0
  {
    MarketPick(p);
  }
}
