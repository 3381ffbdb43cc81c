/** What the shared row says after any interleaving: the flag last asked for, a version for every save, and for every
    parameter the value last requested. */
module RowHistory {
  import opened Domain
  import opened RuntimeConfig
  import opened RuntimeControl
  import opened ControlInvariants
  import opened ControlAgreement

  /** The flag asked for last: by a save that says so, a start, or a stop; a boot switches it off. */
  function Asked(steps: seq<Step>): Option<bool> {
    if steps == [] then None
    else
      var before := Asked(steps[..|steps| - 1]);
      match steps[|steps| - 1]
      case Save(_, flag) => if flag.Some? then flag else if before.Some? then before else Some(false)
      case ApiStart(_) => Some(true)
      case ApiStop => if before.Some? then Some(false) else None
      case EngineBoot => if before.Some? then Some(false) else None
      case _ => before
  }

  function Saves(steps: seq<Step>): nat {
    if steps == [] then 0
    else Saves(steps[..|steps| - 1]) + if steps[|steps| - 1].Save? || steps[|steps| - 1].ApiStart? then 1 else 0
  }

  /** What was last requested for a parameter. */
  function Requested(steps: seq<Step>, key: string): Option<Value> {
    if steps == [] then None
    else
      var before := Requested(steps[..|steps| - 1], key);
      match steps[|steps| - 1]
      case Save(request, _) => if key in request then Some(request[key]) else before
      case ApiStart(request) => if key in request then Some(request[key]) else before
      case _ => before
  }

  ghost predicate RowSays(row: Option<StateRow>, steps: seq<Step>) {
    && (row.Some? <==> Asked(steps).Some?)
    && (row.None? ==> Saves(steps) == 0)
    && (row.Some? ==> row.value.enabled == Asked(steps).value && row.value.version == Saves(steps))
    && (forall key :: key !in IDENTITY_KEYS ==>
          (if row.Some? && key in row.value.config then Some(row.value.config[key]) else None) == Requested(steps, key))
  }

  lemma SavedSays(env: Environment, db: Database, request: Patch, flag: Option<bool>, before: seq<Step>, step: Step)
    requires RowSays(db.row, before) && request.Keys <= ParamKeys() && (db.row.Some? ==> RowOk(env, db.row.value))
    requires step == Save(request, flag) || (step == ApiStart(request) && flag == Some(true))
    ensures RowSays(SaveConfig(env, db, request, flag).row, before + [step])
  {
    hide ParamKeys, WithIdentity, MergeRuntime, SavedPatch, RunIdOf;
    var steps := before + [step];
    assert steps[..|steps| - 1] == before;
    var previous := PatchOf(db);
    SavedPatchesGrow(previous, request);
    OnlyIdentityAdded(previous, request);
  }

  lemma OnlyIdentityAdded(previous: Patch, request: Patch)
    ensures SavedPatch(previous, request).Keys <= previous.Keys + request.Keys + IDENTITY_KEYS
  {
    hide ParamKeys;
    IdentityKeysKnown((map k | k in previous && k in ParamKeys() :: previous[k]) + request);
  }

  lemma OtherSays(row: Option<StateRow>, row': Option<StateRow>, before: seq<Step>, step: Step)
    requires RowSays(row, before) && !step.Save? && !step.ApiStart?
    requires row' == if step.ApiStop? || step.EngineBoot? then Off(row) else row
    ensures RowSays(row', before + [step])
  {
    var steps := before + [step];
    assert steps[..|steps| - 1] == before;
  }

  function Off(row: Option<StateRow>): Option<StateRow> {
    if row.None? then None else Some(row.value.(enabled := false))
  }

  lemma BootSwitchesOff(s: System)
    requires Sound(s)
    ensures Boot(s).db.row == Off(s.db.row)
  {
    hide Sound, Drain, Report, ApplyPatch, ObeyAll, RunIdOf, NewProcess;
    BootDrains(s);
    BootingSound(s);
    BootingRuns(s);
    DrainedCaught(Booting(s));
  }

  lemma PollLeavesRow(s: System)
    requires Sound(s) && s.process.Some?
    ensures Poll(s).db.row == s.db.row
  {
    hide Sound, Drain;
    PollAgrees(s);
  }

  /** After every interleaving of API calls, polls, boots and crashes: a row exists once something was saved; its flag is what
      was asked for last, a save without a flag keeping it; its version counts the saves and starts; and every parameter
      that is not an identity label has the value last requested, and is there only if one was. */
  lemma {:induction false} RowFollowsRequests(s: System, steps: seq<Step>)
    requires Initial(s) && AllowedRun(s, steps)
    ensures RowSays(Run(s, steps).db.row, steps)
  {
    hide Sound, SaveConfig, Poll, Boot, ParamKeys, RowSays, RowOk, CommandsOk, InOrder;
    if steps == [] {
      NothingSaid(s);
    } else {
      var before, last := steps[..|steps| - 1], steps[|steps| - 1];
      assert steps == before + [last];
      var b := Run(s, before);
      RowFollowsRequests(s, before);
      RunKeepsSound(s, before);
      SoundParts(b);
      match last
      case Save(request, flag) => SavedSays(b.env, b.db, request, flag, before, last);
      case ApiStart(request) => SavedSays(b.env, b.db, request, Some(true), before, last);
      case EngineBoot =>
        BootSwitchesOff(b);
        OtherSays(b.db.row, Run(s, steps).db.row, before, last);
      case EnginePoll =>
        PollLeavesRow(b);
        OtherSays(b.db.row, Run(s, steps).db.row, before, last);
      case _ => OtherSays(b.db.row, Run(s, steps).db.row, before, last);
    }
  }

  lemma NothingSaid(s: System)
    requires Initial(s)
    ensures RowSays(s.db.row, [])
  {
  }

  /** The API marks its session at once: a start shows it running and no other, a stop shows it paused. A session the
      engine has not recorded yet is not created. */
  lemma ApiMarksSession(env: Environment, db: Database, request: Patch)
    ensures var started := StartCall(env, db, request);
            && started.row.Some? && started.runs.Keys == db.runs.Keys
            && forall id :: id in db.runs ==>
                 (started.runs[id] == Running <==> id == started.row.value.runId)
    ensures var stopped := StopCall(db);
            && stopped.runs.Keys == db.runs.Keys
            && forall id :: id in db.runs ==>
                 stopped.runs[id] == if db.row.Some? && id == db.row.value.runId then Paused else db.runs[id]
  {
    hide SavedPatch, MergeRuntime, RunIdOf;
  }

  /** A shutdown leaves no engine and its session stopped; a crash leaves the tables as they were. */
  lemma EngineGone(s: System)
    requires s.process.Some?
    ensures var own := RunIdOf(s.process.value.cfg);
            var down := Apply(s, Shutdown);
            && down.process == None && down.db.row == s.db.row && down.db.commands == s.db.commands
            && down.db.runs.Keys == s.db.runs.Keys
            && forall id :: id in s.db.runs ==> down.db.runs[id] == if id == own then Stopped else s.db.runs[id]
    ensures Apply(s, Crash) == s.(process := None)
  {
    hide RunIdOf;
  }
}
