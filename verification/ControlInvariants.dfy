/** What the shared row and the command table guarantee: after every poll the engine obeys the row,
    runs every command once and in order, and holds the only running session. */
module ControlInvariants {
  import opened Domain
  import opened RuntimeConfig
  import opened LayeredConfig
  import opened RuntimeControl

  // ---------------------------------------------------------------- commands run once, in order

  function Finished(c: Command): CommandStatus {
    if c.action == Unknown then Failed else Done
  }

  /** The journal lists the ids so far, and they are exactly the commands no longer pending. */
  ghost predicate InOrder(s: System) {
    && |s.journal| <= |s.db.commands|
    && (forall i :: 0 <= i < |s.journal| ==> s.journal[i] == i && s.db.commands[i].status == Finished(s.db.commands[i]))
    && (forall i :: |s.journal| <= i < |s.db.commands| ==> s.db.commands[i].status == Waiting)
  }

  lemma NextIsFirst(s: System)
    requires InOrder(s)
    ensures FirstPending(s.db.commands) == if |s.journal| < |s.db.commands| then Some(|s.journal|) else None
  {
    FirstPendingIsFirst(s.db.commands);
    var first := FirstPending(s.db.commands);
    if first.Some? {
      assert first.value >= |s.journal|;
      assert s.db.commands[|s.journal|].status == Waiting;
    }
  }

  /** What obeying a list of commands makes of the engine. */
  function ObeyAll(env: Environment, p: Process, commands: seq<Command>): Process
    decreases |commands|
  {
    if commands == [] then p else ObeyAll(env, Obey(env, p, commands[0]), commands[1..])
  }

  lemma {:induction false} ObeyAllAppend(env: Environment, p: Process, commands: seq<Command>, c: Command)
    ensures ObeyAll(env, p, commands + [c]) == Obey(env, ObeyAll(env, p, commands), c)
    decreases |commands|
  {
    hide Obey;
    if commands == [] {
      assert (commands + [c])[1..] == [];
    } else {
      assert (commands + [c])[1..] == commands[1..] + [c];
      ObeyAllAppend(env, Obey(env, p, commands[0]), commands[1..], c);
    }
  }

  function Queue(s: System): seq<Command>
    requires |s.journal| <= |s.db.commands|
  {
    s.db.commands[|s.journal|..]
  }

  predicate SameCommands(before: seq<Command>, after: seq<Command>) {
    && |before| == |after|
    && forall i :: 0 <= i < |before| ==> before[i].(status := Waiting) == after[i].(status := Waiting)
  }

  /** Draining executes every pending command once, in id order, and leaves the row alone. */
  lemma {:induction false} DrainObeysAll(s: System)
    requires s.process.Some? && InOrder(s)
    ensures var d := Drain(s);
            && d.process == Some(ObeyAll(s.env, s.process.value, Queue(s)))
            && d.env == s.env && d.db.row == s.db.row
            && InOrder(d) && |d.journal| == |d.db.commands| && SameCommands(s.db.commands, d.db.commands)
    decreases |s.db.commands| - |s.journal|
  {
    hide Obey, Report;
    NextIsFirst(s);
    if |s.journal| < |s.db.commands| {
      var next := Execute(s, |s.journal|);
      ExecuteKeepsOrder(s);
      assert Queue(next) == Queue(s)[1..];
      DrainObeysAll(next);
      assert Drain(s) == Drain(next);
    }
  }

  lemma ExecuteKeepsOrder(s: System)
    requires s.process.Some? && InOrder(s) && |s.journal| < |s.db.commands|
    ensures var next := Execute(s, |s.journal|);
            InOrder(next) && next.process.Some? && SameCommands(s.db.commands, next.db.commands)
            && |next.journal| == |s.journal| + 1
  {
    hide Obey, Report;
  }

  // ---------------------------------------------------------------- what every step keeps

  /** A patch save_config could have stored. */
  predicate Storable(p: Patch) {
    p.Keys <= ParamKeys() && WithIdentity(p) == p
  }

  ghost predicate RowOk(env: Environment, row: StateRow) {
    Storable(row.config) && row.runId == RunIdOf(MergeRuntime(env.align, env.base, row.config))
  }

  /** Start commands carry patches the row has since grown from. */
  ghost predicate CommandOk(c: Command, row: Option<StateRow>) {
    c.action == Start ==>
      && row.Some? && c.version.Some? && c.version.value <= row.value.version
      && WithIdentity(c.config) == c.config && c.config.Keys <= row.value.config.Keys
      && (c.version.value == row.value.version ==> c.config == row.value.config)
  }

  /** The engine's configuration is the layers it applied, all of them covered by the row. */
  ghost predicate LayersOk(env: Environment, p: Process, row: Option<StateRow>) {
    && p.cfg == Layered(env.align, env.base, p.layers)
    && (forall i :: 0 <= i < |p.layers| ==>
          && row.Some? && p.layers[i] != map[] && WithIdentity(p.layers[i]) == p.layers[i]
          && p.layers[i].Keys <= row.value.config.Keys)
  }

  /** An engine that has seen the row's version has applied the row's patch last. */
  ghost predicate VersionOk(p: Process, row: Option<StateRow>) {
    p.lastVersion.Some? ==>
      && row.Some? && p.lastVersion.value <= row.value.version
      && (p.lastVersion.value == row.value.version ==>
            if row.value.config == map[] then p.layers == []
            else p.layers != [] && p.layers[|p.layers| - 1] == row.value.config)
  }

  /** It also trades exactly when the row says so. */
  predicate Agrees(p: Process, row: Option<StateRow>) {
    row.Some? && p.lastVersion == Some(row.value.version) ==> p.trading == row.value.enabled
  }

  /** What must hold of the shared tables and of an engine, between any two steps. */
  ghost predicate Sound(s: System) {
    && InOrder(s)
    && (s.db.row.Some? ==> RowOk(s.env, s.db.row.value))
    && CommandsOk(s.db.commands, s.db.row)
    && (s.process.Some? ==> LayersOk(s.env, s.process.value, s.db.row) && VersionOk(s.process.value, s.db.row))
  }

  ghost predicate CommandsOk(commands: seq<Command>, row: Option<StateRow>) {
    forall i :: 0 <= i < |commands| ==> CommandOk(commands[i], row)
  }

  lemma NoLayers(env: Environment, p: Process, row: Option<StateRow>)
    requires LayersOk(env, p, row) && row.Some? && row.value.config == map[]
    ensures p.layers == []
  {
    hide WithIdentity, Layered;
    if p.layers != [] {
      NoKeys(p.layers[0]);
    }
  }

  lemma NoKeys(patch: Patch)
    ensures patch.Keys <= {} ==> patch == map[]
  {
  }

  lemma ApplyKeepsLayers(env: Environment, p: Process, patch: Patch, row: Option<StateRow>)
    requires LayersOk(env, p, row) && row.Some? && WithIdentity(patch) == patch && patch.Keys <= row.value.config.Keys
    ensures LayersOk(env, ApplyPatch(env, p, patch), row)
    ensures patch == row.value.config ==>
              var layers := ApplyPatch(env, p, patch).layers;
              if patch == map[] then layers == [] else layers != [] && layers[|layers| - 1] == patch
  {
    hide WithIdentity, MergeRuntime;
    if patch != map[] {
      assert (p.layers + [patch])[..|p.layers|] == p.layers;
    } else if patch == row.value.config {
      NoLayers(env, p, row);
    }
  }

  lemma FlagsAside(env: Environment, p: Process, trading: bool, version: Option<nat>, row: Option<StateRow>)
    requires LayersOk(env, p, row)
    ensures LayersOk(env, p.(trading := trading, lastVersion := version), row)
    ensures LayersOk(env, p.(trading := trading), row)
  {
    hide MergeRuntime, IdentityOf;
  }

  lemma ObeyKeeps(env: Environment, p: Process, c: Command, row: Option<StateRow>)
    requires LayersOk(env, p, row) && VersionOk(p, row) && CommandOk(c, row)
    ensures LayersOk(env, Obey(env, p, c), row) && VersionOk(Obey(env, p, c), row)
  {
    hide WithIdentity, LayersOk, ApplyPatch;
    if c.action == Start {
      ApplyKeepsLayers(env, p, c.config, row);
      FlagsAside(env, ApplyPatch(env, p, c.config), true, c.version, row);
    } else {
      FlagsAside(env, p, false, None, row);
    }
  }

  lemma {:induction false} ObeyAllKeeps(env: Environment, p: Process, commands: seq<Command>, row: Option<StateRow>)
    requires LayersOk(env, p, row) && VersionOk(p, row) && CommandsOk(commands, row)
    ensures LayersOk(env, ObeyAll(env, p, commands), row) && VersionOk(ObeyAll(env, p, commands), row)
    decreases |commands|
  {
    hide CommandOk, LayersOk, VersionOk, Obey;
    if commands != [] {
      ObeyKeeps(env, p, commands[0], row);
      ObeyAllKeeps(env, Obey(env, p, commands[0]), commands[1..], row);
    }
  }

  lemma SameCommandsOk(before: seq<Command>, after: seq<Command>, row: Option<StateRow>)
    requires SameCommands(before, after) && CommandsOk(before, row)
    ensures CommandsOk(after, row)
  {
    forall i | 0 <= i < |after|
      ensures CommandOk(after[i], row)
    {
      assert CommandOk(before[i], row) && before[i].(status := Waiting) == after[i].(status := Waiting);
    }
  }

  lemma DrainKeeps(s: System)
    requires Sound(s) && s.process.Some?
    ensures Sound(Drain(s))
  {
    hide CommandOk, LayersOk, VersionOk, RowOk, Drain, ObeyAll;
    DrainObeysAll(s);
    ObeyAllKeeps(s.env, s.process.value, Queue(s), s.db.row);
    SameCommandsOk(s.db.commands, Drain(s).db.commands, s.db.row);
  }

  lemma SyncKeeps(s: System)
    requires Sound(s) && s.process.Some?
    ensures Sound(SyncConfig(s))
  {
    hide CommandOk, RowOk, Report, WithIdentity, ApplyPatch, Layered;
    if s.db.row.Some? {
      RowStorable(s.env, s.db.row.value);
      ApplyKeepsLayers(s.env, s.process.value, s.db.row.value.config, s.db.row);
    }
  }

  lemma RowStorable(env: Environment, row: StateRow)
    requires RowOk(env, row)
    ensures WithIdentity(row.config) == row.config
  {
  }

  /** What a boot starts from, before it runs what is queued. */
  function Booting(s: System): System {
    ForcedOff(s.(process := Some(NewProcess(s.env, s.db.row))))
  }

  lemma BootDrains(s: System)
    ensures Boot(s) == RecordStart(Drain(Booting(s)))
  {
    hide Drain, Report, ApplyPatch, RecordStart;
  }

  lemma NewProcessOk(env: Environment, row: Option<StateRow>)
    requires row.Some? ==> RowOk(env, row.value)
    ensures LayersOk(env, NewProcess(env, row), row) && VersionOk(NewProcess(env, row), row)
    ensures !NewProcess(env, row).trading
    ensures row.Some? ==>
              var p := ApplyPatch(env, NewProcess(env, row), row.value.config).(trading := false,
                                                                                lastVersion := Some(row.value.version));
              LayersOk(env, p, row) && VersionOk(p, row)
  {
    hide WithIdentity, MergeRuntime;
    if row.Some? {
      ApplyKeepsLayers(env, Process(env.base, false, None, []), row.value.config, row);
      ApplyKeepsLayers(env, NewProcess(env, row), row.value.config, row);
    }
  }

  lemma NewTables(s: System, p: Process, runs: map<SessionId, RunStatus>)
    requires Sound(s) && LayersOk(s.env, p, s.db.row) && VersionOk(p, s.db.row)
    ensures Sound(s.(process := Some(p), db := s.db.(runs := runs)))
  {
    hide LayersOk, VersionOk, CommandOk, RowOk;
  }

  lemma BootingSound(s: System)
    requires Sound(s)
    ensures Sound(Booting(s))
  {
    hide Report, NewProcess, ApplyPatch, RunIdOf, Sound, LayersOk, VersionOk, RowOk;
    SoundParts(s);
    if s.db.row.None? {
      NewProcessOk(s.env, None);
      NewTables(s, NewProcess(s.env, None), Booting(s).db.runs);
    } else {
      DisableKeeps(s);
      var off := s.(db := s.db.(row := Some(s.db.row.value.(enabled := false))));
      SoundParts(off);
      NewProcessOk(s.env, off.db.row);
      BootsAlike(s.env, s.db.row.value);
      NewTables(off, Booting(s).process.value, Booting(s).db.runs);
    }
  }

  /** The overlay does not look at the row's flag. */
  lemma BootsAlike(env: Environment, row: StateRow)
    ensures NewProcess(env, Some(row)) == NewProcess(env, Some(row.(enabled := false)))
  {
  }

  // ---------------------------------------------------------------- API calls

  lemma SavedRow(env: Environment, db: Database, request: Patch, enabled: Option<bool>)
    requires request.Keys <= ParamKeys() && (db.row.Some? ==> RowOk(env, db.row.value))
    ensures var row := SaveConfig(env, db, request, enabled).row;
            && row.Some? && RowOk(env, row.value)
            && (db.row.Some? ==> row.value.version == db.row.value.version + 1
                                 && db.row.value.config.Keys <= row.value.config.Keys)
  {
    hide ParamKeys, WithIdentity, MergeRuntime, SavedPatch;
    SavedPatchesGrow(PatchOf(db), request);
  }

  /** Once a newer version is saved, nothing known about the old one can mislead. */
  lemma NewerRow(s: System, row: StateRow)
    requires Sound(s)
    requires s.db.row.Some? ==> row.version > s.db.row.value.version && s.db.row.value.config.Keys <= row.config.Keys
    ensures CommandsOk(s.db.commands, Some(row))
    ensures s.process.Some? ==> LayersOk(s.env, s.process.value, Some(row)) && VersionOk(s.process.value, Some(row))
  {
    hide WithIdentity, MergeRuntime, Layered, RowOk;
    forall i | 0 <= i < |s.db.commands|
      ensures CommandOk(s.db.commands[i], Some(row))
    {
      assert CommandOk(s.db.commands[i], s.db.row);
    }
  }

  lemma SaveKeeps(s: System, request: Patch, enabled: Option<bool>)
    requires Sound(s) && request.Keys <= ParamKeys()
    ensures Sound(s.(db := SaveConfig(s.env, s.db, request, enabled)))
  {
    hide RowOk, LayersOk, VersionOk, CommandOk, SavedPatch, ParamKeys;
    SavedRow(s.env, s.db, request, enabled);
    NewerRow(s, SaveConfig(s.env, s.db, request, enabled).row.value);
  }

  lemma AppendKeeps(s: System, c: Command, runs: map<SessionId, RunStatus>)
    requires Sound(s) && CommandOk(c, s.db.row) && c.status == Waiting
    ensures Sound(s.(db := s.db.(commands := s.db.commands + [c], runs := runs)))
    ensures Queue(s.(db := s.db.(commands := s.db.commands + [c], runs := runs))) == Queue(s) + [c]
  {
    hide RowOk, LayersOk, VersionOk, CommandOk;
  }

  lemma StartKeeps(s: System, request: Patch)
    requires Sound(s) && request.Keys <= ParamKeys()
    ensures Sound(s.(db := StartCall(s.env, s.db, request)))
    ensures var saved := s.(db := SaveConfig(s.env, s.db, request, Some(true)));
            Queue(s.(db := StartCall(s.env, s.db, request)))
            == Queue(saved) + [Command(Start, saved.db.row.value.config, Some(saved.db.row.value.version), Waiting)]
  {
    hide RowOk, LayersOk, VersionOk, SavedPatch, ParamKeys, UpdateStatus, PauseOthers, Sound, InOrder;
    var saved := s.(db := SaveConfig(s.env, s.db, request, Some(true)));
    SaveKeeps(s, request, Some(true));
    var row := saved.db.row.value;
    assert RowOk(s.env, row) by { SoundParts(saved); }
    RowStorable(s.env, row);
    AppendKeeps(saved, Command(Start, row.config, Some(row.version), Waiting),
                UpdateStatus(PauseOthers(s.db.runs, row.runId), row.runId, Running));
  }

  lemma SoundParts(s: System)
    requires Sound(s)
    ensures InOrder(s) && (s.db.row.Some? ==> RowOk(s.env, s.db.row.value)) && CommandsOk(s.db.commands, s.db.row)
    ensures s.process.Some? ==> LayersOk(s.env, s.process.value, s.db.row) && VersionOk(s.process.value, s.db.row)
  {
  }

  lemma DisableKeeps(s: System)
    requires Sound(s) && s.db.row.Some?
    ensures Sound(s.(db := s.db.(row := Some(s.db.row.value.(enabled := false)))))
  {
    hide WithIdentity, MergeRuntime, Layered, InOrder;
    var row := Some(s.db.row.value.(enabled := false));
    forall i | 0 <= i < |s.db.commands|
      ensures CommandOk(s.db.commands[i], row)
    {
      assert CommandOk(s.db.commands[i], s.db.row);
    }
    assert InOrder(s.(db := s.db.(row := row))) by { OrderIgnoresRow(s, row); }
  }

  lemma OrderIgnoresRow(s: System, row: Option<StateRow>)
    requires InOrder(s)
    ensures InOrder(s.(db := s.db.(row := row)))
  {
  }

  lemma StopKeeps(s: System)
    requires Sound(s)
    ensures Sound(s.(db := StopCall(s.db)))
    ensures var c := if s.db.row.None? then Command(Stop, map[], None, Waiting)
                     else Command(Stop, s.db.row.value.config, Some(s.db.row.value.version), Waiting);
            Queue(s.(db := StopCall(s.db))) == Queue(s) + [c]
  {
    hide RowOk, LayersOk, VersionOk, UpdateStatus, Sound;
    SoundParts(s);
    if s.db.row.None? {
      AppendKeeps(s, Command(Stop, map[], None, Waiting), s.db.runs);
    } else {
      var row := s.db.row.value;
      var off := s.(db := s.db.(row := Some(row.(enabled := false))));
      DisableKeeps(s);
      AppendKeeps(off, Command(Stop, row.config, Some(row.version), Waiting), UpdateStatus(s.db.runs, row.runId, Paused));
    }
  }

  // ---------------------------------------------------------------- every run is sound

  lemma RunsDoNotMatter(s: System, runs: map<SessionId, RunStatus>)
    requires Sound(s)
    ensures Sound(s.(db := s.db.(runs := runs)))
    ensures Sound(s.(process := None, db := s.db.(runs := runs)))
  {
    hide RowOk, LayersOk, VersionOk, CommandOk;
  }

  lemma StepKeepsSound(s: System, step: Step)
    requires Sound(s) && Allowed(s, step)
    ensures Sound(Apply(s, step))
  {
    hide Sound, SaveConfig, StartCall, StopCall, Drain, SyncConfig, ParamKeys, Booting, Boot;
    match step
    case Save(request, enabled) => SaveKeeps(s, request, enabled);
    case ApiStart(request) => StartKeeps(s, request);
    case ApiStop => StopKeeps(s);
    case EnqueueUnknown => AppendKeeps(s, Command(Unknown, map[], None, Waiting), s.db.runs);
    case EnginePoll =>
      DrainKeeps(s);
      SyncKeeps(Drain(s));
    case EngineBoot =>
      BootDrains(s);
      BootingSound(s);
      BootingRuns(s);
      DrainKeeps(Booting(s));
      RunsDoNotMatter(Drain(Booting(s)), RecordStart(Drain(Booting(s))).db.runs);
    case Shutdown => RunsDoNotMatter(s, UpdateStatus(s.db.runs, RunIdOf(s.process.value.cfg), Stopped));
    case Crash => RunsDoNotMatter(s, s.db.runs);
  }

  lemma BootingRuns(s: System)
    ensures Booting(s).process.Some? && !Booting(s).process.value.trading
  {
  }

  lemma {:induction false} RunKeepsSound(s: System, steps: seq<Step>)
    requires Initial(s) && AllowedRun(s, steps)
    ensures Sound(Run(s, steps))
  {
    hide Apply, Allowed;
    if steps != [] {
      RunKeepsSound(s, steps[..|steps| - 1]);
      StepKeepsSound(Run(s, steps[..|steps| - 1]), steps[|steps| - 1]);
    }
  }
}
