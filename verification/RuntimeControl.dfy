/** How the API process and the engine process share one state row and one command table
    (engine/runtime_control.py, api/services/runtime_control_service.py and the repositories under
    them), as functions on the database and the engine. Each API call, each poll and each boot is
    one step; the steps of the two processes interleave freely. */
module RuntimeControl {
  import opened Domain
  import opened RuntimeConfig

  type SessionId = Value

  datatype RunStatus = Running | Paused | Stopped

  datatype CommandAction = Start | Stop | Unknown

  datatype CommandStatus = Waiting | Done | Failed

  /** A row of engine_command; its id is its place in the table. An absent config is an empty patch. */
  datatype Command = Command(action: CommandAction, config: Patch, version: Option<nat>, status: CommandStatus)

  datatype StateRow = StateRow(runId: SessionId, config: Patch, version: nat, enabled: bool)

  datatype Database = Database(row: Option<StateRow>, commands: seq<Command>, runs: map<SessionId, RunStatus>)

  /** What the engine process holds in memory. The last field decides nothing: the patches applied so far. */
  datatype Process = Process(cfg: Tree, trading: bool, lastVersion: Option<nat>, layers: seq<Patch>)

  /** The environment both processes were started with. */
  datatype Environment = Environment(base: Tree, align: bool)

  /** The journal decides nothing: the ids of the commands executed, in order. */
  datatype System = System(env: Environment, db: Database, process: Option<Process>, journal: seq<nat>)

  // ---------------------------------------------------------------- repositories

  function StatusOf(trading: bool): RunStatus {
    if trading then Running else Paused
  }

  function UpdateStatus(runs: map<SessionId, RunStatus>, id: SessionId, status: RunStatus): map<SessionId, RunStatus> {
    if id in runs then runs[id := status] else runs
  }

  function PauseOthers(runs: map<SessionId, RunStatus>, except: SessionId): map<SessionId, RunStatus> {
    map id | id in runs :: if runs[id] == Running && id != except then Paused else runs[id]
  }

  function FirstPending(commands: seq<Command>): Option<nat> {
    if commands == [] then None
    else
      var earlier := FirstPending(commands[..|commands| - 1]);
      if earlier.Some? then earlier
      else if commands[|commands| - 1].status == Waiting then Some(|commands| - 1)
      else None
  }

  lemma {:induction false} FirstPendingIsFirst(commands: seq<Command>)
    ensures var first := FirstPending(commands);
            if first.Some? then
              && first.value < |commands| && commands[first.value].status == Waiting
              && forall i :: 0 <= i < first.value ==> commands[i].status != Waiting
            else
              forall i :: 0 <= i < |commands| ==> commands[i].status != Waiting
  {
    if commands != [] {
      FirstPendingIsFirst(commands[..|commands| - 1]);
    }
  }

  // ---------------------------------------------------------------- the API

  const DEFAULT_RUN: SessionId := Text("default_run")

  function RunIdOf(cfg: Tree): SessionId {
    var run := Entries(cfg, "run_context");
    if "run_id" in run && run["run_id"].Leaf? then run["run_id"].value else DEFAULT_RUN
  }

  function PatchOf(db: Database): Patch {
    if db.row.Some? then db.row.value.config else map[]
  }

  function SaveConfig(env: Environment, db: Database, request: Patch, enabled: Option<bool>): Database {
    var saved := SavedPatch(PatchOf(db), request);
    var version := if db.row.Some? then db.row.value.version + 1 else 1;
    var on := if enabled.Some? then enabled.value else db.row.Some? && db.row.value.enabled;
    db.(row := Some(StateRow(RunIdOf(MergeRuntime(env.align, env.base, saved)), saved, version, on)))
  }

  function StartCall(env: Environment, db: Database, request: Patch): Database {
    var saved := SaveConfig(env, db, request, Some(true));
    var row := saved.row.value;
    saved.(commands := db.commands + [Command(Start, row.config, Some(row.version), Waiting)],
           runs := UpdateStatus(PauseOthers(db.runs, row.runId), row.runId, Running))
  }

  function StopCall(db: Database): Database {
    if db.row.None? then db.(commands := db.commands + [Command(Stop, map[], None, Waiting)])
    else
      var row := db.row.value;
      Database(Some(row.(enabled := false)), db.commands + [Command(Stop, row.config, Some(row.version), Waiting)],
               UpdateStatus(db.runs, row.runId, Paused))
  }

  // ---------------------------------------------------------------- the engine's side

  function ApplyPatch(env: Environment, p: Process, patch: Patch): Process {
    if patch == map[] then p else p.(cfg := MergeRuntime(env.align, p.cfg, patch), layers := p.layers + [patch])
  }

  /** The engine_run rows after the engine reports its flag; an empty run id means the engine's own. */
  function Report(runs: map<SessionId, RunStatus>, own: SessionId, trading: bool, reported: SessionId): map<SessionId, RunStatus> {
    var recorded := runs[own := StatusOf(trading)];
    if trading then PauseOthers(recorded, own)
    else UpdateStatus(recorded, if reported == Text("") || reported == Null then own else reported, Paused)
  }

  function Obey(env: Environment, p: Process, c: Command): Process {
    match c.action
    case Start =>
      ApplyPatch(env, p, c.config).(trading := true,
                                    lastVersion := if c.version.Some? then c.version else p.lastVersion)
    case Stop => p.(trading := false)
    case Unknown => p
  }

  function Execute(s: System, i: nat): System
    requires s.process.Some? && i < |s.db.commands|
  {
    var c := s.db.commands[i];
    var p := Obey(s.env, s.process.value, c);
    var own := RunIdOf(p.cfg);
    s.(process := Some(p), journal := s.journal + [i],
       db := s.db.(commands := s.db.commands[i := c.(status := if c.action == Unknown then Failed else Done)],
                   runs := if c.action == Unknown then s.db.runs else Report(s.db.runs, own, p.trading, own)))
  }

  function PendingCount(commands: seq<Command>): nat {
    if commands == [] then 0
    else PendingCount(commands[..|commands| - 1]) + if commands[|commands| - 1].status == Waiting then 1 else 0
  }

  lemma {:induction false} SettlingLowersCount(commands: seq<Command>, i: nat, c: Command)
    requires i < |commands| && commands[i].status == Waiting && c.status != Waiting
    ensures PendingCount(commands[i := c]) < PendingCount(commands)
  {
    var n := |commands| - 1;
    if i < n {
      assert commands[i := c][..n] == commands[..n][i := c];
      SettlingLowersCount(commands[..n], i, c);
    } else {
      assert commands[i := c][..n] == commands[..n];
    }
  }

  /** Commands are claimed lowest id first until none is pending. */
  function Drain(s: System): (d: System)
    requires s.process.Some?
    ensures d.process.Some?
    decreases PendingCount(s.db.commands)
  {
    var next := FirstPending(s.db.commands);
    if next.None? then s
    else
      FirstPendingIsFirst(s.db.commands);
      var c := s.db.commands[next.value];
      SettlingLowersCount(s.db.commands, next.value, c.(status := if c.action == Unknown then Failed else Done));
      Drain(Execute(s, next.value))
  }

  function SyncConfig(s: System): System
    requires s.process.Some?
  {
    var p := s.process.value;
    if s.db.row.None? || p.lastVersion == Some(s.db.row.value.version) then s
    else
      var row := s.db.row.value;
      var p1 := ApplyPatch(s.env, p, row.config).(trading := row.enabled, lastVersion := Some(row.version));
      s.(process := Some(p1), db := s.db.(runs := Report(s.db.runs, RunIdOf(p1.cfg), row.enabled, row.runId)))
  }

  function Poll(s: System): System
    requires s.process.Some?
  {
    SyncConfig(Drain(s))
  }

  /** The saved settings apply and trading is forced off, in memory and in the row. */
  function ForcedOff(s: System): (r: System)
    requires s.process.Some?
    ensures r.process.Some?
  {
    var p := s.process.value;
    if s.db.row.None? then
      var own := RunIdOf(p.cfg);
      s.(process := Some(p.(trading := false)), db := s.db.(runs := Report(s.db.runs, own, false, own)))
    else
      var row := s.db.row.value;
      var p1 := ApplyPatch(s.env, p, row.config).(trading := false, lastVersion := Some(row.version));
      s.(process := Some(p1), db := s.db.(row := Some(row.(enabled := false)),
                                          runs := Report(s.db.runs, RunIdOf(p1.cfg), false, row.runId)))
  }

  /** sync_on_startup: forced off, then whatever was already pending. */
  function SyncOnStartup(s: System): (r: System)
    requires s.process.Some?
    ensures r.process.Some?
  {
    Drain(ForcedOff(s))
  }

  /** What engine.start records of the session. */
  function RecordStart(s: System): System
    requires s.process.Some?
  {
    var p := s.process.value;
    s.(db := s.db.(runs := s.db.runs[RunIdOf(p.cfg) := StatusOf(p.trading)]))
  }

  /** bootstrap: the environment's configuration with the saved patch laid over it, trading off. */
  function NewProcess(env: Environment, row: Option<StateRow>): Process {
    ApplyPatch(env, Process(env.base, false, None, []), if row.Some? then row.value.config else map[])
  }

  function Boot(s: System): System {
    RecordStart(SyncOnStartup(s.(process := Some(NewProcess(s.env, s.db.row)))))
  }

  // ---------------------------------------------------------------- interleavings

  datatype Step =
    | Save(request: Patch, enabled: Option<bool>)
    | ApiStart(request: Patch)
    | ApiStop
    | EnqueueUnknown
    | EnginePoll
    | EngineBoot
    | Shutdown
    | Crash

  predicate Allowed(s: System, step: Step) {
    match step
    case Save(request, _) => request.Keys <= ParamKeys()
    case ApiStart(request) => request.Keys <= ParamKeys()
    case EnginePoll => s.process.Some?
    case Shutdown => s.process.Some?
    case _ => true
  }

  function Apply(s: System, step: Step): System {
    match step
    case Save(request, enabled) => s.(db := SaveConfig(s.env, s.db, request, enabled))
    case ApiStart(request) => s.(db := StartCall(s.env, s.db, request))
    case ApiStop => s.(db := StopCall(s.db))
    case EnqueueUnknown => s.(db := s.db.(commands := s.db.commands + [Command(Unknown, map[], None, Waiting)]))
    case EnginePoll => if s.process.None? then s else Poll(s)
    case EngineBoot => Boot(s)
    case Shutdown =>
      if s.process.None? then s
      else s.(process := None, db := s.db.(runs := UpdateStatus(s.db.runs, RunIdOf(s.process.value.cfg), Stopped)))
    case Crash => s.(process := None)
  }

  function Run(s: System, steps: seq<Step>): System {
    if steps == [] then s else Apply(Run(s, steps[..|steps| - 1]), steps[|steps| - 1])
  }

  ghost predicate AllowedRun(s: System, steps: seq<Step>) {
    steps != [] ==>
      AllowedRun(s, steps[..|steps| - 1]) && Allowed(Run(s, steps[..|steps| - 1]), steps[|steps| - 1])
  }

  /** Nothing saved, nothing queued, no session, no engine. */
  predicate Initial(s: System) {
    s.db == Database(None, [], map[]) && s.process == None && s.journal == []
  }
}
