/** The two processes as they are written: repositories that rewrite rows in place, a service that
    the API calls, and the poller inside the engine loop. Each is proved equal to its function in
    RuntimeControl. */
module ControlProcesses {
  import opened Domain
  import opened RuntimeConfig
  import opened RuntimeControl

  /** The tables both processes open: engine_runtime_state, engine_command, engine_run. */
  class ControlDatabase {
    var row: Option<StateRow>
    var commands: seq<Command>
    var runs: map<SessionId, RunStatus>

    function View(): Database reads this {
      Database(row, commands, runs)
    }

    constructor ()
      ensures View() == Database(None, [], map[])
    {
      row, commands, runs := None, [], map[];
    }

    method Upsert(r: StateRow)
      modifies this
      ensures View() == old(View()).(row := Some(r))
    {
      row := Some(r);
    }

    method Enqueue(action: CommandAction, config: Patch, version: Option<nat>) returns (id: nat)
      modifies this
      ensures id == |old(commands)|
      ensures View() == old(View()).(commands := old(commands) + [Command(action, config, version, Waiting)])
    {
      id := |commands|;
      commands := commands + [Command(action, config, version, Waiting)];
    }

    /** The pending command with the lowest id. */
    method ClaimPending() returns (id: Option<nat>)
      ensures id == FirstPending(commands)
    {
      var i := 0;
      while i < |commands|
        invariant i <= |commands|
        invariant FirstPending(commands[..i]) == None
      {
        assert commands[..i + 1][..i] == commands[..i];
        if commands[i].status == Waiting {
          FirstPendingExtends(commands, i + 1);
          return Some(i);
        }
        i := i + 1;
      }
      assert commands[..i] == commands;
      id := None;
    }

    method MarkDone(id: nat, failed: bool)
      requires id < |commands|
      modifies this
      ensures View() == old(View()).(commands := old(commands)[id := old(commands)[id].(status := if failed then Failed else Done)])
    {
      commands := commands[id := commands[id].(status := if failed then Failed else Done)];
    }

    method CreateRun(id: SessionId, trading: bool)
      modifies this
      ensures View() == old(View()).(runs := old(runs)[id := StatusOf(trading)])
    {
      runs := runs[id := StatusOf(trading)];
    }

    method SetRunStatus(id: SessionId, status: RunStatus)
      modifies this
      ensures View() == old(View()).(runs := UpdateStatus(old(runs), id, status))
    {
      if id in runs {
        runs := runs[id := status];
      }
    }

    method PauseOtherRunning(except: SessionId)
      modifies this
      ensures View() == old(View()).(runs := PauseOthers(old(runs), except))
    {
      var running := set id | id in runs && runs[id] == Running && id != except;
      while running != {}
        invariant View() == old(View()).(runs := runs)
        invariant runs.Keys == old(runs).Keys && running <= runs.Keys
        invariant forall id :: id in runs ==>
                    runs[id] == if id in running then Running else PauseOthers(old(runs), except)[id]
        decreases running
      {
        var id :| id in running;
        runs := runs[id := Paused];
        running := running - {id};
      }
    }

    /** set_engine_run_trading_active: the API's half of keeping one session running. */
    method SetEngineRunTradingActive(id: SessionId, active: bool)
      modifies this
      ensures View() == old(View()).(runs := UpdateStatus(if active then PauseOthers(old(runs), id) else old(runs), id,
                                                          StatusOf(active)))
    {
      if active {
        PauseOtherRunning(id);
      }
      SetRunStatus(id, StatusOf(active));
    }
  }

  lemma {:induction false} FirstPendingExtends(commands: seq<Command>, n: nat)
    requires n <= |commands| && FirstPending(commands[..n]).Some?
    ensures FirstPending(commands) == FirstPending(commands[..n])
    decreases |commands|
  {
    if n == |commands| {
      assert commands[..n] == commands;
    } else {
      var shorter := commands[..|commands| - 1];
      assert shorter[..n] == commands[..n];
      FirstPendingExtends(shorter, n);
    }
  }

  class RuntimeControlService {
    const db: ControlDatabase
    const env: Environment

    constructor (db: ControlDatabase, env: Environment)
      ensures this.db == db && this.env == env
    {
      this.db, this.env := db, env;
    }

    method Save(request: Patch, enabled: Option<bool>) returns (row: StateRow)
      modifies db
      ensures db.View() == SaveConfig(env, old(db.View()), request, enabled)
      ensures db.View().row == Some(row)
    {
      hide SavedPatch, MergeRuntime, RunIdOf;
      var previous: Patch := map[];
      var version := 1;
      var on := false;
      if db.row.Some? {
        previous := db.row.value.config;
        version := db.row.value.version + 1;
        on := db.row.value.enabled;
      }
      if enabled.Some? {
        on := enabled.value;
      }
      var saved := SavedPatch(previous, request);
      var effective := MergeRuntimeConfig(env.align, env.base, saved);
      row := StateRow(RunIdOf(effective), saved, version, on);
      db.Upsert(row);
    }

    method StartTrading(request: Patch) returns (id: nat)
      modifies db
      ensures db.View() == StartCall(env, old(db.View()), request) && id == |old(db.commands)|
    {
      var row := Save(request, Some(true));
      id := db.Enqueue(Start, row.config, Some(row.version));
      db.SetEngineRunTradingActive(row.runId, true);
    }

    method StopTrading() returns (id: nat)
      modifies db
      ensures db.View() == StopCall(old(db.View())) && id == |old(db.commands)|
    {
      if db.row.None? {
        id := db.Enqueue(Stop, map[], None);
      } else {
        var row := db.row.value;
        id := db.Enqueue(Stop, row.config, Some(row.version));
        db.Upsert(row.(enabled := false));
        db.SetEngineRunTradingActive(row.runId, false);
      }
    }
  }

  /** The poller and the part of the engine it drives. */
  class RuntimeControlPoller {
    const db: ControlDatabase
    const env: Environment
    var cfg: Tree
    var trading: bool
    var lastVersion: Option<nat>
    ghost var layers: seq<Patch>
    ghost var journal: seq<nat>

    ghost function View(): System reads this, db {
      System(env, db.View(), Some(Process(cfg, trading, lastVersion, layers)), journal)
    }

    constructor (db: ControlDatabase, env: Environment, ghost executed: seq<nat>)
      ensures this.db == db && this.env == env
      ensures View() == System(env, db.View(), Some(NewProcess(env, db.row)), executed)
    {
      hide MergeRuntime;
      this.db, this.env := db, env;
      cfg, trading, lastVersion, layers, journal := env.base, false, None, [], executed;
      new;
      if db.row.Some? {
        ApplyRuntimeConfig(db.row.value.config);
      }
    }

    method ApplyRuntimeConfig(patch: Patch)
      modifies this
      ensures View() == old(View()).(process := Some(ApplyPatch(env, old(View()).process.value, patch)))
    {
      if patch != map[] {
        cfg := MergeRuntimeConfig(env.align, cfg, patch);
        layers := layers + [patch];
      }
    }

    method SyncEngineRunTradingStatus(on: bool, reported: Option<SessionId>)
      modifies db
      ensures var own := RunIdOf(cfg);
              db.View() == old(db.View()).(runs := Report(old(db.runs), own, on, if reported.Some? then reported.value else own))
    {
      var own := RunIdOf(cfg);
      db.CreateRun(own, on);
      if on {
        db.PauseOtherRunning(own);
      } else {
        var id := if reported.None? || reported.value == Text("") || reported.value == Null then own else reported.value;
        db.SetRunStatus(id, Paused);
      }
    }

    method ProcessCommand(id: nat)
      requires id < |db.commands|
      modifies this, db
      ensures View() == Execute(old(View()), id)
    {
      var c := db.commands[id];
      var failed := false;
      match c.action {
        case Start =>
          ApplyRuntimeConfig(c.config);
          trading := true;
          if c.version.Some? {
            lastVersion := c.version;
          }
          SyncEngineRunTradingStatus(true, None);
        case Stop =>
          trading := false;
          SyncEngineRunTradingStatus(false, None);
        case Unknown =>
          failed := true;
      }
      db.MarkDone(id, failed);
      journal := journal + [id];
    }

    method ProcessCommands()
      modifies this, db
      ensures View() == Drain(old(View()))
    {
      while true
        invariant View().process.Some? && Drain(View()) == Drain(old(View()))
        decreases PendingCount(db.commands)
      {
        ghost var before := View();
        var next := db.ClaimPending();
        if next.None? {
          break;
        }
        FirstPendingIsFirst(db.commands);
        var c := db.commands[next.value];
        SettlingLowersCount(db.commands, next.value, c.(status := if c.action == Unknown then Failed else Done));
        ProcessCommand(next.value);
        assert Drain(before) == Drain(Execute(before, next.value));
      }
    }

    method SyncConfigVersion()
      modifies this, db
      ensures View() == SyncConfig(old(View()))
    {
      if db.row.None? || lastVersion == Some(db.row.value.version) {
        return;
      }
      var row := db.row.value;
      ApplyRuntimeConfig(row.config);
      trading := row.enabled;
      lastVersion := Some(row.version);
      SyncEngineRunTradingStatus(row.enabled, Some(row.runId));
    }

    method PollOnce()
      modifies this, db
      ensures View() == Poll(old(View()))
    {
      ProcessCommands();
      SyncConfigVersion();
    }

    method StartUp()
      modifies this, db
      ensures View() == SyncOnStartup(old(View()))
    {
      if db.row.None? {
        trading := false;
        SyncEngineRunTradingStatus(false, None);
        ProcessCommands();
        return;
      }
      var row := db.row.value;
      lastVersion := Some(row.version);
      ApplyRuntimeConfig(row.config);
      trading := false;
      if row.enabled {
        db.Upsert(row.(enabled := false));
      }
      SyncEngineRunTradingStatus(false, Some(row.runId));
      ProcessCommands();
    }

    method RecordEngineStart()
      modifies db
      ensures View() == RecordStart(old(View()))
    {
      db.CreateRun(RunIdOf(cfg), trading);
    }
  }
}
