/** Control agreement and the single running session, over every interleaving of API calls, polls and boots. */
module ControlAgreement {
  import opened Domain
  import opened RuntimeConfig
  import opened LayeredConfig
  import opened RuntimeControl
  import opened ControlInvariants

  // ---------------------------------------------------------------- the last start or stop decides

  function LastOrder(commands: seq<Command>): Option<Command> {
    if commands == [] then None
    else if commands[|commands| - 1].action != Unknown then Some(commands[|commands| - 1])
    else LastOrder(commands[..|commands| - 1])
  }

  lemma {:induction false} LastOrderDecides(env: Environment, p: Process, commands: seq<Command>, row: Option<StateRow>)
    requires CommandsOk(commands, row)
    ensures var q, o := ObeyAll(env, p, commands), LastOrder(commands);
            && q.trading == (if o.Some? then o.value.action == Start else p.trading)
            && (o.Some? && o.value.action == Start ==> q.lastVersion == o.value.version)
  {
    if commands != [] {
      var before, c := commands[..|commands| - 1], commands[|commands| - 1];
      assert commands == before + [c];
      LastOrderDecides(env, p, before, row);
      ObeyAllAppend(env, p, before, c);
      assert CommandOk(c, row);
    }
  }

  /** The engine once it has obeyed what is queued. */
  function Caught(s: System): Process
    requires s.process.Some? && |s.journal| <= |s.db.commands|
  {
    ObeyAll(s.env, s.process.value, Queue(s))
  }

  lemma CaughtOk(s: System)
    requires Sound(s) && s.process.Some?
    ensures LayersOk(s.env, Caught(s), s.db.row) && VersionOk(Caught(s), s.db.row) && CommandsOk(Queue(s), s.db.row)
  {
    hide LayersOk, VersionOk, CommandOk, RowOk;
    ObeyAllKeeps(s.env, s.process.value, Queue(s), s.db.row);
  }

  /** The boot that leaves the engine trading while the row says off: a start carrying the row's own version is
      the last order in the queue, and will be obeyed after trading was forced off. */
  predicate Misled(s: System) {
    && s.db.row.Some? && |s.journal| <= |s.db.commands|
    && var o := LastOrder(Queue(s));
    && o.Some? && o.value.action == Start && o.value.version == Some(s.db.row.value.version)
  }

  /** The last boot was misled, and nothing was saved, started or stopped since. */
  predicate Stuck(s: System, steps: seq<Step>) {
    if steps == [] then false
    else
      match steps[|steps| - 1]
      case EngineBoot => Misled(Run(s, steps[..|steps| - 1]))
      case EnginePoll => Stuck(s, steps[..|steps| - 1])
      case EnqueueUnknown => Stuck(s, steps[..|steps| - 1])
      case _ => false
  }

  predicate CaughtAgrees(s: System)
    requires s.process.Some? && |s.journal| <= |s.db.commands|
  {
    Agrees(Caught(s), s.db.row)
  }

  lemma DrainedCaught(s: System)
    requires Sound(s) && s.process.Some?
    ensures var d := Drain(s);
            d.process == Some(Caught(s)) && d.db.row == s.db.row && |d.journal| == |d.db.commands|
            && Caught(d) == d.process.value && d.env == s.env && Sound(d)
  {
    hide CommandOk, LayersOk, VersionOk, RowOk, Drain, Obey;
    DrainObeysAll(s);
    DrainKeeps(s);
  }

  lemma PollAgrees(s: System)
    requires Sound(s) && s.process.Some?
    ensures var t := Poll(s);
            && |t.journal| == |t.db.commands|
            && (CaughtAgrees(t) <==> CaughtAgrees(s))
            && (t.db.row.Some? ==> t.process.value.lastVersion == Some(t.db.row.value.version))
            && t.db.row == s.db.row && t.db.commands == Drain(s).db.commands && t.journal == Drain(s).journal
            && Caught(t) == t.process.value
  {
    hide Drain, Sound, Report, ApplyPatch;
    DrainedCaught(s);
  }

  lemma BootAgrees(s: System)
    requires Sound(s)
    ensures var t := Boot(s);
            t.process.Some? && |t.journal| == |t.db.commands| && (CaughtAgrees(t) <==> !Misled(s))
  {
    hide Drain, Sound, ApplyPatch, Report, CommandOk, RowOk, LayersOk, VersionOk;
    var b := Booting(s);
    BootDrains(s);
    BootingSound(s);
    SoundParts(b);
    BootingRuns(s);
    DrainedCaught(b);
    CaughtOk(b);
    LastOrderDecides(b.env, b.process.value, Queue(b), b.db.row);
  }

  lemma SaveAgrees(s: System, request: Patch, enabled: Option<bool>)
    requires Sound(s) && s.process.Some? && request.Keys <= ParamKeys()
    ensures var t := s.(db := SaveConfig(s.env, s.db, request, enabled));
            Caught(t) == Caught(s) && Caught(t).lastVersion != Some(t.db.row.value.version) && CaughtAgrees(t)
  {
    hide ObeyAll, SavedPatch, LayersOk, CommandOk, ParamKeys;
    CaughtOk(s);
    SavedRow(s.env, s.db, request, enabled);
  }

  lemma StartAgrees(s: System, request: Patch)
    requires Sound(s) && s.process.Some? && request.Keys <= ParamKeys()
    ensures CaughtAgrees(s.(db := StartCall(s.env, s.db, request)))
  {
    hide ObeyAll, SavedPatch, Sound, ParamKeys, UpdateStatus, PauseOthers, ApplyPatch;
    var saved := s.(db := SaveConfig(s.env, s.db, request, Some(true)));
    StartKeeps(s, request);
    SaveKeeps(s, request, Some(true));
    SoundParts(saved);
    ObeyAllAppend(s.env, s.process.value, Queue(saved), Command(Start, saved.db.row.value.config,
                                                                Some(saved.db.row.value.version), Waiting));
  }

  lemma StopAgrees(s: System)
    requires Sound(s) && s.process.Some?
    ensures CaughtAgrees(s.(db := StopCall(s.db)))
  {
    hide ObeyAll, UpdateStatus, Sound;
    SoundParts(s);
    StopKeeps(s);
    var t := s.(db := StopCall(s.db));
    var c := Queue(t)[|Queue(s)|];
    ObeyAllAppend(s.env, s.process.value, Queue(s), c);
  }

  lemma UnknownAgrees(s: System)
    requires Sound(s) && s.process.Some?
    ensures CaughtAgrees(Apply(s, EnqueueUnknown)) == CaughtAgrees(s)
  {
    hide ObeyAll, Sound;
    SoundParts(s);
    var c := Command(Unknown, map[], None, Waiting);
    AppendKeeps(s, c, s.db.runs);
    ObeyAllAppend(s.env, s.process.value, Queue(s), c);
  }

  lemma {:induction false} StuckExactlyWhenNot(s: System, steps: seq<Step>)
    requires Initial(s) && AllowedRun(s, steps) && Run(s, steps).process.Some?
    ensures InOrder(Run(s, steps)) && (CaughtAgrees(Run(s, steps)) <==> !Stuck(s, steps))
  {
    hide Sound, InOrder, SaveConfig, StartCall, StopCall, Poll, ParamKeys, Boot, Misled, CaughtAgrees, UpdateStatus;
    RunKeepsSound(s, steps);
    SoundParts(Run(s, steps));
    if steps == [] {
      assert false;
    } else {
      var before, last := steps[..|steps| - 1], steps[|steps| - 1];
      var b := Run(s, before);
      RunKeepsSound(s, before);
      if last.EngineBoot? {
        BootAgrees(b);
      } else if b.process.Some? {
        StuckExactlyWhenNot(s, before);
        match last
        case Save(request, enabled) => SaveAgrees(b, request, enabled);
        case ApiStart(request) => StartAgrees(b, request);
        case ApiStop => StopAgrees(b);
        case EnqueueUnknown => UnknownAgrees(b);
        case EnginePoll => PollAgrees(b);
        case Shutdown => assert false;
        case Crash => assert false;
      }
    }
  }

  // ---------------------------------------------------------------- control agreement

  /** What the API shows as the configuration in force. */
  function Effective(env: Environment, row: StateRow): Tree {
    if row.config == map[] then env.base else MergeRuntime(env.align, env.base, row.config)
  }

  lemma EngineHoldsEffective(env: Environment, p: Process, row: StateRow)
    requires LayersOk(env, p, Some(row)) && VersionOk(p, Some(row)) && p.lastVersion == Some(row.version)
    requires WithIdentity(row.config) == row.config
    ensures AgreeButPoll(p.cfg, Effective(env, row))
    ensures PollSeconds(p.cfg) >= PollSeconds(Effective(env, row))
  {
    hide WithIdentity, MergeRuntime, WithoutPoll, PollSeconds;
    if row.config != map[] {
      var n := |p.layers| - 1;
      var earlier := p.layers[..n];
      assert p.layers == earlier + [row.config];
      assert AllWithin(earlier, row.config) by {
        assert forall i :: 0 <= i < n ==> earlier[i] == p.layers[i];
      }
      LayeredEqualsOneShot(env.align, env.base, earlier, row.config);
      PollAgreesIff(env.align, env.base, earlier, row.config);
    }
  }

  /** After every poll with a saved row: nothing is pending and every command ever queued ran exactly once, in id
      order; the engine knows the row's version and holds the configuration the API shows, apart from a poll
      interval that is never below the API's; and it trades exactly when the row says so, unless the last boot
      was misled and nothing was saved, started or stopped since. */
  lemma AgreesAfterPoll(s: System, steps: seq<Step>)
    requires Initial(s) && AllowedRun(s, steps) && Run(s, steps).process.Some?
    ensures var t := Run(s, steps + [EnginePoll]);
            && t.process.Some? && t.journal == seq(|t.db.commands|, i => i)
            && (forall i :: 0 <= i < |t.db.commands| ==> t.db.commands[i].status == Finished(t.db.commands[i]))
            && (t.db.row.Some? ==>
                  var p, row := t.process.value, t.db.row.value;
                  && p.lastVersion == Some(row.version)
                  && AgreeButPoll(p.cfg, Effective(t.env, row))
                  && PollSeconds(p.cfg) >= PollSeconds(Effective(t.env, row))
                  && (p.trading == row.enabled <==> !Stuck(s, steps)))
  {
    hide Apply, Sound, WithIdentity, Effective, PollSeconds, AgreeButPoll, LayersOk, VersionOk, CommandOk, ObeyAll;
    var all := steps + [EnginePoll];
    assert all[..|all| - 1] == steps;
    var b, t := Run(s, steps), Run(s, all);
    assert t == Poll(b) by { PollStep(b); }
    RunKeepsSound(s, steps);
    RunKeepsSound(s, all);
    SoundParts(t);
    PollAgrees(b);
    StuckExactlyWhenNot(s, steps);
    if t.db.row.Some? {
      RowStorable(t.env, t.db.row.value);
      EngineHoldsEffective(t.env, t.process.value, t.db.row.value);
    }
  }

  lemma PollStep(s: System)
    requires s.process.Some?
    ensures Apply(s, EnginePoll) == Poll(s)
  {
    hide Poll;
  }

  /** Reachable: a start issued while the engine is down. The next boot switches the row off, obeys the start, and
      polling never repairs it. */
  lemma StartBeforeBootMisleads(s: System, request: Patch)
    requires Initial(s) && request.Keys <= ParamKeys()
    ensures var t := Run(s, [ApiStart(request), EngineBoot, EnginePoll]);
            t.process.Some? && t.db.row.Some? && t.process.value.trading && !t.db.row.value.enabled
  {
    hide SavedPatch, WithIdentity, MergeRuntime, ParamKeys, RunIdOf, Boot, Poll, Effective, PollSeconds, AgreeButPoll;
    var started := Apply(s, ApiStart(request));
    var steps := [ApiStart(request), EngineBoot];
    assert [ApiStart(request)][..0] == [] && steps[..1] == [ApiStart(request)];
    assert Run(s, [ApiStart(request)]) == started;
    assert Run(s, steps) == Boot(started);
    assert steps + [EnginePoll] == [ApiStart(request), EngineBoot, EnginePoll];
    assert AllowedRun(s, [ApiStart(request)]);
    RunKeepsSound(s, [ApiStart(request)]);
    OneStartQueued(s, request);
    BootRow(started);
    AgreesAfterPoll(s, steps);
    PollRow(s, steps);
  }

  lemma OneStartQueued(s: System, request: Patch)
    requires Initial(s) && request.Keys <= ParamKeys()
    ensures Misled(Apply(s, ApiStart(request)))
  {
    hide SavedPatch, MergeRuntime, ParamKeys, RunIdOf;
    var t := Apply(s, ApiStart(request));
    assert Queue(t) == [Command(Start, t.db.row.value.config, Some(t.db.row.value.version), Waiting)];
  }

  lemma BootRow(s: System)
    requires Sound(s) && s.db.row.Some?
    ensures var t := Boot(s); t.process.Some? && t.db.row.Some? && !t.db.row.value.enabled
  {
    hide Sound, Drain, Report, ApplyPatch;
    BootDrains(s);
    BootingSound(s);
    BootingRuns(s);
    DrainedCaught(Booting(s));
  }

  lemma PollRow(s: System, steps: seq<Step>)
    requires Initial(s) && AllowedRun(s, steps) && Run(s, steps).process.Some?
    ensures Run(s, steps + [EnginePoll]).db.row == Run(s, steps).db.row
  {
    hide Apply, Sound, Poll;
    assert (steps + [EnginePoll])[..|steps|] == steps;
    RunKeepsSound(s, steps);
    PollStep(Run(s, steps));
    PollAgrees(Run(s, steps));
  }

  // ---------------------------------------------------------------- the running session

  ghost predicate AtMostOneRunning(runs: map<SessionId, RunStatus>) {
    forall a, b :: a in runs && b in runs && runs[a] == Running && runs[b] == Running ==> a == b
  }

  /** The engine's own session is shown as running exactly when it trades. */
  predicate Mirrors(p: Process, runs: map<SessionId, RunStatus>) {
    p.trading <==> RunIdOf(p.cfg) in runs && runs[RunIdOf(p.cfg)] == Running
  }

  predicate HasOrder(queue: seq<Command>) {
    LastOrder(queue).Some?
  }

  lemma {:induction false} FirstOrRest(queue: seq<Command>)
    requires queue != []
    ensures HasOrder(queue) <==> queue[0].action != Unknown || HasOrder(queue[1..])
  {
    if |queue| > 1 {
      FirstOrRest(queue[..|queue| - 1]);
      assert queue[1..][..|queue| - 2] == queue[..|queue| - 1][1..];
    }
  }

  lemma ReportMirrors(runs: map<SessionId, RunStatus>, own: SessionId, trading: bool, reported: SessionId)
    requires AtMostOneRunning(runs)
    ensures var r := Report(runs, own, trading, reported);
            AtMostOneRunning(r) && (trading <==> own in r && r[own] == Running)
  {
  }

  lemma {:induction false} DrainMirrors(s: System)
    requires s.process.Some? && InOrder(s) && AtMostOneRunning(s.db.runs)
    ensures var d := Drain(s);
            && AtMostOneRunning(d.db.runs)
            && (HasOrder(Queue(s)) || Mirrors(s.process.value, s.db.runs) ==> Mirrors(d.process.value, d.db.runs))
            && (!HasOrder(Queue(s)) ==> d.process == s.process && d.db.runs == s.db.runs)
    decreases |s.db.commands| - |s.journal|
  {
    hide Report, AtMostOneRunning, HasOrder, RunIdOf, ApplyPatch;
    NextIsFirst(s);
    if |s.journal| < |s.db.commands| {
      var next := Execute(s, |s.journal|);
      ExecuteKeepsOrder(s);
      assert Queue(next) == Queue(s)[1..];
      FirstOrRest(Queue(s));
      var p := next.process.value;
      ReportMirrors(s.db.runs, RunIdOf(p.cfg), p.trading, RunIdOf(p.cfg));
      DrainMirrors(next);
    } else {
      assert Queue(s) == [];
      assert !HasOrder(Queue(s)) by { NoOrders(); }
    }
  }

  lemma NoOrders()
    ensures !HasOrder([])
  {
  }

  /** Nothing between the engine and the row: no order queued, the row's version known. */
  predicate Quiet(s: System) {
    && s.process.Some? && |s.journal| <= |s.db.commands| && !HasOrder(Queue(s))
    && (s.db.row.Some? ==> s.process.value.lastVersion == Some(s.db.row.value.version))
  }

  ghost predicate SessionOk(s: System) {
    && AtMostOneRunning(s.db.runs)
    && (Quiet(s) ==> Mirrors(s.process.value, s.db.runs))
  }

  lemma PollMirrors(s: System)
    requires Sound(s) && s.process.Some? && SessionOk(s)
    ensures var t := Poll(s); SessionOk(t) && t.process.Some? && Mirrors(t.process.value, t.db.runs)
  {
    hide Sound, Drain, Report, ApplyPatch, RunIdOf, HasOrder, AtMostOneRunning;
    SoundParts(s);
    DrainMirrors(s);
    DrainedCaught(s);
    var d := Drain(s);
    if d.db.row.Some? {
      var row := d.db.row.value;
      ReportMirrors(d.db.runs, RunIdOf(ApplyPatch(d.env, d.process.value, row.config).cfg), row.enabled, row.runId);
    }
  }

  lemma BootMirrors(s: System)
    requires Sound(s) && SessionOk(s)
    ensures var t := Boot(s); SessionOk(t) && t.process.Some? && Mirrors(t.process.value, t.db.runs)
  {
    hide Sound, Drain, Report, ApplyPatch, RunIdOf, HasOrder, Booting;
    BootDrains(s);
    BootingSound(s);
    BootingMirrors(s);
    SoundParts(Booting(s));
    DrainMirrors(Booting(s));
  }

  lemma BootingMirrors(s: System)
    requires SessionOk(s)
    ensures var b := Booting(s);
            b.process.Some? && AtMostOneRunning(b.db.runs) && Mirrors(b.process.value, b.db.runs)
  {
    hide Report, ApplyPatch, RunIdOf, AtMostOneRunning;
    var own := RunIdOf(Booting(s).process.value.cfg);
    ReportMirrors(s.db.runs, own, false, if s.db.row.Some? then s.db.row.value.runId else own);
  }

  lemma OrderQueued(queue: seq<Command>, c: Command)
    ensures HasOrder(queue + [c]) <==> c.action != Unknown || HasOrder(queue)
  {
    assert (queue + [c])[..|queue|] == queue;
  }

  lemma StepKeepsSession(s: System, step: Step)
    requires Sound(s) && Allowed(s, step) && SessionOk(s)
    ensures SessionOk(Apply(s, step))
  {
    hide Sound, Drain, ObeyAll, SavedPatch, RunIdOf, Poll, Boot, HasOrder, ParamKeys, MergeRuntime, LayersOk;
    match step
    case Save(request, enabled) =>
      SoundParts(s);
      SavedRow(s.env, s.db, request, enabled);
    case ApiStart(request) =>
      StartKeeps(s, request);
      var saved := s.(db := SaveConfig(s.env, s.db, request, Some(true)));
      SaveKeeps(s, request, Some(true));
      SoundParts(saved);
      OrderQueued(Queue(saved), Command(Start, saved.db.row.value.config, Some(saved.db.row.value.version), Waiting));
    case ApiStop =>
      StopKeeps(s);
      SoundParts(s);
      OrderQueued(Queue(s), Queue(Apply(s, ApiStop))[|Queue(s)|]);
    case EnqueueUnknown =>
      SoundParts(s);
      AppendKeeps(s, Command(Unknown, map[], None, Waiting), s.db.runs);
      OrderQueued(Queue(s), Command(Unknown, map[], None, Waiting));
    case EnginePoll => PollMirrors(s);
    case EngineBoot => BootMirrors(s);
    case Shutdown =>
    case Crash =>
  }

  /** At most one session is ever shown running, whatever run ids the saved patches switch between; and after a
      poll or a boot the engine's own session is the running one exactly when it trades. */
  lemma {:induction false} SingleRunningSession(s: System, steps: seq<Step>)
    requires Initial(s) && AllowedRun(s, steps)
    ensures var t := Run(s, steps);
            && SessionOk(t)
            && (steps != [] && steps[|steps| - 1] in {EnginePoll, EngineBoot} ==>
                  t.process.Some? && Mirrors(t.process.value, t.db.runs))
  {
    hide Apply, Sound, Allowed, SessionOk, Mirrors, Poll, Boot;
    if steps == [] {
      assert SessionOk(s) by { FreshSession(s); }
    } else {
      var before, last := steps[..|steps| - 1], steps[|steps| - 1];
      SingleRunningSession(s, before);
      RunKeepsSound(s, before);
      StepKeepsSession(Run(s, before), last);
      if last.EnginePoll? {
        assert Allowed(Run(s, before), EnginePoll) && Run(s, before).process.Some? by { PollAllowed(Run(s, before)); }
        PollStep(Run(s, before));
        PollMirrors(Run(s, before));
      } else if last.EngineBoot? {
        BootStep(Run(s, before));
        BootMirrors(Run(s, before));
      }
    }
  }

  lemma BootStep(s: System)
    ensures Apply(s, EngineBoot) == Boot(s)
  {
    hide Boot;
  }

  lemma PollAllowed(s: System)
    ensures Allowed(s, EnginePoll) <==> s.process.Some?
  {
  }

  lemma FreshSession(s: System)
    requires Initial(s)
    ensures SessionOk(s)
  {
  }
}
