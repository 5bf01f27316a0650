/** Reuse, replace or start a profile's server (managed_runtime.py), with no other controller
    acting. Every effect is a run of the ownership protocol's own steps; the system may still
    end processes and reuse their ids between any two of them. */
module ManagedRuntime {
  import opened Sequences
  import opened Serving

  // -------------------------------------------------------- what was launched, and how

  /** The launch fields, by their names in the record. */
  datatype Field = Exe | Args | Env | ModelDir

  /** Launch fields on which a recorded server differs from the requested one. `resolve` is
      how an executable name becomes a path. */
  function LaunchDifferences(resolve: string -> string, recorded: Launch, plan: Launch): seq<Field> {
    (if resolve(recorded.exe) != resolve(plan.exe) then [Exe] else [])
    + (if recorded.args != plan.args then [Args] else [])
    + (if recorded.env != plan.env then [Env] else [])
    + (if recorded.modelDir != plan.modelDir then [ModelDir] else [])
  }

  /** The two are launched differently in this field. */
  function DiffersOn(resolve: string -> string, a: Launch, b: Launch): Field -> bool {
    (field: Field) => match field
             case Exe => resolve(a.exe) != resolve(b.exe)
             case Args => a.args != b.args
             case Env => a.env != b.env
             case ModelDir => a.modelDir != b.modelDir
  }

  /** Each differing field is named by its own name, in the order of the launch fields. */
  lemma DifferencesExactly(resolve: string -> string, recorded: Launch, plan: Launch)
    ensures LaunchDifferences(resolve, recorded, plan)
         == Filter(DiffersOn(resolve, recorded, plan), [Exe, Args, Env, ModelDir])
  {
    FilterFour(DiffersOn(resolve, recorded, plan), Exe, Args, Env, ModelDir);
  }

  lemma FilterFour<T>(keep: T -> bool, a: T, b: T, c: T, d: T)
    ensures Filter(keep, [a, b, c, d])
         == Filter(keep, [a]) + Filter(keep, [b]) + Filter(keep, [c]) + Filter(keep, [d])
  {
    assert [a, b, c, d] == [a] + [b] + [c] + [d];
    FilterConcat(keep, [a] + [b] + [c], [d]);
    FilterConcat(keep, [a] + [b], [c]);
    FilterConcat(keep, [a], [b]);
  }

  /** No differences means the recorded server was launched exactly as the plan would be. */
  lemma SameLaunch(resolve: string -> string, recorded: Launch, plan: Launch)
    ensures LaunchDifferences(resolve, recorded, plan) == []
        <==> recorded.(exe := resolve(recorded.exe)) == plan.(exe := resolve(plan.exe))
  {}

  // --------------------------------------------------------------------- the result

  datatype Lifecycle = Reused | Started | Replaced | Refused
  datatype ReplacedReason = Dead | Unhealthy | ConfigChanged
  datatype RefusedReason = ForeignEndpoint | StartFailed | NotHealthy

  datatype EnsureResult = EnsureResult(
    lifecycle: Lifecycle, replacedReason: Option<ReplacedReason>, refusedReason: Option<RefusedReason>,
    launchToReady: Option<nat>, changedFields: seq<Field>)

  /** The four checks the result makes of itself when it is built. */
  predicate Consistent(r: EnsureResult) {
    && (r.lifecycle == Replaced <==> r.replacedReason.Some?)
    && (r.lifecycle == Refused <==> r.refusedReason.Some?)
    && (r.launchToReady.Some? ==> r.lifecycle in {Started, Replaced})
    && (r.changedFields != [] ==> r.replacedReason == Some(ConfigChanged))
  }

  datatype Refusal = OwnershipUnclear

  /** What the record asks for: its server as it is, nothing at all, or a new server. */
  datatype Plea = ReuseIt | Unclear | StartAnew(reason: Option<ReplacedReason>, changed: seq<Field>)

  /** What `serve.start` returns: the state it saw, with the time to ready of a server it
      launched; or that it raised. */
  datatype StartOutcome = Up(healthy: bool, launchToReady: Option<nat>) | NotStarted

  /** The system's answers: processes that come and go between steps, whether preflight and
      the record write succeed, which process a launch yields, and what readiness polls say. */
  datatype Luck = Luck(
    noise: nat -> seq<Step>, reachable: bool, preflight: bool, child: Process, recordWritten: bool,
    answers: nat -> bool, polls: nat, millis: nat, readinessWritten: bool)

  /** Nothing comes or goes between the steps. */
  ghost predicate Undisturbed(luck: Luck) { forall i :: luck.noise(i) == [] }

  /** Some readiness poll before the deadline is answered. */
  predicate AnsweredInTime(luck: Luck) { exists k :: 1 <= k <= luck.polls + 1 && luck.answers(k) }

  /** Everything a launch depends on works out. */
  ghost predicate AllGoesWell(luck: Luck) {
    Undisturbed(luck) && luck.preflight && luck.recordWritten && AnsweredInTime(luck)
  }

  // ---------------------------------------------------------------------- the host

  /** Only the system acted: no server came to life, nothing else changed. */
  ghost predicate OnlySystem(w: World, w': World) {
    Quieter(w, w') && w.used <= w'.used
  }

  /** No launched server that was down has come up. */
  ghost predicate NoneRevived(w: World, w': World) {
    forall p :: p in w.launched && Running(w', p) ==> Running(w, p)
  }

  /** This call launched `child` with the requested launch fields, and nothing else launched
      for this profile is still running. */
  ghost predicate LaunchedHere(w: World, w': World, child: Process, launch: Launch) {
    && child !in w.launched && w'.launched == w.launched + {child}
    && w'.record.Some? && w'.record.value.process == child && w'.record.value.launch == launch
    && forall p :: p in w.launched ==> !Running(w', p)
  }

  function Resolved(resolve: string -> string, plan: Launch): Launch { plan.(exe := resolve(plan.exe)) }

  /** Records and history are as they were. */
  ghost predicate Settled(w: World, w': World) {
    w'.record == w.record && w'.launched == w.launched && w'.signalled == w.signalled
  }

  /** The same processes hold the same ids. */
  predicate SameProcesses(w: World, w': World) { w'.os == w.os && w'.used == w.used && w'.record == w.record }

  /** No id was taken and no process was new. */
  predicate NothingNew(w: World, w': World) { w'.os.Keys == w.os.Keys && w'.used == w.used }

  predicate Free(w: World, me: Controller) { w.lock == None && PhaseOf(w, me) == Idle }

  ghost predicate NoLostChild(steps: seq<Step>) { forall s :: s in steps ==> !s.CrashUnrecorded? }

  lemma {:induction false} NoneLost(w: World, steps: seq<Step>)
    requires NoLostChild(steps)
    ensures HarmlessRun(w, steps)
    decreases |steps|
  {
    if steps != [] && Next(w, steps[0]).Some? {
      assert forall s :: s in steps[1..] ==> s in steps;
      NoneLost(Next(w, steps[0]).value, steps[1..]);
    }
  }

  lemma OneMore(origin: World, log: seq<Step>, w: World, s: Step)
    requires After(origin, log) == Some(w) && NoLostChild(log) && !s.CrashUnrecorded?
    ensures After(origin, log + [s]) == Next(w, s) && NoLostChild(log + [s])
  {
    AfterJoin(origin, log, [s]);
    assert [s][1..] == [];
    if Next(w, s).Some? { assert After(Next(w, s).value, []) == Next(w, s); }
  }

  class Host {
    const me: Controller
    const resolve: string -> string
    var w: World
    ghost const origin: World
    ghost var log: seq<Step>

    /** The world is what a run of the protocol made of an initial one. */
    ghost predicate Valid()
      reads this
    {
      Init(origin) && After(origin, log) == Some(w) && NoLostChild(log)
    }

    constructor (w: World, me: Controller, resolve: string -> string)
      requires Init(w)
      ensures Valid() && this.w == w && this.me == me && this.resolve == resolve
    {
      this.w, this.me, this.resolve, origin, log := w, me, resolve, w, [];
    }

    lemma Invariant()
      requires Valid()
      ensures Inv(w)
    {
      InitHolds(origin);
      NoneLost(origin, log);
      RunKeepsInv(origin, log);
    }

    method Do(s: Step)
      requires Valid() && Next(w, s).Some? && !s.CrashUnrecorded?
      modifies this`w, this`log
      ensures Valid() && Some(w) == Next(old(w), s)
    {
      OneMore(origin, log, w, s);
      w, log := Next(w, s).value, log + [s];
    }

    /** The system does what it likes for a while. */
    method System(steps: seq<Step>)
      requires Valid()
      modifies this`w, this`log
      ensures Valid() && OnlySystem(old(w), w) && (steps == [] ==> w == old(w))
    {
      for i := 0 to |steps|
        invariant Valid() && OnlySystem(old(w), w) && (i == 0 ==> w == old(w))
      {
        var s := steps[i];
        if (s.OsSpawn? || s.OsExit? || s.OsReap?) && Next(w, s).Some? {
          Invariant();
          Do(s);
        }
      }
    }

    /** status: is the recorded process ours and alive, and does it answer? */
    method Status(answers: bool) returns (r: Result<(bool, bool), Refusal>)
      ensures r.Err? <==> OtherHolder(w)
      ensures r.Ok? ==> r.value.0 == RecordedHolder(w)
      ensures r.Ok? ==> r.value.1 == (r.value.0 && answers)
    {
      if w.record.Some? && OwnedProcess(w, w.record.value.process) == ForeignPid { return Err(OwnershipUnclear); }
      var alive := w.record.Some? && OwnedProcess(w, w.record.value.process) == Owned;
      return Ok((alive, alive && answers));
    }

    /** Take the profile lock for `stop` and look the recorded process up, in the world `seen`. */
    method StopLooks(noise: seq<Step>) returns (ghost seen: World)
      requires Valid() && Free(w, me)
      modifies this`w, this`log
      ensures Valid() && w.lock == Some(me) && Settled(old(w), w) && Settled(old(w), seen)
      ensures noise == [] ==> SameProcesses(old(w), seen) && w.os == seen.os && w.used == seen.used
      ensures PhaseOf(w, me) == if OtherHolder(seen) then Releasing(Idle)
                                else if RecordedHolder(seen) then StopFound(seen.record.value.process) else StopGone
    {
      Do(StopLock(me));
      System(noise);
      seen := w;
      StopReadExactly(w, me);
      Do(StopRead(me));
    }

    /** Ask the process to end; if it does not, kill it. */
    method StopEnds(noise: seq<Step>)
      requires Valid() && PhaseOf(w, me).StopFound?
      modifies this`w, this`log
      ensures Valid() && PhaseOf(w, me) == StopGone
      ensures w.launched == old(w.launched) && w.lock == old(w.lock) && w.record == old(w.record)
      ensures noise == [] ==> NothingNew(old(w), w)
    {
      Do(StopSignal(me));
      System(noise);
      KillIfStillThere();
    }

    method KillIfStillThere()
      requires Valid() && PhaseOf(w, me).StopSignalled?
      modifies this`w, this`log
      ensures Valid() && PhaseOf(w, me) == StopGone
      ensures w.launched == old(w.launched) && w.lock == old(w.lock) && w.record == old(w.record)
      ensures NothingNew(old(w), w)
    {
      if Running(w, PhaseOf(w, me).process) { Do(StopKill(me)); } else { Do(StopSeesExit(me)); }
    }

    method LetGo()
      requires Valid() && PhaseOf(w, me) == Releasing(Idle)
      modifies this`w, this`log
      ensures Valid() && Free(w, me) && Settled(old(w), w) && w.os == old(w.os) && w.used == old(w.used)
    {
      Do(Release(me));
    }

    /** End the process found, if one was, and remove the record. */
    method EndAndForget(noise: seq<Step>)
      requires Valid() && (PhaseOf(w, me) == StopGone || PhaseOf(w, me).StopFound?)
      modifies this`w, this`log
      ensures Valid() && PhaseOf(w, me) == Releasing(Idle)
      ensures w.launched == old(w.launched) && w.lock == old(w.lock) && w.record == None
      ensures noise == [] ==> NothingNew(old(w), w)
    {
      if PhaseOf(w, me).StopFound? { StopEnds(noise); }
      Do(StopUnlink(me));
    }

    /** stop: end the owned process, forget the record. Refused exactly when, as the record is
        read, its id is somebody else's; otherwise nothing this profile launched runs on. */
    method Stop(luck: Luck) returns (ok: bool, ghost seen: World)
      requires Valid() && Free(w, me)
      modifies this`w, this`log
      ensures Valid() && Free(w, me) && w.launched == old(w.launched) && Settled(old(w), seen)
      ensures ok <==> !OtherHolder(seen)
      ensures if ok then w.record == None else w.record == old(w.record) && w.signalled == old(w.signalled)
      ensures ok ==> forall p :: p in w.launched ==> !Running(w, p)
      ensures Undisturbed(luck) ==> SameProcesses(old(w), seen) && NothingNew(old(w), w)
    {
      seen := StopLooks(luck.noise(0));
      ok := PhaseOf(w, me) != Releasing(Idle);
      if ok { EndAndForget(luck.noise(1)); }
      LetGo();
      if ok { NothingRuns(); }
    }

    /** With the lock free and nothing recorded, nothing this profile launched is running. */
    lemma NothingRuns()
      requires Valid() && w.lock == None && w.record == None
      ensures forall p :: p in w.launched ==> !Running(w, p)
    {
      Invariant();
      FreeNamed(w);
    }

    /** Take the profile lock for `start`. */
    method StartLooks(noise: seq<Step>)
      requires Valid() && Free(w, me)
      modifies this`w, this`log
      ensures Valid() && PhaseOf(w, me) == StartLocked && Settled(old(w), w) && NoneRevived(old(w), w)
      ensures noise == [] ==> SameProcesses(old(w), w)
    {
      Do(StartLock(me));
      System(noise);
    }

    method Refuse()
      requires Valid() && PhaseOf(w, me) in {StartLocked, StartClear}
      modifies this`w, this`log
      ensures Valid() && Free(w, me) && Settled(old(w), w) && w.os == old(w.os)
    {
      Do(StartRefuse(me));
      LetGo();
    }

    /** Launch the child and write its record; end it again when the record cannot be written. */
    method LaunchRecorded(launch: Launch, luck: Luck) returns (ok: bool)
      requires Valid() && PhaseOf(w, me) == StartClear && Fresh(w, luck.child)
      modifies this`w, this`log
      ensures Valid() && w.launched == old(w.launched) + {luck.child} && luck.child !in old(w.launched)
      ensures if ok then w.record == Some(ServerRecord(luck.child, launch, None)) && w.signalled == old(w.signalled)
              else w.record == old(w.record)
      ensures PhaseOf(w, me) == Releasing(if ok then Waiting(luck.child) else Idle)
      ensures ok == luck.recordWritten && (ok ==> RecordedHolder(w))
    {
      Invariant();
      Do(LaunchChild(me, luck.child, launch));
      ok := luck.recordWritten;
      if ok { Do(WriteRecord(me)); } else { Do(RecordFails(me)); }
    }

    /** Under the lock again, find that the record still names this launch. */
    method ReadBack(luck: Luck)
      requires Valid() && PhaseOf(w, me) == Waiting(luck.child) && w.lock == None
      requires w.record.Some? && w.record.value.process == luck.child
      modifies this`w, this`log
      ensures Valid() && PhaseOf(w, me) == ReadyHas(luck.child, old(w.record).value) && Settled(old(w), w)
    {
      Do(ReadyLock(me));
      Do(ReadyRead(me));
    }

    /** Note the time to ready on the record. A record that cannot be updated is no failure. */
    method RecordReadiness(luck: Luck)
      requires Valid() && PhaseOf(w, me) == Waiting(luck.child) && w.lock == None
      requires w.record.Some? && w.record.value.process == luck.child
      modifies this`w, this`log
      ensures Valid() && Free(w, me) && w.launched == old(w.launched) && w.signalled == old(w.signalled)
      ensures w.record == if luck.readinessWritten then Some(old(w.record).value.(ready := Some(luck.millis)))
                          else old(w.record)
    {
      if luck.readinessWritten {
        ReadBack(luck);
        Do(ReadyWrite(me, luck.millis));
        LetGo();
      } else {
        Do(GiveUp(me));
      }
    }

    /** Poll until the launched server answers, has gone, or the deadline passes. */
    method AwaitReady(luck: Luck) returns (r: StartOutcome)
      requires Valid() && PhaseOf(w, me) == Waiting(luck.child) && w.lock == None
      requires w.record.Some? && w.record.value.process == luck.child
      modifies this`w, this`log
      ensures Valid() && Free(w, me) && w.launched == old(w.launched) && w.signalled == old(w.signalled)
      ensures w.record.Some? && w.record.value.(ready := old(w.record).value.ready) == old(w.record).value
      ensures r.Up? ==> r == Up(true, Some(luck.millis))
      ensures Undisturbed(luck) && RecordedHolder(old(w)) && AnsweredInTime(luck) ==> r.Up?
    {
      for i := 0 to luck.polls + 1
        invariant Valid() && PhaseOf(w, me) == Waiting(luck.child) && w.lock == None && Settled(old(w), w)
        invariant Undisturbed(luck) ==> w == old(w)
        invariant Undisturbed(luck) && RecordedHolder(old(w)) ==> forall k :: 1 <= k <= i ==> !luck.answers(k)
      {
        System(luck.noise(2 + i));
        var state := Status(luck.answers(1 + i));
        if state.Ok? && state.value.1 {
          RecordReadiness(luck);
          return Up(true, Some(luck.millis));
        }
        if state.Err? || !state.value.0 { break; }
      }
      Do(GiveUp(me));
      r := NotStarted;
    }

    /** start: reuse a live, healthy, identical server; refuse any other live one; otherwise
        launch, record, and wait. `seen` is the world in which the record was read: where the
        recorded id is held, by the recorded process or by another, nothing is launched. */
    method Start(plan: Launch, luck: Luck) returns (r: StartOutcome, ghost seen: World)
      requires Valid() && Free(w, me)
      modifies this`w, this`log
      ensures Valid() && Free(w, me) && Settled(old(w), seen) && (RecordedHolder(seen) ==> RecordedHolder(old(w)))
      ensures r.Up? ==> r.healthy
      ensures OtherHolder(seen) || RecordedHolder(seen) ==> Settled(old(w), w) && w.os == seen.os
      ensures r == Up(true, None)
         <==> RecordedHolder(seen) && luck.answers(0)
              && LaunchDifferences(resolve, old(w.record).value.launch, plan) == []
      ensures r.Up? && r.launchToReady.Some? ==> LaunchedHere(old(w), w, luck.child, Resolved(resolve, plan))
      ensures w.launched <= old(w.launched) + {luck.child}
      ensures AllGoesWell(luck) && Fresh(old(w), luck.child) && !RecordedHolder(old(w)) && !OtherHolder(old(w)) ==>
                r.Up?
    {
      Invariant();
      StartLooks(luck.noise(0));
      seen := w;
      StartCheckExactly(w, me);
      if !NothingOwned(w) {
        var reuse := OwnedProcess(w, w.record.value.process) == Owned
                     && LaunchDifferences(resolve, w.record.value.launch, plan) == [] && luck.answers(0);
        Refuse();
        return if reuse then Up(true, None) else NotStarted, seen;
      }
      Do(StartCheck(me));
      if !luck.preflight || !Fresh(w, luck.child) {
        Refuse();
        return NotStarted, seen;
      }
      r := LaunchAndWait(Resolved(resolve, plan), luck);
    }

    method LaunchAndWait(launch: Launch, luck: Luck) returns (r: StartOutcome)
      requires Valid() && PhaseOf(w, me) == StartClear && Fresh(w, luck.child)
      modifies this`w, this`log
      ensures Valid() && Free(w, me) && w.launched <= old(w.launched) + {luck.child}
      ensures r.Up? ==> r.healthy && r.launchToReady.Some? && LaunchedHere(old(w), w, luck.child, launch)
      ensures AllGoesWell(luck) ==> r.Up?
    {
      var ok := LaunchRecorded(launch, luck);
      Do(Release(me));
      if !ok { return NotStarted; }
      r := AwaitReady(luck);
      Invariant();
      FreeNamed(w);
    }

    // ------------------------------------------------------------------ ensure

    /** ensure_managed_runtime: reuse, replace or start the profile's server. An unclear owner
        is an error of the call, not a result.

        A result always passes its own checks. Reuse happens exactly when the recorded server
        lives, answers and was launched as requested, and then nothing is touched; a success
        otherwise means this call launched the recorded server after every older one was
        gone. The last refusal reason never occurs, because `start` returns only healthy
        servers. */
    method Ensure(plan: Launch, luck: Luck) returns (r: Result<EnsureResult, Refusal>)
      requires Valid() && Free(w, me)
      modifies this`w, this`log
      ensures Valid() && Free(w, me)
      ensures r.Ok? ==> Consistent(r.value) && r.value.refusedReason != Some(NotHealthy)
      ensures (r.Ok? && r.value.lifecycle == Reused) <==> Reusable(old(w), resolve, plan, luck.answers(0))
      ensures r.Ok? && r.value.lifecycle == Reused ==> w == old(w)
      ensures r.Ok? && r.value.lifecycle in {Started, Replaced} ==>
                (LaunchedHere(old(w), w, luck.child, Resolved(resolve, plan)) && r.value.launchToReady.Some?
                 && !luck.reachable && (r.value.lifecycle == Started <==> old(w.record) == None)
                 && Explained(r.value.replacedReason, r.value.changedFields, old(w), resolve, plan))
      ensures OtherHolder(old(w)) ==> r.Err? && w == old(w)
      ensures r.Err? ==> old(w.record).Some? && w.launched == old(w.launched)
      ensures r.Ok? && r.value.refusedReason == Some(ForeignEndpoint) ==>
                luck.reachable && w.launched == old(w.launched)
      ensures AllGoesWell(luck) && !luck.reachable && Fresh(old(w), luck.child) && !OtherHolder(old(w)) ==>
                r.Ok? && r.value.lifecycle != Refused
    {
      var plea := MakeWay(plan, luck);
      if plea == ReuseIt { return Ok(EnsureResult(Reused, None, None, None, [])); }
      if plea == Unclear { return Err(OwnershipUnclear); }
      if luck.reachable { return Ok(EnsureResult(Refused, None, Some(ForeignEndpoint), None, [])); }
      var outcome, _ := Start(plan, luck);
      r := Ok(if outcome == NotStarted then EnsureResult(Refused, None, Some(StartFailed), None, [])
              else if !outcome.healthy then EnsureResult(Refused, None, Some(NotHealthy), None, [])
              else EnsureResult(if plea.reason.Some? then Replaced else Started, plea.reason, None,
                                outcome.launchToReady, plea.changed));
    }

    /** What ensure makes of the record before it starts anything: a server that cannot be reused
        is stopped. */
    method MakeWay(plan: Launch, luck: Luck) returns (plea: Plea)
      requires Valid() && Free(w, me)
      modifies this`w, this`log
      ensures Valid() && Free(w, me) && w.launched == old(w.launched)
      ensures plea == ReuseIt <==> Reusable(old(w), resolve, plan, luck.answers(0))
      ensures plea == ReuseIt || OtherHolder(old(w)) ==> w == old(w)
      ensures OtherHolder(old(w)) ==> plea == Unclear
      ensures plea == Unclear ==> old(w.record).Some?
      ensures Undisturbed(luck) ==> NothingNew(old(w), w) && (plea == Unclear ==> OtherHolder(old(w)))
      ensures plea.StartAnew? ==> !OtherHolder(w)
      ensures plea.StartAnew? ==> !RecordedHolder(w) && Explained(plea.reason, plea.changed, old(w), resolve, plan)
    {
      if w.record == None { return StartAnew(None, []); }
      var changed := LaunchDifferences(resolve, w.record.value.launch, plan);
      DifferencesExactly(resolve, w.record.value.launch, plan);
      var state := Status(luck.answers(0));
      if state.Err? { return Unclear; }
      if state.value.1 && changed == [] { return ReuseIt; }
      if !state.value.0 { return StartAnew(Some(Dead), []); }
      plea := if changed != [] then StartAnew(Some(ConfigChanged), changed) else StartAnew(Some(Unhealthy), []);
      var ok, _ := Stop(luck);
      if !ok { plea := Unclear; }
    }
  }

  // ------------------------------------------------------ what ensure decides by

  /** The two would be launched with the same executable, arguments, environment and model. */
  predicate LaunchedAlike(resolve: string -> string, a: Launch, b: Launch) {
    resolve(a.exe) == resolve(b.exe) && a.args == b.args && a.env == b.env && a.modelDir == b.modelDir
  }

  /** The recorded server lives, answers, and was launched as requested. */
  predicate Reusable(w: World, resolve: string -> string, plan: Launch, answers: bool) {
    RecordedHolder(w) && answers && LaunchedAlike(resolve, w.record.value.launch, plan)
  }

  /** Why a server is started: there was no record; or the recorded server had gone; or it was
      launched otherwise, and then on which fields; or it did not answer. */
  predicate Explained(reason: Option<ReplacedReason>, changed: seq<Field>, w: World, resolve: string -> string,
                      plan: Launch) {
    if w.record == None then reason == None && changed == []
    else if !RecordedHolder(w) then reason == Some(Dead) && changed == []
    else if LaunchedAlike(resolve, w.record.value.launch, plan) then reason == Some(Unhealthy) && changed == []
    else
      && reason == Some(ConfigChanged)
      && changed == Filter(DiffersOn(resolve, w.record.value.launch, plan), [Exe, Args, Env, ModelDir])
  }

  /** Two calls for one configuration: if the first brought a server up, and it still lives
      and answers at the second, the second reuses it and changes nothing at all. */
  method EnsureTwice(host: Host, plan: Launch, luck: Luck, meanwhile: seq<Step>, again: Luck)
      returns (first: Result<EnsureResult, Refusal>, second: Result<EnsureResult, Refusal>, between: World)
    requires host.Valid() && Free(host.w, host.me)
    requires forall exe :: host.resolve(host.resolve(exe)) == host.resolve(exe)
    modifies host`w, host`log
    ensures host.Valid() && Free(host.w, host.me)
    ensures first.Ok? && first.value.lifecycle != Refused && between.record.Some?
            && Running(between, between.record.value.process) && again.answers(0)
            ==> second == Ok(EnsureResult(Reused, None, None, None, [])) && host.w == between
  {
    first := host.Ensure(plan, luck);
    host.System(meanwhile);
    between := host.w;
    second := host.Ensure(plan, again);
  }
}
