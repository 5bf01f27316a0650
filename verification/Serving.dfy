/** Who owns a profile's inference server (serve.py).

    Any number of controllers run start, stop and readiness recording, one atomic step at a
    time, under one operating-system lock per profile. Processes die at any moment, and a
    freed process id may be given to somebody else's process. */
module Serving {
  import opened Sequences

  type Pid = nat
  type Controller = nat

  /** One process: its id and creation time. Ids are reused, the pair never is. */
  datatype Process = Process(pid: Pid, created: nat)

  /** What a server process actually received. */
  datatype Launch = Launch(exe: string, args: seq<string>, env: map<string, string>, modelDir: string)

  /** process.json. */
  datatype ServerRecord = ServerRecord(process: Process, launch: Launch, ready: Option<nat>)

  /** Who holds a process id; not running means exited but not yet reaped. */
  datatype Slot = Slot(created: nat, running: bool)

  /** Where a controller is in its operation. All but Idle and Waiting hold the lock. */
  datatype Phase =
    | Idle
    | StartLocked                                 // start: lock taken
    | StartClear                                  // start: no owned process is live
    | Launched(process: Process, launch: Launch)  // start: child running, not recorded
    | Waiting(process: Process)                   // start: polling readiness, lock released
    | ReadyLocked(process: Process)               // readiness: lock taken
    | ReadyHas(process: Process, copy: ServerRecord) // readiness: record read and matched
    | StopLocked                                  // stop: lock taken
    | StopFound(process: Process)                 // stop: owned process found
    | StopSignalled(process: Process)             // stop: asked to end
    | StopGone                                    // stop: nothing left to end
    | Releasing(next: Phase)                      // lock about to be released

  datatype World = World(
    lock: Option<Controller>, record: Option<ServerRecord>, os: map<Pid, Slot>,
    used: set<Process>, launched: set<Process>, signalled: set<Process>, phases: map<Controller, Phase>)

  datatype Step =
    | OsSpawn(p: Process) | OsExit(pid: Pid) | OsReap(pid: Pid)
    | StartLock(c: Controller) | StartCheck(c: Controller) | StartRefuse(c: Controller)
    | LaunchChild(c: Controller, p: Process, launch: Launch) | WriteRecord(c: Controller) | RecordFails(c: Controller)
    | GiveUp(c: Controller) | ReadyLock(c: Controller) | ReadyRead(c: Controller) | ReadyWrite(c: Controller, time: nat)
    | StopLock(c: Controller) | StopRead(c: Controller) | StopSignal(c: Controller)
    | StopSeesExit(c: Controller) | StopKill(c: Controller) | StopKillTimesOut(c: Controller)
    | StopUnlink(c: Controller)
    | Release(c: Controller)
    | Crash(c: Controller)           // anywhere except between launch and record write
    | CrashUnrecorded(c: Controller) // exactly there

  function PhaseOf(w: World, c: Controller): Phase { if c in w.phases then w.phases[c] else Idle }

  predicate Running(w: World, p: Process) {
    p.pid in w.os && w.os[p.pid] == Slot(p.created, true)
  }

  datatype Ownership = NotAlive | Owned | ForeignPid

  /** owned_process: a dead or zombie holder is no process; a live one must be the recorded one. */
  function OwnedProcess(w: World, p: Process): Ownership {
    if p.pid !in w.os || !w.os[p.pid].running then NotAlive
    else if w.os[p.pid].created != p.created then ForeignPid
    else Owned
  }

  predicate NothingOwned(w: World) {
    w.record == None || OwnedProcess(w, w.record.value.process) == NotAlive
  }

  /** A running process has the recorded id, and it was created at the recorded time. */
  predicate RecordedHolder(w: World) {
    && w.record.Some? && w.record.value.process.pid in w.os
    && w.os[w.record.value.process.pid].running
    && w.os[w.record.value.process.pid].created == w.record.value.process.created
  }

  /** A running process has the recorded id, but it was created at another time: the id has
      been given to somebody else. */
  predicate OtherHolder(w: World) {
    && w.record.Some? && w.record.value.process.pid in w.os
    && w.os[w.record.value.process.pid].running
    && w.os[w.record.value.process.pid].created != w.record.value.process.created
  }

  function Move(w: World, c: Controller, phase: Phase): World { w.(phases := w.phases[c := phase]) }

  function Take(w: World, c: Controller, phase: Phase): World { Move(w, c, phase).(lock := Some(c)) }

  function Spawn(w: World, p: Process): World {
    w.(os := w.os[p.pid := Slot(p.created, true)], used := w.used + {p})
  }

  predicate Fresh(w: World, p: Process) { p.pid !in w.os && p !in w.used }

  /** A signal goes to whoever holds the id now, after the identity check. */
  function Signal(w: World, p: Process): World {
    if Running(w, p) then w.(signalled := w.signalled + {Process(p.pid, w.os[p.pid].created)}) else w
  }

  function End(w: World, p: Process): World {
    if Running(w, p) then w.(os := w.os[p.pid := Slot(p.created, false)]) else w
  }

  predicate Holding(phase: Phase) { !phase.Idle? && !phase.Waiting? }

  function Drop(w: World, c: Controller, phase: Phase): World { Move(w, c, phase).(lock := None) }

  /** One step; None when it cannot happen. */
  function Next(w: World, s: Step): Option<World> {
    match s
    case OsSpawn(p) => if Fresh(w, p) then Some(Spawn(w, p)) else None
    case OsExit(pid) => if pid in w.os then Some(w.(os := w.os[pid := w.os[pid].(running := false)])) else None
    case OsReap(pid) => if pid in w.os && !w.os[pid].running then Some(w.(os := w.os - {pid})) else None
    case Crash(c) => NextCrash(w, c)
    case CrashUnrecorded(c) => if PhaseOf(w, c).Launched? then Some(Drop(w, c, Idle)) else None
    case Release(c) => (match PhaseOf(w, c) case Releasing(next) => Some(Drop(w, c, next)) case _ => None)
    case StartLock(_) => NextStart(w, s)
    case StartCheck(_) => NextStart(w, s)
    case StartRefuse(_) => NextStart(w, s)
    case LaunchChild(_, _, _) => NextStart(w, s)
    case WriteRecord(_) => NextStart(w, s)
    case RecordFails(_) => NextStart(w, s)
    case GiveUp(_) => NextReady(w, s)
    case ReadyLock(_) => NextReady(w, s)
    case ReadyRead(_) => NextReady(w, s)
    case ReadyWrite(_, _) => NextReady(w, s)
    case StopLock(_) => NextStop(w, s)
    case StopRead(_) => NextStop(w, s)
    case StopUnlink(_) => NextStop(w, s)
    case _ => NextEnding(w, s)
  }

  /** A crashed controller's lock is released by the system. */
  function NextCrash(w: World, c: Controller): Option<World> {
    var phase := PhaseOf(w, c);
    if phase.Launched? then None else if Holding(phase) then Some(Drop(w, c, Idle)) else Some(Move(w, c, Idle))
  }

  function NextStart(w: World, s: Step): Option<World> {
    match s
    case StartLock(c) => if PhaseOf(w, c) == Idle && w.lock == None then Some(Take(w, c, StartLocked)) else None
    case StartCheck(c) => if PhaseOf(w, c) == StartLocked && NothingOwned(w) then Some(Move(w, c, StartClear)) else None
    // A live server (reused or not), an unclear owner, or a failed preflight.
    case StartRefuse(c) =>
      if PhaseOf(w, c) in {StartLocked, StartClear} then Some(Move(w, c, Releasing(Idle))) else None
    case LaunchChild(c, p, launch) =>
      if PhaseOf(w, c) == StartClear && Fresh(w, p)
      then Some(Move(Spawn(w, p).(launched := w.launched + {p}), c, Launched(p, launch))) else None
    case WriteRecord(c) => (
      match PhaseOf(w, c)
      case Launched(p, launch) =>
        Some(Move(w, c, Releasing(Waiting(p))).(record := Some(ServerRecord(p, launch, None))))
      case _ => None)
    case RecordFails(c) => (
      match PhaseOf(w, c)
      case Launched(p, _) => Some(Move(End(Signal(w, p), p), c, Releasing(Idle)))
      case _ => None)
    case _ => None
  }

  function NextReady(w: World, s: Step): Option<World> {
    match s
    case GiveUp(c) => if PhaseOf(w, c).Waiting? then Some(Move(w, c, Idle)) else None
    case ReadyLock(c) => (
      match PhaseOf(w, c)
      case Waiting(p) => if w.lock == None then Some(Take(w, c, ReadyLocked(p))) else None
      case _ => None)
    case ReadyRead(c) => (
      match PhaseOf(w, c)
      case ReadyLocked(p) =>
        if w.record.Some? && w.record.value.process == p then Some(Move(w, c, ReadyHas(p, w.record.value)))
        else Some(Move(w, c, Releasing(Idle)))
      case _ => None)
    case ReadyWrite(c, time) => (
      match PhaseOf(w, c)
      case ReadyHas(_, copy) => Some(Move(w, c, Releasing(Idle)).(record := Some(copy.(ready := Some(time)))))
      case _ => None)
    case _ => None
  }

  function NextStop(w: World, s: Step): Option<World> {
    match s
    case StopLock(c) => if PhaseOf(w, c) == Idle && w.lock == None then Some(Take(w, c, StopLocked)) else None
    case StopRead(c) =>
      if PhaseOf(w, c) != StopLocked then None
      else if NothingOwned(w) then Some(Move(w, c, StopGone))
      else if OwnedProcess(w, w.record.value.process) == ForeignPid then Some(Move(w, c, Releasing(Idle)))
      else Some(Move(w, c, StopFound(w.record.value.process)))
    case StopUnlink(c) => if PhaseOf(w, c) == StopGone then Some(Move(w, c, Releasing(Idle)).(record := None)) else None
    case _ => None
  }

  function NextEnding(w: World, s: Step): Option<World> {
    match s
    case StopSignal(c) => (
      match PhaseOf(w, c)
      case StopFound(p) => Some(Move(Signal(w, p), c, StopSignalled(p)))
      case _ => None)
    case StopSeesExit(c) => (
      match PhaseOf(w, c)
      case StopSignalled(p) => if !Running(w, p) then Some(Move(w, c, StopGone)) else None
      case _ => None)
    case StopKill(c) => (
      match PhaseOf(w, c)
      case StopSignalled(p) => Some(Move(End(Signal(w, p), p), c, StopGone))
      case _ => None)
    // Killed, but not gone in time: stop raises and the record stays.
    case StopKillTimesOut(c) => (
      match PhaseOf(w, c)
      case StopSignalled(p) => Some(Move(Signal(w, p), c, Releasing(Idle)))
      case _ => None)
    case _ => None
  }

  // -------------------------------------------------------------------- invariant

  /** No server this profile ever launched is running, except perhaps `but`. */
  ghost predicate NoneRunning(w: World, but: Option<Process>) {
    forall p :: p in w.launched && Running(w, p) ==> Some(p) == but
  }

  function Recorded(w: World): Option<Process> {
    if w.record.Some? then Some(w.record.value.process) else None
  }

  /** What a phase promises about the rest of the world. */
  ghost predicate PhaseHolds(w: World, phase: Phase) {
    match phase
    case StartClear => NoneRunning(w, None)
    case Launched(p, _) => p in w.launched && NoneRunning(w, Some(p)) && Recorded(w) != Some(p)
    case StopGone => NoneRunning(w, None)
    case StopFound(p) => Recorded(w) == Some(p)
    case StopSignalled(p) => Recorded(w) == Some(p)
    case ReadyHas(p, copy) => w.record == Some(copy) && copy.process == p
    case Releasing(next) => !Holding(next)
    case _ => true
  }

  ghost predicate Exclusive(w: World) {
    forall c: Controller :: Holding(PhaseOf(w, c)) <==> w.lock == Some(c)
  }

  ghost predicate Known(w: World) {
    && (forall pid :: pid in w.os ==> Process(pid, w.os[pid].created) in w.used)
    && w.signalled <= w.launched <= w.used
    && (w.record.Some? ==> w.record.value.process in w.launched)
  }

  /** While nobody is between launch and record write, the record names the running server. */
  ghost predicate Named(w: World) {
    (forall c: Controller :: !PhaseOf(w, c).Launched?) ==> NoneRunning(w, Recorded(w))
  }

  ghost predicate Inv(w: World) {
    && Exclusive(w) && Known(w) && Named(w)
    && forall c: Controller :: PhaseHolds(w, PhaseOf(w, c))
  }

  ghost predicate Init(w: World) {
    && w.lock == None && w.record == None && w.launched == {} && w.signalled == {} && w.phases == map[]
    && forall pid :: pid in w.os ==> Process(pid, w.os[pid].created) in w.used
  }

  lemma InitHolds(w: World)
    requires Init(w)
    ensures Inv(w)
  {}

  // ------------------------------------------------------- every step keeps it

  /** The system only takes running servers away. */
  ghost predicate Quieter(w: World, w': World) {
    && w' == w.(os := w'.os, used := w'.used)
    && forall p :: p in w.launched && Running(w', p) ==> Running(w, p)
  }

  lemma QuieterKeepsInv(w: World, w': World)
    requires Inv(w) && Quieter(w, w') && Known(w')
    ensures Inv(w')
  {
    forall c: Controller ensures PhaseOf(w', c) == PhaseOf(w, c) && PhaseHolds(w', PhaseOf(w', c)) {}
  }

  lemma OsStepKeepsInv(w: World, s: Step)
    requires Inv(w) && Next(w, s).Some? && (s.OsSpawn? || s.OsExit? || s.OsReap?)
    ensures Inv(Next(w, s).value)
  {
    QuieterKeepsInv(w, Next(w, s).value);
  }

  /** The one controller that holds the lock moves on, still holding it. */
  lemma HolderKeepsInv(w: World, w': World, c: Controller, phase: Phase)
    requires Inv(w) && Holding(PhaseOf(w, c)) && Holding(phase)
    requires w'.phases == w.phases[c := phase] && w'.lock == w.lock
    requires Known(w') && PhaseHolds(w', phase) && (phase.Launched? || NoneRunning(w', Recorded(w')))
    ensures Inv(w')
  {
    forall d: Controller ensures PhaseOf(w', d) == (if d == c then phase else PhaseOf(w, d)) {}
    forall d: Controller ensures PhaseHolds(w', PhaseOf(w', d)) {}
    if phase.Launched? { assert PhaseOf(w', c).Launched?; }
  }

  /** Before anything is launched by the lock holder, the record names what runs. */
  lemma HolderNamed(w: World, c: Controller)
    requires Inv(w) && Holding(PhaseOf(w, c)) && !PhaseOf(w, c).Launched?
    ensures NoneRunning(w, Recorded(w))
  {
    forall d: Controller ensures !PhaseOf(w, d).Launched? {}
  }

  /** Nobody holds the lock, so nobody is between launch and record write. */
  lemma FreeNamed(w: World)
    requires Inv(w) && w.lock == None
    ensures NoneRunning(w, Recorded(w))
  {
    forall d: Controller ensures !PhaseOf(w, d).Launched? { assert !Holding(PhaseOf(w, d)); }
  }

  lemma TakeKeepsInv(w: World, c: Controller, phase: Phase)
    requires Inv(w) && w.lock == None && Holding(phase) && !phase.Launched? && PhaseHolds(w, phase)
    ensures Inv(Take(w, c, phase))
  {
    var w' := Take(w, c, phase);
    FreeNamed(w);
    forall d: Controller ensures PhaseOf(w', d) == (if d == c then phase else PhaseOf(w, d)) {}
    forall d: Controller ensures PhaseHolds(w', PhaseOf(w', d)) && (d != c ==> !Holding(PhaseOf(w', d))) {}
    assert NoneRunning(w', Recorded(w'));
  }

  lemma DropKeepsInv(w: World, c: Controller, phase: Phase)
    requires Inv(w) && Holding(PhaseOf(w, c)) && !PhaseOf(w, c).Launched? && !Holding(phase)
    ensures Inv(Drop(w, c, phase))
  {
    var w' := Drop(w, c, phase);
    HolderNamed(w, c);
    forall d: Controller ensures PhaseOf(w', d) == (if d == c then phase else PhaseOf(w, d)) {}
    forall d: Controller ensures PhaseHolds(w', PhaseOf(w', d)) && !Holding(PhaseOf(w', d)) {}
    assert NoneRunning(w', Recorded(w'));
  }

  /** A controller without the lock changes its mind. */
  lemma IdleKeepsInv(w: World, c: Controller, phase: Phase)
    requires Inv(w) && !Holding(PhaseOf(w, c)) && !Holding(phase)
    ensures Inv(Move(w, c, phase))
  {
    var w' := Move(w, c, phase);
    forall d: Controller ensures PhaseOf(w', d) == (if d == c then phase else PhaseOf(w, d)) {}
    forall d: Controller
      ensures PhaseHolds(w', PhaseOf(w', d)) && PhaseOf(w', d).Launched? == PhaseOf(w, d).Launched?
    {}
  }

  lemma StartStepKeepsInv(w: World, s: Step)
    requires Inv(w) && NextStart(w, s).Some?
    ensures Inv(NextStart(w, s).value)
  {
    var w' := NextStart(w, s).value;
    match s
    case StartLock(c) => TakeKeepsInv(w, c, StartLocked);
    case StartCheck(c) => HolderNamed(w, c); HolderKeepsInv(w, w', c, StartClear);
    case StartRefuse(c) => HolderNamed(w, c); HolderKeepsInv(w, w', c, Releasing(Idle));
    case LaunchChild(c, p, launch) => HolderKeepsInv(w, w', c, Launched(p, launch));
    case WriteRecord(c) => HolderKeepsInv(w, w', c, PhaseOf(w', c));
    case RecordFails(c) => HolderKeepsInv(w, w', c, Releasing(Idle));
    case _ =>
  }

  lemma ReadyStepKeepsInv(w: World, s: Step)
    requires Inv(w) && NextReady(w, s).Some?
    ensures Inv(NextReady(w, s).value)
  {
    var w' := NextReady(w, s).value;
    match s
    case GiveUp(c) => IdleKeepsInv(w, c, Idle);
    case ReadyLock(c) => TakeKeepsInv(w, c, PhaseOf(w', c));
    case ReadyRead(c) => HolderNamed(w, c); HolderKeepsInv(w, w', c, PhaseOf(w', c));
    case ReadyWrite(c, time) => HolderNamed(w, c); HolderKeepsInv(w, w', c, Releasing(Idle));
    case _ =>
  }

  lemma StopStepKeepsInv(w: World, s: Step)
    requires Inv(w) && NextStop(w, s).Some?
    ensures Inv(NextStop(w, s).value)
  {
    var w' := NextStop(w, s).value;
    match s
    case StopLock(c) => TakeKeepsInv(w, c, StopLocked);
    case StopRead(c) => HolderNamed(w, c); HolderKeepsInv(w, w', c, PhaseOf(w', c));
    case StopUnlink(c) => HolderNamed(w, c); HolderKeepsInv(w, w', c, Releasing(Idle));
    case _ =>
  }

  lemma EndingStepKeepsInv(w: World, s: Step)
    requires Inv(w) && NextEnding(w, s).Some?
    ensures Inv(NextEnding(w, s).value)
  {
    var w' := NextEnding(w, s).value;
    match s
    case StopSignal(c) => HolderNamed(w, c); HolderKeepsInv(w, w', c, PhaseOf(w', c));
    case StopSeesExit(c) => HolderNamed(w, c); HolderKeepsInv(w, w', c, StopGone);
    case StopKill(c) => HolderNamed(w, c); HolderKeepsInv(w, w', c, StopGone);
    case StopKillTimesOut(c) => HolderNamed(w, c); HolderKeepsInv(w, w', c, Releasing(Idle));
    case _ =>
  }

  /** A controller that dies between launch and record write does no harm exactly when the
      child it leaves behind is dead already. */
  lemma UnrecordedCrashExactly(w: World, c: Controller)
    requires Inv(w) && PhaseOf(w, c).Launched?
    ensures Inv(Next(w, CrashUnrecorded(c)).value) <==> !Running(w, PhaseOf(w, c).process)
  {
    var w', p := Drop(w, c, Idle), PhaseOf(w, c).process;
    assert PhaseHolds(w, PhaseOf(w, c));
    forall d: Controller ensures PhaseOf(w', d) == if d == c then Idle else PhaseOf(w, d) {}
    forall d: Controller ensures PhaseHolds(w', PhaseOf(w', d)) && !Holding(PhaseOf(w', d)) {}
    if Running(w, p) {
      assert p in w'.launched && Running(w', p) && Recorded(w') != Some(p);
    }
  }

  /** A step that is no crash of a controller whose unrecorded child still runs. */
  predicate Harmless(w: World, s: Step) {
    s.CrashUnrecorded? && PhaseOf(w, s.c).Launched? ==> !Running(w, PhaseOf(w, s.c).process)
  }

  lemma StepKeepsInv(w: World, s: Step)
    requires Inv(w) && Next(w, s).Some? && Harmless(w, s)
    ensures Inv(Next(w, s).value)
  {
    match s
    case OsSpawn(_) => OsStepKeepsInv(w, s);
    case OsExit(_) => OsStepKeepsInv(w, s);
    case OsReap(_) => OsStepKeepsInv(w, s);
    case Crash(c) =>
      if Holding(PhaseOf(w, c)) { DropKeepsInv(w, c, Idle); } else { IdleKeepsInv(w, c, Idle); }
    case CrashUnrecorded(c) => UnrecordedCrashExactly(w, c);
    case Release(c) => DropKeepsInv(w, c, PhaseOf(w, c).next);
    case StartLock(_) => StartStepKeepsInv(w, s);
    case StartCheck(_) => StartStepKeepsInv(w, s);
    case StartRefuse(_) => StartStepKeepsInv(w, s);
    case LaunchChild(_, _, _) => StartStepKeepsInv(w, s);
    case WriteRecord(_) => StartStepKeepsInv(w, s);
    case RecordFails(_) => StartStepKeepsInv(w, s);
    case GiveUp(_) => ReadyStepKeepsInv(w, s);
    case ReadyLock(_) => ReadyStepKeepsInv(w, s);
    case ReadyRead(_) => ReadyStepKeepsInv(w, s);
    case ReadyWrite(_, _) => ReadyStepKeepsInv(w, s);
    case StopLock(_) => StopStepKeepsInv(w, s);
    case StopRead(_) => StopStepKeepsInv(w, s);
    case StopUnlink(_) => StopStepKeepsInv(w, s);
    case _ => EndingStepKeepsInv(w, s);
  }

  /** A start finds its way clear exactly when nothing running has the recorded id; where the id
      has been given away, it cannot go on. */
  lemma StartCheckExactly(w: World, c: Controller)
    requires PhaseOf(w, c) == StartLocked
    ensures Next(w, StartCheck(c)).Some? <==> !RecordedHolder(w) && !OtherHolder(w)
    ensures Next(w, StartCheck(c)).Some? ==> Next(w, StartCheck(c)).value == w.(phases := w.phases[c := StartClear])
  {}

  /** A stop goes after the recorded process exactly when that very process runs, and forgets
      the record exactly when nothing running has its id; where the id has been given away, it
      lets go of the lock and touches neither the record nor any process. */
  lemma StopReadExactly(w: World, c: Controller)
    requires PhaseOf(w, c) == StopLocked
    ensures Next(w, StopRead(c))
         == Some(w.(phases := w.phases[c :=
              if OtherHolder(w) then Releasing(Idle)
              else if RecordedHolder(w) then StopFound(w.record.value.process) else StopGone]))
  {}

  // -------------------------------------------------------------------- whole runs

  function After(w: World, steps: seq<Step>): Option<World>
    decreases |steps|
  {
    if steps == [] then Some(w)
    else
      var next := Next(w, steps[0]);
      if next == None then None else After(next.value, steps[1..])
  }

  /** No controller dies between launch and record write while its child runs. */
  predicate HarmlessRun(w: World, steps: seq<Step>)
    decreases |steps|
  {
    steps == []
    || (Harmless(w, steps[0])
        && (Next(w, steps[0]).Some? ==> HarmlessRun(Next(w, steps[0]).value, steps[1..])))
  }

  lemma {:induction false} RunKeepsInv(w: World, steps: seq<Step>)
    requires Inv(w) && After(w, steps).Some? && HarmlessRun(w, steps)
    ensures Inv(After(w, steps).value)
    decreases |steps|
  {
    if steps != [] {
      StepKeepsInv(w, steps[0]);
      RunKeepsInv(Next(w, steps[0]).value, steps[1..]);
    }
  }

  /** Over every interleaving: at most one server this profile launched is running, the
      record names it as soon as its launch is recorded, and only processes that some start
      launched were ever signalled. */
  lemma OneOwnedServer(w: World, steps: seq<Step>)
    requires Init(w) && After(w, steps).Some? && HarmlessRun(w, steps)
    ensures var end := After(w, steps).value;
            && (forall p, q :: p in end.launched && q in end.launched && Running(end, p) && Running(end, q) ==> p == q)
            && ((forall c: Controller :: !PhaseOf(end, c).Launched?) ==>
                  forall p :: p in end.launched && Running(end, p) ==> Recorded(end) == Some(p))
            && end.signalled <= end.launched
  {
    InitHolds(w);
    RunKeepsInv(w, steps);
    var end := After(w, steps).value;
    if c: Controller :| PhaseOf(end, c).Launched? {
      assert PhaseHolds(end, PhaseOf(end, c));
    }
  }

  /** A process that was recorded once and is not recorded now. */
  ghost predicate Retired(w: World, p: Process) {
    && p in w.launched && Recorded(w) != Some(p)
    && forall c: Controller :: !(PhaseOf(w, c).Launched? && PhaseOf(w, c).process == p)
  }

  /** What one step may do to the record: name the child its controller just launched, forget
      it, or note readiness on the very record that is there. */
  lemma RecordChanges(w: World, s: Step)
    requires Inv(w) && Next(w, s).Some?
    ensures var w' := Next(w, s).value;
            || w'.record == w.record
            || (s.WriteRecord? && PhaseOf(w, s.c).Launched? && Recorded(w') == Some(PhaseOf(w, s.c).process))
            || (s.StopUnlink? && w'.record == None)
            || (s.ReadyWrite? && w.record.Some? && w'.record == Some(w.record.value.(ready := Some(s.time))))
  {
    if s.ReadyWrite? { assert PhaseHolds(w, PhaseOf(w, s.c)); }
  }

  lemma OthersNeverLaunch(w: World, s: Step, c: Controller)
    ensures NextReady(w, s).Some? && PhaseOf(NextReady(w, s).value, c).Launched? ==>
              PhaseOf(w, c) == PhaseOf(NextReady(w, s).value, c)
    ensures NextStop(w, s).Some? && PhaseOf(NextStop(w, s).value, c).Launched? ==>
              PhaseOf(w, c) == PhaseOf(NextStop(w, s).value, c)
  {}

  lemma EndingNeverLaunches(w: World, s: Step, c: Controller)
    requires NextEnding(w, s).Some? && PhaseOf(NextEnding(w, s).value, c).Launched?
    ensures PhaseOf(w, c) == PhaseOf(NextEnding(w, s).value, c)
  {}

  lemma StartLaunchesNew(w: World, s: Step, c: Controller)
    requires Inv(w) && NextStart(w, s).Some? && PhaseOf(NextStart(w, s).value, c).Launched?
    ensures PhaseOf(w, c) == PhaseOf(NextStart(w, s).value, c)
         || (s.LaunchChild? && s.p == PhaseOf(NextStart(w, s).value, c).process && s.p !in w.launched)
  {}

  /** Phases change one controller at a time, and a launch is always of a new process. */
  lemma LaunchedPhases(w: World, s: Step, c: Controller)
    requires Inv(w) && Next(w, s).Some? && PhaseOf(Next(w, s).value, c).Launched?
    ensures PhaseOf(w, c) == PhaseOf(Next(w, s).value, c)
         || (s.LaunchChild? && s.p == PhaseOf(Next(w, s).value, c).process && s.p !in w.launched)
  {
    if s.Release? {
      assert PhaseHolds(w, PhaseOf(w, s.c));
    } else if NextStart(w, s).Some? {
      StartLaunchesNew(w, s, c);
    } else if NextReady(w, s).Some? || NextStop(w, s).Some? {
      OthersNeverLaunch(w, s, c);
    } else if NextEnding(w, s).Some? {
      EndingNeverLaunches(w, s, c);
    }
  }

  lemma RetiredStays(w: World, s: Step, p: Process)
    requires Inv(w) && Next(w, s).Some? && Retired(w, p)
    ensures Retired(Next(w, s).value, p)
  {
    var w' := Next(w, s).value;
    RecordChanges(w, s);
    assert p in w'.launched;
    forall c: Controller ensures !(PhaseOf(w', c).Launched? && PhaseOf(w', c).process == p) {
      if PhaseOf(w', c).Launched? { LaunchedPhases(w, s, c); }
    }
  }

  lemma LeavingRetires(w: World, s: Step, p: Process)
    requires Inv(w) && Next(w, s).Some? && Recorded(w) == Some(p) && Recorded(Next(w, s).value) != Some(p)
    ensures Retired(Next(w, s).value, p)
  {
    var w' := Next(w, s).value;
    assert p in w'.launched;
    forall c: Controller ensures !(PhaseOf(w', c).Launched? && PhaseOf(w', c).process == p) {
      assert PhaseHolds(w, PhaseOf(w, c));
      if PhaseOf(w', c).Launched? { LaunchedPhases(w, s, c); }
    }
  }

  lemma {:induction false} RetiredForever(w: World, steps: seq<Step>, p: Process)
    requires Inv(w) && After(w, steps).Some? && HarmlessRun(w, steps) && Retired(w, p)
    ensures Recorded(After(w, steps).value) != Some(p)
    decreases |steps|
  {
    if steps != [] {
      StepKeepsInv(w, steps[0]);
      RetiredStays(w, steps[0], p);
      RetiredForever(Next(w, steps[0]).value, steps[1..], p);
    }
  }

  /** A record that was replaced or removed never comes back, however late a readiness
      recording for its process arrives. */
  lemma NeverRevived(w: World, s: Step, later: seq<Step>, p: Process)
    requires Inv(w) && Next(w, s).Some? && Harmless(w, s)
    requires Recorded(w) == Some(p) && Recorded(Next(w, s).value) != Some(p)
    requires After(Next(w, s).value, later).Some? && HarmlessRun(Next(w, s).value, later)
    ensures Recorded(After(Next(w, s).value, later).value) != Some(p)
  {
    StepKeepsInv(w, s);
    LeavingRetires(w, s, p);
    RetiredForever(Next(w, s).value, later, p);
  }

  /** Without the assumption about crashes the promise fails: a controller that dies between
      launching and recording leaves a server the next start cannot see. */
  lemma CrashBeforeRecordBreaksIt()
    ensures var w := World(None, None, map[], {}, {}, {}, map[]);
            var launch := Launch("ovms", [], map[], "model");
            var p, q := Process(1, 10), Process(2, 20);
            var end := After(w, [StartLock(0), StartCheck(0), LaunchChild(0, p, launch), CrashUnrecorded(0),
                                 StartLock(1), StartCheck(1), LaunchChild(1, q, launch), WriteRecord(1)]);
            && Init(w) && end.Some? && {p, q} <= end.value.launched
            && Running(end.value, p) && Running(end.value, q) && Recorded(end.value) == Some(q)
  {
    var w := World(None, None, map[], {}, {}, {}, map[]);
    var launch := Launch("ovms", [], map[], "model");
    var p, q := Process(1, 10), Process(2, 20);
    var s1, s2, s3 := StartLock(0), StartCheck(0), LaunchChild(0, p, launch);
    var t1, t2, t3 := StartLock(1), StartCheck(1), LaunchChild(1, q, launch);
    var w3 := Crashed(w, p, launch);
    AfterJoin(w, [s1, s2, s3, CrashUnrecorded(0)], [t1, t2, t3, WriteRecord(1)]);
    assert [s1, s2, s3, CrashUnrecorded(0)] + [t1, t2, t3, WriteRecord(1)]
        == [s1, s2, s3, CrashUnrecorded(0), t1, t2, t3, WriteRecord(1)];
    SecondStart(w3, q, launch);
  }

  lemma {:induction false} AfterJoin(w: World, a: seq<Step>, b: seq<Step>)
    requires After(w, a).Some?
    ensures After(w, a + b) == After(After(w, a).value, b)
    decreases |a|
  {
    if a == [] {
      assert a + b == b;
    } else {
      assert (a + b)[1..] == a[1..] + b;
      AfterJoin(Next(w, a[0]).value, a[1..], b);
    }
  }

  lemma Crashed(w: World, p: Process, launch: Launch) returns (end: World)
    requires w == World(None, None, map[], {}, {}, {}, map[])
    ensures After(w, [StartLock(0), StartCheck(0), LaunchChild(0, p, launch), CrashUnrecorded(0)]) == Some(end)
    ensures end == World(None, None, map[p.pid := Slot(p.created, true)], {p}, {p}, {}, end.phases)
    ensures forall c: Controller :: PhaseOf(end, c) == Idle
  {
    var w2 := Cleared(w);
    var w3 := Next(w2, LaunchChild(0, p, launch)).value;
    end := Next(w3, CrashUnrecorded(0)).value;
    RunFour(w, StartLock(0), StartCheck(0), LaunchChild(0, p, launch), CrashUnrecorded(0));
  }

  /** Nothing is owned: the lock is taken and the way is clear. */
  lemma Cleared(w: World) returns (w2: World)
    requires w == World(None, None, map[], {}, {}, {}, map[])
    ensures Next(w, StartLock(0)).Some? && Next(Next(w, StartLock(0)).value, StartCheck(0)) == Some(w2)
    ensures w2 == World(Some(0), None, map[], {}, {}, {}, map[0 := StartClear])
  {
    var w1 := Next(w, StartLock(0)).value;
    assert w1.phases == map[0 := StartLocked];
    w2 := Next(w1, StartCheck(0)).value;
    assert w2.phases == map[0 := StartClear];
  }

  lemma RunFour(w: World, a: Step, b: Step, c: Step, d: Step)
    requires Next(w, a).Some? && Next(Next(w, a).value, b).Some?
    requires Next(Next(Next(w, a).value, b).value, c).Some?
    ensures After(w, [a, b, c, d]) == Next(Next(Next(Next(w, a).value, b).value, c).value, d)
  {
    var w1 := Next(w, a).value;
    var w2 := Next(w1, b).value;
    var w3 := Next(w2, c).value;
    assert [a, b, c, d][1..] == [b, c, d] && [b, c, d][1..] == [c, d] && [c, d][1..] == [d] && [d][1..] == [];
    assert After(w3, [d]) == Next(w3, d);
    assert After(w2, [c, d]) == After(w3, [d]);
    assert After(w1, [b, c, d]) == After(w2, [c, d]);
  }

  lemma SecondStart(w: World, q: Process, launch: Launch)
    requires w.lock == None && w.record == None && Fresh(w, q) && forall c: Controller :: PhaseOf(w, c) == Idle
    ensures var end := After(w, [StartLock(1), StartCheck(1), LaunchChild(1, q, launch), WriteRecord(1)]);
            && end.Some? && end.value.os == w.os[q.pid := Slot(q.created, true)]
            && end.value.launched == w.launched + {q} && Recorded(end.value) == Some(q)
  {
    var w1 := Next(w, StartLock(1)).value;
    var w2 := Next(w1, StartCheck(1)).value;
    var w3 := Next(w2, LaunchChild(1, q, launch)).value;
    RunFour(w, StartLock(1), StartCheck(1), LaunchChild(1, q, launch), WriteRecord(1));
  }
}
