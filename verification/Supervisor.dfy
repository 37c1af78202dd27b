/**
 * The config supervisor as a state machine (internal/supervisor/supervisor.go).
 *
 * Any number of goroutines run Apply, BootLastGood, StopBox, Shutdown, crash
 * watchers and restart loops.  One step is one region executed under `mu`, one
 * file write or read, or one call into the engine.  The outcome of every read,
 * write, validation, start and probe is chosen by the environment, a box may die
 * at any moment, and the process may crash and restart between any two steps.
 */
module Supervisor {
  import opened Basics
  import opened ConfigStore

  datatype Phase = Stopped | Starting | Running | Applying | Degraded | RolledBack

  datatype Match = MatchNone | MatchRevision(rev: nat) | MatchSha(sha: Option<Digest>)

  datatype Request = Request(raw: Document, source: Source, cond: Match, force: bool)

  /** A started box; `id` is its identity, `bytes` what it was started from. */
  datatype Instance = Instance(id: nat, bytes: Document)

  /** The fields of the Supervisor that `mu` guards; backoff is in seconds. */
  datatype Memory = Memory(
    phase: Phase,
    inst: Option<Instance>,
    sha: Option<Digest>,
    revision: nat,
    applying: bool,
    shutdown: bool,
    backoff: nat
  )

  datatype Failure = Busy | Invalid | Precondition | StoreFailed | RestoredLastGood | BoxDown

  datatype Result = Ok(revision: nat) | Noop(revision: nat) | Err(why: Failure)

  datatype Task =
    | Apply(req: Request)
    | Boot
    | Stop
    | ShutDown
    | Watch(inst: Instance)
    | RestartLoop

  /** Where a goroutine is.  The constructors follow the order of the code. */
  datatype Pc =
    // outside the `applying` token
    | Enter
    | CheckGood
    | AwaitDeath
    | LoopCheck
    | ShutdownTake
    | ShutdownSettle
    // Apply
    | ReadCurrent
    | CheckSame
    | Validate
    | LoadForStage
    | WriteStaged(meta: Meta)
    | WriteStagedMeta(meta: Meta)
    | Take
    | Start
    | Probe(box: Instance)
    | ReadStaged(box: Instance)
    | ReadStagedMeta(box: Instance, raw: Document)
    | LoadForPromote(box: Instance, raw: Document, meta: Meta)
    | WriteLastGood(box: Instance, raw: Document, meta: Meta)
    | WriteLastGoodMeta(box: Instance, meta: Meta)
    | SaveAgent(box: Instance, meta: Meta)
    | InstallNew(box: Instance, meta: Meta)
    // restoreLastGood
    | ReadGood
    | ReadGoodMeta(raw: Document)
    | StartGood(raw: Document, meta: Meta)
    | ProbeGood(box: Instance, meta: Meta)
    | InstallGood(box: Instance, meta: Meta)
    | Restored
    | RestoreFailed
    // leaving
    | Settle(phase: Phase, res: Result)
    | ResetBackoff(res: Result)
    | Release(res: Result)

  /** What an Apply must leave alone unless it succeeds. */
  datatype Snapshot = Snapshot(lastGood: Option<Document>, meta: Option<Meta>, revision: nat, sha: Option<Digest>)

  /** A goroutine: `prev` and `cur` are Apply's locals, `snap` what it found on entry. */
  datatype Proc = Proc(task: Task, pc: Pc, prev: Phase, cur: nat, snap: Snapshot)

  datatype Event =
    | Validated(pid: nat, raw: Document)
    | Started(pid: nat, raw: Document)
    | Probed(pid: nat, raw: Document)
    | Published(pid: nat, raw: Document)
    | Returned(pid: nat, req: Request, res: Result)

  /**
   * The whole system.  `holder`, `log`, `skewed` and `disturbed` only record what
   * happened; no step depends on them.  `skewed` is raised when a promote is cut
   * between the meta and the counter, by a failing write or by a crash, or when a
   * restart can read neither last-good nor a counter that has moved: then a revision
   * may be handed out twice.  `disturbed` is raised when a promote is cut after its
   * first write, by a failing write or by a crash, or when a restart cannot read
   * the store.
   */
  datatype System = System(
    disk: Disk,
    mem: Memory,
    procs: map<nat, Proc>,
    nextPid: nat,
    nextInst: nat,
    holder: Option<nat>,
    log: seq<Event>,
    skewed: bool,
    disturbed: bool
  )

  // ---- the locked regions, as functions on the guarded fields ----

  const MAX_BACKOFF := 60

  function PhaseOnApply(p: Phase): Phase {
    if p == Running || p == RolledBack then Applying else Starting
  }

  /** NewWithOptions: the revision is the counter unless last-good can be read. */
  function BootMemory(d: Disk, stateOk: bool, goodOk: bool): Memory {
    var rev := if stateOk then AgentRevision(d) else 0;
    if goodOk && d.lastGood.Some? && d.lastGoodMeta.Some? then
      Memory(Stopped, None, Some(d.lastGoodMeta.value.sha), d.lastGoodMeta.value.revision, false, false, 1)
    else
      Memory(Stopped, None, None, rev, false, false, 1)
  }

  function TakeInstance(m: Memory): Memory {
    m.(inst := None)
  }

  function InstallInstance(m: Memory, inst: Instance, meta: Meta): Memory {
    m.(inst := Some(inst), sha := Some(meta.sha), revision := meta.revision)
  }

  predicate SameAsRunning(m: Memory, req: Request, prev: Phase) {
    !req.force && m.sha == Some(Hash(req.raw)) && m.inst.Some? && (prev == Running || prev == RolledBack)
  }

  predicate Matches(m: Memory, c: Match) {
    match c
    case MatchNone => true
    case MatchRevision(r) => r == m.revision
    case MatchSha(x) => x == m.sha
  }

  /** restartLoop's doubling, capped at a minute. */
  function NextBackoff(b: nat): nat {
    if b < MAX_BACKOFF then (if b * 2 > MAX_BACKOFF then MAX_BACKOFF else b * 2) else b
  }

  function ReleaseRestart(m: Memory, ok: bool): Memory {
    if ok then m.(applying := false, phase := Running, backoff := 1)
    else m.(applying := false, phase := Degraded, backoff := NextBackoff(m.backoff))
  }

  // ---- one step of one goroutine ----

  predicate InToken(p: Proc) {
    !(p.pc.Enter? || p.pc.CheckGood? || p.pc.AwaitDeath? || p.pc.LoopCheck? || p.pc.ShutdownTake? || p.pc.ShutdownSettle?)
  }

  function TakeSnapshot(d: Disk, m: Memory): Snapshot {
    Snapshot(d.lastGood, d.lastGoodMeta, m.revision, m.sha)
  }

  /**
   * What one step does: the files and fields it leaves, where the goroutine goes
   * next (None when it ends), the event to log, the box whose watcher it starts,
   * whether it cuts a promote short, and whether it does so before the counter.
   */
  datatype Effect = Effect(
    disk: Disk,
    mem: Memory,
    next: Option<Proc>,
    note: Option<Event>,
    spawn: Option<Instance>,
    cut: bool,
    skew: bool
  )

  function To(d: Disk, m: Memory, q: Proc, pc: Pc): Effect {
    Effect(d, m, Some(q.(pc := pc)), None, None, false, false)
  }

  function End(d: Disk, m: Memory): Effect {
    Effect(d, m, None, None, None, false, false)
  }

  /** Taking the token: the entry phase and the stored state are remembered. */
  function Acquire(d: Disk, m: Memory, phase: Phase, q: Proc, pc: Pc): Effect {
    To(d, m.(phase := phase, applying := true), q.(prev := m.phase, snap := TakeSnapshot(d, m)), pc)
  }

  /** The steps taken without the token. */
  function StepOutside(q: Proc, p: nat, d: Disk, m: Memory): Effect {
    match q.pc
    case CheckGood =>
      if d.lastGood.None? then End(d, m) else To(d, m, q, Enter)
    case AwaitDeath =>
      if q.task.Watch? && !m.shutdown && m.inst == Some(q.task.inst) then
        To(d, m.(inst := None, phase := Degraded), q.(task := RestartLoop), LoopCheck)
      else End(d, m)
    case LoopCheck =>
      if m.shutdown || m.applying then End(d, m) else To(d, m, q, Enter)
    case ShutdownTake =>
      To(d, TakeInstance(m), q, ShutdownSettle)
    case ShutdownSettle =>
      End(d, m.(phase := Stopped))
    case _ =>
      match q.task
      case Apply(req) =>
        if m.shutdown || m.applying then End(d, m).(note := Some(Returned(p, req, Err(Busy))))
        else Acquire(d, m, PhaseOnApply(m.phase), q, ReadCurrent)
      case Boot =>
        if m.applying then End(d, m) else Acquire(d, m, Starting, q, ReadGood)
      case Stop =>
        if m.applying then End(d, m) else Acquire(d, m, m.phase, q, Take)
      case RestartLoop =>
        if m.shutdown || m.applying then End(d, m) else Acquire(d, m, m.phase, q, ReadGood)
      case ShutDown =>
        To(d, m.(shutdown := true), q, ShutdownTake)
      case Watch(_) => End(d, m)
  }

  /** applyLocked up to and including the probe of the new box. */
  function StepPrepare(q: Proc, req: Request, p: nat, d: Disk, m: Memory, ok: bool, id: nat): Effect {
    match q.pc
    case ReadCurrent =>
      if req.raw == EMPTY_DOCUMENT then To(d, m, q, Settle(q.prev, Err(Invalid)))
      else if !Matches(m, req.cond) then To(d, m, q, Settle(q.prev, Err(Precondition)))
      else To(d, m, q.(cur := m.revision), CheckSame)
    case CheckSame =>
      if SameAsRunning(m, req, q.prev) then To(d, m, q, Settle(Running, Noop(q.cur))) else To(d, m, q, Validate)
    case Validate =>
      if ok then To(d, m, q, LoadForStage).(note := Some(Validated(p, req.raw)))
      else To(d, m, q, Settle(q.prev, Err(Invalid)))
    case LoadForStage =>
      if ok then To(d, m, q, WriteStaged(StagedMeta(d, req.raw, req.source)))
      else To(d, m, q, Settle(q.prev, Err(StoreFailed)))
    case WriteStaged(meta) =>
      if ok then To(d.(staged := Some(req.raw)), m, q, WriteStagedMeta(meta))
      else To(d, m, q, Settle(q.prev, Err(StoreFailed)))
    case WriteStagedMeta(meta) =>
      if ok then To(d.(stagedMeta := Some(meta)), m, q, Take)
      else To(d, m, q, Settle(q.prev, Err(StoreFailed)))
    case Start =>
      if ok then To(d, m, q, Probe(Instance(id, req.raw))).(note := Some(Started(p, req.raw)))
      else To(d, m, q, ReadGood)
    case Probe(box) =>
      if ok then To(d, m, q, ReadStaged(box)).(note := Some(Probed(p, req.raw))) else To(d, m, q, ReadGood)
    case _ => To(d, m, q, q.pc)
  }

  /** PromoteStaged, one file at a time, and the installation of the new box. */
  function StepPromote(q: Proc, p: nat, d: Disk, m: Memory, ok: bool): Effect {
    match q.pc
    case ReadStaged(box) =>
      if ok && d.staged.Some? then To(d, m, q, ReadStagedMeta(box, d.staged.value)) else To(d, m, q, ReadGood)
    case ReadStagedMeta(box, raw) =>
      if ok && d.stagedMeta.Some? then To(d, m, q, LoadForPromote(box, raw, d.stagedMeta.value))
      else To(d, m, q, ReadGood)
    case LoadForPromote(box, raw, meta) =>
      if ok then To(d, m, q, WriteLastGood(box, raw, PromotedMeta(d, meta))) else To(d, m, q, ReadGood)
    case WriteLastGood(box, raw, meta) =>
      if ok then To(d.(lastGood := Some(raw)), m, q, WriteLastGoodMeta(box, meta)).(note := Some(Published(p, raw)))
      else To(d, m, q, ReadGood)
    case WriteLastGoodMeta(box, meta) =>
      if ok then To(d.(lastGoodMeta := Some(meta)), m, q, SaveAgent(box, meta))
      else To(d, m, q, ReadGood).(cut := true)
    case SaveAgent(box, meta) =>
      if ok then To(d.(agent := Some(meta.revision)), m, q, InstallNew(box, meta))
      else To(d, m, q, ReadGood).(cut := true, skew := true)
    case InstallNew(box, meta) =>
      To(d, InstallInstance(m, box, meta), q, Settle(Running, Ok(meta.revision))).(spawn := Some(box))
    case _ => To(d, m, q, q.pc)
  }

  /** restoreLastGood. */
  function StepRestore(q: Proc, d: Disk, m: Memory, ok: bool, id: nat): Effect {
    match q.pc
    case ReadGood =>
      if ok && d.lastGood.Some? then To(d, m, q, ReadGoodMeta(d.lastGood.value)) else To(d, m, q, RestoreFailed)
    case ReadGoodMeta(raw) =>
      if ok && d.lastGoodMeta.Some? then To(d, m, q, StartGood(raw, d.lastGoodMeta.value))
      else To(d, m, q, RestoreFailed)
    case StartGood(raw, meta) =>
      if ok then To(d, m, q, ProbeGood(Instance(id, raw), meta)) else To(d, m, q, RestoreFailed)
    case ProbeGood(box, meta) =>
      if ok then To(d, m, q, InstallGood(box, meta)) else To(d, m, q, RestoreFailed)
    case InstallGood(box, meta) =>
      To(d, InstallInstance(m, box, meta), q, Restored).(spawn := Some(box))
    case _ => To(d, m, q, q.pc)
  }

  /** takeInstance, what each caller of restoreLastGood does next, and the deferred release. */
  function StepLeave(q: Proc, p: nat, d: Disk, m: Memory): Effect {
    match q.pc
    case Take =>
      To(d, TakeInstance(m), q, if q.task.Apply? then Start else Settle(Stopped, Ok(0)))
    case Restored =>
      (match q.task
       case Apply(_) => To(d, m, q, Settle(RolledBack, Err(RestoredLastGood)))
       case Boot => To(d, m, q, Settle(Running, Ok(0)))
       case _ => To(d, m, q, Release(Ok(0))))
    case RestoreFailed =>
      To(d, m, q, if q.task.RestartLoop? then Release(Err(BoxDown)) else Settle(Stopped, Err(BoxDown)))
    case Settle(phase, res) =>
      To(d, m.(phase := phase), q, if res.Ok? && !q.task.Stop? then ResetBackoff(res) else Release(res))
    case ResetBackoff(res) =>
      To(d, m.(backoff := 1), q, Release(res))
    case Release(res) =>
      if q.task.RestartLoop? then
        (if res.Ok? then End(d, ReleaseRestart(m, true)) else To(d, ReleaseRestart(m, false), q, LoopCheck))
      else
        End(d, m.(applying := false)).(note := if q.task.Apply? then Some(Returned(p, q.task.req, res)) else None)
    case _ => To(d, m, q, q.pc)
  }

  predicate IsPrepare(pc: Pc) {
    pc.ReadCurrent? || pc.CheckSame? || pc.Validate? || pc.LoadForStage? || pc.WriteStaged? || pc.WriteStagedMeta? ||
    pc.Start? || pc.Probe?
  }

  predicate IsPromote(pc: Pc) {
    pc.ReadStaged? || pc.ReadStagedMeta? || pc.LoadForPromote? || pc.WriteLastGood? || pc.WriteLastGoodMeta? ||
    pc.SaveAgent? || pc.InstallNew?
  }

  predicate IsRestore(pc: Pc) {
    pc.ReadGood? || pc.ReadGoodMeta? || pc.StartGood? || pc.ProbeGood? || pc.InstallGood?
  }

  /** The step of goroutine `p` at `q`; `ok` is the outcome of the I/O or engine call, `id` a new box identity. */
  function ProcStep(q: Proc, p: nat, d: Disk, m: Memory, ok: bool, id: nat): Effect {
    if !InToken(q) then StepOutside(q, p, d, m)
    else if IsPrepare(q.pc) && q.task.Apply? then StepPrepare(q, q.task.req, p, d, m, ok, id)
    else if IsPromote(q.pc) then StepPromote(q, p, d, m, ok)
    else if IsRestore(q.pc) then StepRestore(q, d, m, ok, id)
    else StepLeave(q, p, d, m)
  }

  // ---- the system ----

  /** All goroutines after `p` has taken a step with this effect; a started watcher gets its own number. */
  function NextProcs(procs: map<nat, Proc>, p: nat, e: Effect, watcherPid: nat): map<nat, Proc> {
    var moved := if e.next.Some? then procs[p := e.next.value] else procs - {p};
    if e.spawn.Some? then
      moved[watcherPid := Proc(Watch(e.spawn.value), AwaitDeath, Stopped, 0, TakeSnapshot(e.disk, e.mem))]
    else moved
  }

  function NextHolder(holder: Option<nat>, p: nat, e: Effect): Option<nat> {
    if e.next.Some? && InToken(e.next.value) then Some(p) else if holder == Some(p) then None else holder
  }

  function Advance(s: System, p: nat, ok: bool): System
    requires p in s.procs
  {
    var e := ProcStep(s.procs[p], p, s.disk, s.mem, ok, s.nextInst);
    System(
      e.disk,
      e.mem,
      NextProcs(s.procs, p, e, s.nextPid),
      s.nextPid + 1,
      s.nextInst + 1,
      NextHolder(s.holder, p, e),
      if e.note.Some? then s.log + [e.note.value] else s.log,
      s.skewed || e.skew,
      s.disturbed || e.cut
    )
  }

  /** The window in which a crash leaves last-good and its meta or the counter apart. */
  predicate MidPromote(s: System) {
    s.holder.Some? && s.holder.value in s.procs &&
    (s.procs[s.holder.value].pc.WriteLastGoodMeta? || s.procs[s.holder.value].pc.SaveAgent?)
  }

  /** The part of that window in which the meta is published and the counter is not. */
  predicate MidCount(s: System) {
    s.holder.Some? && s.holder.value in s.procs && s.procs[s.holder.value].pc.SaveAgent?
  }

  datatype Action =
    | Spawn(task: Task)
    | Go(pid: nat, ok: bool)
    | CancelWatch(pid: nat)
    | Crash(stateOk: bool, goodOk: bool)

  predicate Enabled(s: System, a: Action) {
    match a
    case Spawn(task) => task.Apply? || task.Boot? || task.Stop? || task.ShutDown?
    case Go(p, _) => p in s.procs
    case CancelWatch(p) => p in s.procs && s.procs[p].pc.AwaitDeath?
    case Crash(_, _) => true
  }

  function NewProc(task: Task): Proc {
    Proc(task, if task.Boot? then CheckGood else Enter, Stopped, 0, Snapshot(None, None, 0, None))
  }

  function Step(s: System, a: Action): System
    requires Enabled(s, a)
  {
    match a
    case Spawn(task) =>
      s.(procs := s.procs[s.nextPid := NewProc(task)], nextPid := s.nextPid + 1)
    case Go(p, ok) => Advance(s, p, ok)
    case CancelWatch(p) => s.(procs := s.procs - {p})
    case Crash(stateOk, goodOk) =>
      s.(mem := BootMemory(s.disk, stateOk, goodOk), procs := map[], holder := None,
         skewed := s.skewed || MidCount(s) || (!stateOk && !goodOk && AgentRevision(s.disk) > 0),
         disturbed := s.disturbed || MidPromote(s) || !stateOk || !goodOk)
  }

  /** A fresh data directory and a freshly created supervisor. */
  const INIT_SYSTEM :=
    System(EMPTY_DISK, BootMemory(EMPTY_DISK, true, true), map[], 0, 0, None, [], false, false)

  /** A run: the states visited by a finite sequence of steps from the initial state. */
  ghost predicate Run(tr: seq<System>, acts: seq<Action>) {
    |tr| == |acts| + 1 && tr[0] == INIT_SYSTEM &&
    forall i :: 0 <= i < |acts| ==> Enabled(tr[i], acts[i]) && tr[i + 1] == Step(tr[i], acts[i])
  }
}
