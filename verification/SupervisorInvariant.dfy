/** The inductive invariant of the supervisor and its preservation by every step. */
module SupervisorInvariant {
  import opened Basics
  import opened ConfigStore
  import opened Supervisor

  // ---- the token ----

  /** `applying` is held by exactly the one goroutine that is inside its token section. */
  ghost predicate Token(applying: bool, holder: Option<nat>, procs: map<nat, Proc>, nextPid: nat) {
    && (applying <==> holder.Some?)
    && (holder.Some? ==> holder.value in procs)
    && (forall p :: p in procs ==> p < nextPid && (InToken(procs[p]) <==> holder == Some(p)))
  }

  /** How a step may treat the token: only a free one is taken, only its holder frees it. */
  ghost predicate TokenStep(q: Proc, m: Memory, e: Effect) {
    var inside := e.next.Some? && InToken(e.next.value);
    if InToken(q) then e.mem.applying <==> inside
    else if inside then !m.applying && e.mem.applying
    else e.mem.applying == m.applying
  }

  lemma OutsideRespectsToken(q: Proc, p: nat, d: Disk, m: Memory)
    requires !InToken(q)
    ensures TokenStep(q, m, StepOutside(q, p, d, m))
  {
  }

  lemma PrepareRespectsToken(q: Proc, req: Request, p: nat, d: Disk, m: Memory, ok: bool, id: nat)
    requires IsPrepare(q.pc) && m.applying
    ensures TokenStep(q, m, StepPrepare(q, req, p, d, m, ok, id))
  {
    hide Matches, SameAsRunning;
  }

  lemma PromoteRespectsToken(q: Proc, p: nat, d: Disk, m: Memory, ok: bool)
    requires IsPromote(q.pc) && m.applying
    ensures TokenStep(q, m, StepPromote(q, p, d, m, ok))
  {
  }

  lemma RestoreRespectsToken(q: Proc, d: Disk, m: Memory, ok: bool, id: nat)
    requires IsRestore(q.pc) && m.applying
    ensures TokenStep(q, m, StepRestore(q, d, m, ok, id))
  {
  }

  lemma LeaveRespectsToken(q: Proc, p: nat, d: Disk, m: Memory)
    requires InToken(q) && m.applying
    ensures TokenStep(q, m, StepLeave(q, p, d, m))
  {
  }

  lemma InsideRespectsToken(q: Proc, p: nat, d: Disk, m: Memory, ok: bool, id: nat)
    requires InToken(q) && m.applying
    ensures TokenStep(q, m, ProcStep(q, p, d, m, ok, id))
  {
    hide TokenStep, StepOutside, StepPrepare, StepPromote, StepRestore, StepLeave;
    if IsPrepare(q.pc) && q.task.Apply? {
      PrepareRespectsToken(q, q.task.req, p, d, m, ok, id);
    } else if IsPromote(q.pc) {
      PromoteRespectsToken(q, p, d, m, ok);
    } else if IsRestore(q.pc) {
      RestoreRespectsToken(q, d, m, ok, id);
    } else {
      LeaveRespectsToken(q, p, d, m);
    }
  }

  lemma TokenKept(m: Memory, holder: Option<nat>, procs: map<nat, Proc>, nextPid: nat, p: nat, e: Effect)
    requires Token(m.applying, holder, procs, nextPid)
    requires p in procs && TokenStep(procs[p], m, e)
    ensures Token(e.mem.applying, NextHolder(holder, p, e), NextProcs(procs, p, e, nextPid), nextPid + 1)
  {
  }

  // ---- the data ----

  /** The same goroutine had this document validated, started and probed. */
  ghost predicate Vetted(log: seq<Event>, p: nat, raw: Document) {
    Validated(p, raw) in log && Started(p, raw) in log && Probed(p, raw) in log
  }

  ghost predicate StagedIs(d: Disk, raw: Document) {
    d.staged == Some(raw) && d.stagedMeta.Some? && d.stagedMeta.value.sha == Hash(raw)
  }

  ghost predicate GoodIs(d: Disk, raw: Document, meta: Meta) {
    d.lastGood == Some(raw) && d.lastGoodMeta == Some(meta)
  }

  /** A box that is about to be promoted by the Apply of `raw`. */
  ghost predicate Candidate(box: Instance, raw: Document, log: seq<Event>, p: nat, m: Memory) {
    box.bytes == raw && Vetted(log, p, raw) && m.inst.None?
  }

  /** A promote under way: the new meta is one ahead of the counter. */
  ghost predicate Promoting(box: Instance, meta: Meta, d: Disk, m: Memory) {
    m.inst.None? && meta.sha == Hash(box.bytes) && meta.revision == AgentRevision(d) + 1
  }

  /** What the token holder `p` at `q` knows. */
  ghost predicate HolderOk(p: nat, q: Proc, d: Disk, m: Memory, log: seq<Event>) {
    var raw := if q.task.Apply? then q.task.req.raw else EMPTY_DOCUMENT;
    && (IsPrepare(q.pc) || IsPromote(q.pc) ==> q.task.Apply?)
    && match q.pc
       case LoadForStage => Validated(p, raw) in log
       case WriteStaged(meta) => Validated(p, raw) in log && meta.sha == Hash(raw)
       case WriteStagedMeta(meta) => Validated(p, raw) in log && meta.sha == Hash(raw) && d.staged == Some(raw)
       case Take => q.task.Apply? ==> Validated(p, raw) in log && StagedIs(d, raw)
       case Start => Validated(p, raw) in log && StagedIs(d, raw) && m.inst.None?
       case Probe(box) =>
         Validated(p, raw) in log && Started(p, raw) in log && StagedIs(d, raw) && m.inst.None? && box.bytes == raw
       case ReadStaged(box) => Candidate(box, raw, log, p, m) && StagedIs(d, raw)
       case ReadStagedMeta(box, r) => Candidate(box, raw, log, p, m) && StagedIs(d, raw) && r == raw
       case LoadForPromote(box, r, meta) => Candidate(box, raw, log, p, m) && r == raw && meta.sha == Hash(raw)
       case WriteLastGood(box, r, meta) => Candidate(box, raw, log, p, m) && r == raw && Promoting(box, meta, d, m)
       case WriteLastGoodMeta(box, meta) => Promoting(box, meta, d, m) && d.lastGood == Some(box.bytes)
       case SaveAgent(box, meta) => Promoting(box, meta, d, m) && GoodIs(d, box.bytes, meta)
       case InstallNew(box, meta) => GoodIs(d, box.bytes, meta) && meta.sha == Hash(box.bytes) && meta.revision == AgentRevision(d)
       case ReadGoodMeta(r) => d.lastGood == Some(r)
       case StartGood(r, meta) => GoodIs(d, r, meta)
       case ProbeGood(box, meta) => GoodIs(d, box.bytes, meta)
       case InstallGood(box, meta) => GoodIs(d, box.bytes, meta)
       case _ => true
  }

  /** The running box was started from the stored last-good document, and the revisions agree. */
  ghost predicate StoreOk(d: Disk, m: Memory) {
    && (m.inst.Some? ==> d.lastGood == Some(m.inst.value.bytes))
    && RevisionBand(d)
    && m.revision <= StoredRevision(d)
    && 1 <= m.backoff <= MAX_BACKOFF
  }

  function NextLog(log: seq<Event>, e: Effect): seq<Event> {
    if e.note.Some? then log + [e.note.value] else log
  }

  /** A goroutine without the token touches no file, installs no box and changes no revision. */
  ghost predicate Harmless(d: Disk, m: Memory, e: Effect) {
    && e.disk == d && !e.cut && !e.skew
    && (e.mem.inst == m.inst || e.mem.inst.None?)
    && e.mem.revision == m.revision && e.mem.sha == m.sha && e.mem.backoff == m.backoff
    && (e.note.Some? ==> e.note.value.Returned? && !e.note.value.res.Ok?)
  }

  lemma OutsideHarmless(q: Proc, p: nat, d: Disk, m: Memory)
    ensures Harmless(d, m, StepOutside(q, p, d, m))
  {
  }

  /** What the holder knows survives the steps of all the others. */
  lemma HolderStable(p: nat, q: Proc, d: Disk, m: Memory, log: seq<Event>, e: Effect)
    requires HolderOk(p, q, d, m, log) && Harmless(d, m, e)
    ensures HolderOk(p, q, d, e.mem, NextLog(log, e))
  {
  }

  /** The obligation of every step taken under the token. */
  ghost predicate HolderStepOk(p: nat, e: Effect, log: seq<Event>) {
    && StoreOk(e.disk, e.mem)
    && (e.next.Some? ==> HolderOk(p, e.next.value, e.disk, e.mem, NextLog(log, e)))
  }

  lemma PrepareOk(q: Proc, p: nat, d: Disk, m: Memory, log: seq<Event>, ok: bool, id: nat)
    requires IsPrepare(q.pc) && HolderOk(p, q, d, m, log) && StoreOk(d, m)
    ensures HolderStepOk(p, StepPrepare(q, q.task.req, p, d, m, ok, id), log)
  {
  }

  lemma PromoteOk(q: Proc, p: nat, d: Disk, m: Memory, log: seq<Event>, ok: bool)
    requires IsPromote(q.pc) && HolderOk(p, q, d, m, log) && StoreOk(d, m)
    ensures HolderStepOk(p, StepPromote(q, p, d, m, ok), log)
  {
  }

  lemma RestoreOk(q: Proc, p: nat, d: Disk, m: Memory, log: seq<Event>, ok: bool, id: nat)
    requires IsRestore(q.pc) && HolderOk(p, q, d, m, log) && StoreOk(d, m)
    ensures HolderStepOk(p, StepRestore(q, d, m, ok, id), log)
  {
  }

  lemma TakeOk(q: Proc, p: nat, d: Disk, m: Memory, log: seq<Event>)
    requires q.pc.Take? && HolderOk(p, q, d, m, log) && StoreOk(d, m)
    ensures HolderStepOk(p, StepLeave(q, p, d, m), log)
  {
  }

  lemma ReleaseOk(q: Proc, p: nat, d: Disk, m: Memory, log: seq<Event>)
    requires q.pc.Release? && StoreOk(d, m)
    ensures HolderStepOk(p, StepLeave(q, p, d, m), log)
  {
  }

  lemma SettleOk(q: Proc, p: nat, d: Disk, m: Memory, log: seq<Event>)
    requires q.pc.Restored? || q.pc.RestoreFailed? || q.pc.Settle? || q.pc.ResetBackoff?
    requires StoreOk(d, m)
    ensures HolderStepOk(p, StepLeave(q, p, d, m), log)
  {
  }
}
