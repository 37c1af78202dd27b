/** What the log, and runs without skew or disturbance, add to the supervisor's invariant. */
module SupervisorHistory {
  import opened Basics
  import opened ConfigStore
  import opened Supervisor
  import opened SupervisorInvariant

  // ---- publications ----

  ghost predicate PublishedVetted(log: seq<Event>) {
    forall i :: 0 <= i < |log| && log[i].Published? ==> Vetted(log[..i], log[i].pid, log[i].raw)
  }

  ghost predicate GoodWasPublished(d: Disk, log: seq<Event>) {
    d.lastGood.Some? ==> exists p :: Published(p, d.lastGood.value) in log
  }

  /** Only a published document becomes last-good, and only a vetted one is published. */
  ghost predicate PublishStep(p: nat, d: Disk, e: Effect, log: seq<Event>) {
    if e.note.Some? && e.note.value.Published? then
      e.note == Some(Published(p, e.note.value.raw)) && Vetted(log, p, e.note.value.raw) && e.disk.lastGood == Some(e.note.value.raw)
    else e.disk.lastGood == d.lastGood
  }

  lemma StepPublishes(q: Proc, p: nat, d: Disk, m: Memory, log: seq<Event>, ok: bool, id: nat)
    requires InToken(q) ==> HolderOk(p, q, d, m, log)
    ensures PublishStep(p, d, ProcStep(q, p, d, m, ok, id), log)
  {
  }

  lemma PublicationsKept(p: nat, d: Disk, log: seq<Event>, e: Effect)
    requires PublishedVetted(log) && GoodWasPublished(d, log) && PublishStep(p, d, e, log)
    ensures PublishedVetted(NextLog(log, e)) && GoodWasPublished(e.disk, NextLog(log, e))
  {
    var l2 := NextLog(log, e);
    forall i | 0 <= i < |l2| && l2[i].Published? ensures Vetted(l2[..i], l2[i].pid, l2[i].raw) {
      assert l2[..i] == log[..i];
      if i == |log| {
        assert log[..i] == log;
      }
    }
    if e.note.Some? && e.note.value.Published? {
      assert l2[|log|] == e.note.value;
    } else if e.disk.lastGood.Some? {
      var w :| Published(w, d.lastGood.value) in log;
      assert Published(w, d.lastGood.value) in l2;
    }
  }

  // ---- wins: the Applies that succeeded with a new revision ----

  ghost predicate IsWin(e: Event) {
    e.Returned? && e.res.Ok?
  }

  ghost predicate WinsBelow(log: seq<Event>, b: nat) {
    forall i :: 0 <= i < |log| && IsWin(log[i]) ==> log[i].res.revision <= b
  }

  /** Wins get strictly larger revisions, each one more than the revision it matched. */
  ghost predicate WinsOrdered(log: seq<Event>) {
    && (forall i, j :: 0 <= i < j < |log| && IsWin(log[i]) && IsWin(log[j]) ==> log[i].res.revision < log[j].res.revision)
    && (forall i :: 0 <= i < |log| && IsWin(log[i]) ==> MatchedFrom(log[i].req, log[i].res.revision))
  }

  ghost predicate MatchedFrom(req: Request, rev: nat) {
    req.cond.MatchRevision? ==> rev == req.cond.rev + 1
  }

  // ---- revisions in step ----

  /** Memory, counter and last-good meta have one revision. */
  ghost predicate RevSynced(d: Disk, m: Memory) {
    AgentRevision(d) == m.revision && (if d.lastGoodMeta.Some? then d.lastGoodMeta.value.revision == m.revision else m.revision == 0)
  }

  /** An Apply that has installed its box and is on its way out. */
  ghost predicate Winning(q: Proc) {
    q.task.Apply? &&
    match q.pc
    case Settle(_, res) => res.Ok?
    case ResetBackoff(res) => res.Ok?
    case Release(res) => res.Ok?
    case _ => false
  }

  predicate InWindow(pc: Pc) {
    pc.WriteLastGoodMeta? || pc.SaveAgent? || pc.InstallNew?
  }

  /** The points of Apply at which the current revision has been read and not yet replaced. */
  predicate HoldsCurrent(pc: Pc) {
    (IsPrepare(pc) && !pc.ReadCurrent?) || pc.Take? || IsPromote(pc)
  }

  /** What a run that hands out no revision twice keeps about the token holder. */
  ghost predicate RevHolder(q: Proc, d: Disk, m: Memory) {
    && (match q.pc
        case SaveAgent(_, _) => AgentRevision(d) == m.revision
        case InstallNew(_, meta) => meta.revision == m.revision + 1
        case _ => RevSynced(d, m))
    && (q.task.Apply? && HoldsCurrent(q.pc) ==> q.cur == m.revision && MatchedFrom(q.task.req, q.cur + 1))
    && (Winning(q) ==> q.pc.res.revision == m.revision == q.cur + 1 && MatchedFrom(q.task.req, q.cur + 1))
  }

  ghost predicate RevData(h: Option<Proc>, d: Disk, m: Memory) {
    if h.Some? then RevHolder(h.value, d, m) else RevSynced(d, m)
  }

  /** No win so far reaches past the current revision; a winner is about to be the newest. */
  ghost predicate CalmLog(h: Option<Proc>, m: Memory, log: seq<Event>) {
    && WinsOrdered(log) && WinsBelow(log, m.revision)
    && (h.Some? && Winning(h.value) ==> WinsBelow(log, h.value.cur))
  }

  /** The holder after a step of the holder, or of anyone when nobody holds the token. */
  function HolderAfter(e: Effect): Option<Proc> {
    if e.next.Some? && InToken(e.next.value) then e.next else None
  }

  lemma RevPrepare(q: Proc, p: nat, d: Disk, m: Memory, ok: bool, id: nat)
    requires IsPrepare(q.pc) && q.task.Apply? && RevHolder(q, d, m)
    ensures var e := StepPrepare(q, q.task.req, p, d, m, ok, id); RevData(HolderAfter(e), e.disk, e.mem)
  {
  }

  lemma RevPromote(q: Proc, p: nat, d: Disk, m: Memory, log: seq<Event>, ok: bool)
    requires IsPromote(q.pc) && HolderOk(p, q, d, m, log) && RevHolder(q, d, m)
    ensures var e := StepPromote(q, p, d, m, ok); !e.skew ==> RevData(HolderAfter(e), e.disk, e.mem)
  {
  }

  lemma RevRestore(q: Proc, p: nat, d: Disk, m: Memory, log: seq<Event>, ok: bool, id: nat)
    requires IsRestore(q.pc) && HolderOk(p, q, d, m, log) && RevHolder(q, d, m)
    ensures var e := StepRestore(q, d, m, ok, id); RevData(HolderAfter(e), e.disk, e.mem)
  {
  }

  lemma RevLeave(q: Proc, p: nat, d: Disk, m: Memory)
    requires InToken(q) && !IsPrepare(q.pc) && !IsPromote(q.pc) && !IsRestore(q.pc)
    requires RevHolder(q, d, m)
    ensures var e := StepLeave(q, p, d, m); RevData(HolderAfter(e), e.disk, e.mem)
  {
  }

  lemma RevOutside(q: Proc, p: nat, d: Disk, m: Memory)
    requires !InToken(q) && RevSynced(d, m)
    ensures var e := StepOutside(q, p, d, m); RevData(HolderAfter(e), e.disk, e.mem)
  {
  }

  // ---- documents in step ----

  /** Memory, counter, last-good and its meta all tell the same story. */
  ghost predicate Synced(d: Disk, m: Memory) {
    if d.lastGoodMeta.Some? then
      var meta := d.lastGoodMeta.value;
      d.lastGood == Some(meta.sha.of) && AgentRevision(d) == meta.revision == m.revision && m.sha == Some(meta.sha)
    else
      d.lastGood.None? && AgentRevision(d) == 0 && m.revision == 0 && m.sha.None?
  }

  /** What an undisturbed run keeps: they agree, except between the writes of a promote. */
  ghost predicate CalmHolder(q: Proc, d: Disk, m: Memory) {
    InWindow(q.pc) || Synced(d, m)
  }

  ghost predicate CalmData(h: Option<Proc>, d: Disk, m: Memory) {
    if h.Some? then CalmHolder(h.value, d, m) else Synced(d, m)
  }

  lemma CalmPrepare(q: Proc, p: nat, d: Disk, m: Memory, ok: bool, id: nat)
    requires IsPrepare(q.pc) && q.task.Apply? && CalmHolder(q, d, m)
    ensures var e := StepPrepare(q, q.task.req, p, d, m, ok, id); CalmData(HolderAfter(e), e.disk, e.mem)
  {
  }

  lemma CalmPromote(q: Proc, p: nat, d: Disk, m: Memory, log: seq<Event>, ok: bool)
    requires IsPromote(q.pc) && HolderOk(p, q, d, m, log) && CalmHolder(q, d, m)
    ensures var e := StepPromote(q, p, d, m, ok); !e.cut ==> CalmData(HolderAfter(e), e.disk, e.mem)
  {
  }

  lemma CalmRestore(q: Proc, p: nat, d: Disk, m: Memory, log: seq<Event>, ok: bool, id: nat)
    requires IsRestore(q.pc) && HolderOk(p, q, d, m, log) && CalmHolder(q, d, m)
    ensures var e := StepRestore(q, d, m, ok, id); CalmData(HolderAfter(e), e.disk, e.mem)
  {
  }

  lemma CalmLeave(q: Proc, p: nat, d: Disk, m: Memory)
    requires InToken(q) && !IsPrepare(q.pc) && !IsPromote(q.pc) && !IsRestore(q.pc)
    requires CalmHolder(q, d, m)
    ensures var e := StepLeave(q, p, d, m); CalmData(HolderAfter(e), e.disk, e.mem)
  {
  }

  lemma CalmOutside(q: Proc, p: nat, d: Disk, m: Memory)
    requires !InToken(q) && Synced(d, m)
    ensures var e := StepOutside(q, p, d, m); CalmData(HolderAfter(e), e.disk, e.mem)
  {
  }

  /** A win is logged only by the release of a winner; a new winner has just moved the revision up. */
  ghost predicate LogStep(h: Option<Proc>, p: nat, m: Memory, e: Effect) {
    && m.revision <= e.mem.revision
    && (e.note.Some? && IsWin(e.note.value) ==>
          h.Some? && Winning(h.value) && h.value.cur + 1 == m.revision && MatchedFrom(h.value.task.req, m.revision)
          && e.note == Some(Returned(p, h.value.task.req, Ok(m.revision))) && HolderAfter(e).None?)
    && (HolderAfter(e).Some? && Winning(HolderAfter(e).value) ==>
          (h.Some? && Winning(h.value) && HolderAfter(e).value.cur == h.value.cur) || HolderAfter(e).value.cur == m.revision)
  }

  lemma PrepareLogs(q: Proc, p: nat, d: Disk, m: Memory, ok: bool, id: nat)
    requires IsPrepare(q.pc) && q.task.Apply?
    ensures LogStep(Some(q), p, m, StepPrepare(q, q.task.req, p, d, m, ok, id))
  {
  }

  lemma PromoteLogs(q: Proc, p: nat, d: Disk, m: Memory, ok: bool)
    requires IsPromote(q.pc) && q.task.Apply? && RevHolder(q, d, m)
    ensures LogStep(Some(q), p, m, StepPromote(q, p, d, m, ok))
  {
  }

  lemma RestoreLogs(q: Proc, p: nat, d: Disk, m: Memory, log: seq<Event>, ok: bool, id: nat)
    requires IsRestore(q.pc) && HolderOk(p, q, d, m, log) && StoreOk(d, m)
    ensures LogStep(Some(q), p, m, StepRestore(q, d, m, ok, id))
  {
  }

  lemma LeaveLogs(q: Proc, p: nat, d: Disk, m: Memory)
    requires InToken(q) && !IsPrepare(q.pc) && !IsPromote(q.pc) && !IsRestore(q.pc) && RevHolder(q, d, m)
    ensures LogStep(Some(q), p, m, StepLeave(q, p, d, m))
  {
  }

  lemma CalmLogKept(h: Option<Proc>, p: nat, m: Memory, log: seq<Event>, e: Effect)
    requires CalmLog(h, m, log) && LogStep(h, p, m, e)
    ensures CalmLog(HolderAfter(e), e.mem, NextLog(log, e))
  {
  }
}
