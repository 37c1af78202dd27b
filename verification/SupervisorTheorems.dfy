/** The supervisor's guarantees over every run. */
module SupervisorTheorems {
  import opened Basics
  import opened ConfigStore
  import opened Supervisor
  import opened SupervisorInvariant
  import opened SupervisorHistory

  ghost predicate TokenOk(s: System) {
    Token(s.mem.applying, s.holder, s.procs, s.nextPid)
  }

  ghost function HolderProc(s: System): Option<Proc> {
    if s.holder.Some? && s.holder.value in s.procs then Some(s.procs[s.holder.value]) else None
  }

  ghost predicate HolderKnows(s: System) {
    HolderProc(s).Some? ==> HolderOk(s.holder.value, HolderProc(s).value, s.disk, s.mem, s.log)
  }

  ghost predicate RevOk(s: System) {
    !s.skewed ==> RevData(HolderProc(s), s.disk, s.mem) && CalmLog(HolderProc(s), s.mem, s.log)
  }

  ghost predicate CalmOk(s: System) {
    !s.disturbed ==> CalmData(HolderProc(s), s.disk, s.mem)
  }

  ghost predicate Inv(s: System) {
    && TokenOk(s)
    && HolderKnows(s)
    && StoreOk(s.disk, s.mem)
    && PublishedVetted(s.log) && GoodWasPublished(s.disk, s.log)
    && RevOk(s) && CalmOk(s)
  }

  // ---- preservation by a step of goroutine `p` ----

  lemma GoKeepsToken(s: System, p: nat, ok: bool)
    requires TokenOk(s) && p in s.procs
    ensures TokenOk(Advance(s, p, ok))
  {
    var q := s.procs[p];
    if InToken(q) {
      InsideRespectsToken(q, p, s.disk, s.mem, ok, s.nextInst);
    } else {
      OutsideRespectsToken(q, p, s.disk, s.mem);
    }
    TokenKept(s.mem, s.holder, s.procs, s.nextPid, p, ProcStep(q, p, s.disk, s.mem, ok, s.nextInst));
  }

  /** After a step of the holder, or of anyone when the token is free, the holder is the one who moved or nobody. */
  lemma HolderMoves(s: System, p: nat, e: Effect)
    requires TokenOk(s) && p in s.procs && (s.holder.None? || s.holder == Some(p))
    requires TokenStep(s.procs[p], s.mem, e)
    ensures var h := NextHolder(s.holder, p, e);
            var procs := NextProcs(s.procs, p, e, s.nextPid);
            && (h.Some? ==> h.value == p && p in procs && Some(procs[p]) == HolderAfter(e))
            && (h.None? ==> HolderAfter(e).None?)
  {
  }

  /** A step by someone else leaves the holder where it is. */
  lemma HolderStays(s: System, p: nat, e: Effect)
    requires TokenOk(s) && p in s.procs && s.holder.Some? && s.holder != Some(p)
    requires TokenStep(s.procs[p], s.mem, e)
    ensures NextHolder(s.holder, p, e) == s.holder
    ensures var procs := NextProcs(s.procs, p, e, s.nextPid);
            s.holder.value in procs && procs[s.holder.value] == s.procs[s.holder.value]
  {
  }

  lemma HolderStep(q: Proc, p: nat, d: Disk, m: Memory, log: seq<Event>, ok: bool, id: nat)
    requires InToken(q) && HolderOk(p, q, d, m, log) && StoreOk(d, m)
    ensures HolderStepOk(p, ProcStep(q, p, d, m, ok, id), log)
  {
    if IsPrepare(q.pc) {
      PrepareOk(q, p, d, m, log, ok, id);
    } else if IsPromote(q.pc) {
      PromoteOk(q, p, d, m, log, ok);
    } else if IsRestore(q.pc) {
      RestoreOk(q, p, d, m, log, ok, id);
    } else if q.pc.Take? {
      TakeOk(q, p, d, m, log);
    } else if q.pc.Release? {
      ReleaseOk(q, p, d, m, log);
    } else {
      SettleOk(q, p, d, m, log);
    }
  }

  lemma FreeStep(q: Proc, p: nat, d: Disk, m: Memory, log: seq<Event>)
    requires !InToken(q) && StoreOk(d, m)
    ensures HolderStepOk(p, StepOutside(q, p, d, m), log)
  {
    OutsideHarmless(q, p, d, m);
  }

  lemma GoKeepsData(s: System, p: nat, ok: bool)
    requires TokenOk(s) && HolderKnows(s) && StoreOk(s.disk, s.mem) && p in s.procs
    ensures HolderKnows(Advance(s, p, ok)) && StoreOk(Advance(s, p, ok).disk, Advance(s, p, ok).mem)
  {
    var q := s.procs[p];
    var e := ProcStep(q, p, s.disk, s.mem, ok, s.nextInst);
    if InToken(q) {
      InsideRespectsToken(q, p, s.disk, s.mem, ok, s.nextInst);
      HolderMoves(s, p, e);
      HolderStep(q, p, s.disk, s.mem, s.log, ok, s.nextInst);
    } else {
      OutsideRespectsToken(q, p, s.disk, s.mem);
      OutsideHarmless(q, p, s.disk, s.mem);
      FreeStep(q, p, s.disk, s.mem, s.log);
      if s.holder.None? {
        HolderMoves(s, p, e);
      } else {
        HolderStays(s, p, e);
        HolderStable(s.holder.value, HolderProc(s).value, s.disk, s.mem, s.log, e);
      }
    }
  }

  lemma HolderRev(q: Proc, p: nat, d: Disk, m: Memory, log: seq<Event>, ok: bool, id: nat)
    requires InToken(q) && HolderOk(p, q, d, m, log) && StoreOk(d, m) && RevHolder(q, d, m)
    ensures var e := ProcStep(q, p, d, m, ok, id);
            (!e.skew ==> RevData(HolderAfter(e), e.disk, e.mem)) && LogStep(Some(q), p, m, e)
  {
    if IsPrepare(q.pc) {
      RevPrepare(q, p, d, m, ok, id);
      PrepareLogs(q, p, d, m, ok, id);
    } else if IsPromote(q.pc) {
      RevPromote(q, p, d, m, log, ok);
      PromoteLogs(q, p, d, m, ok);
    } else if IsRestore(q.pc) {
      RevRestore(q, p, d, m, log, ok, id);
      RestoreLogs(q, p, d, m, log, ok, id);
    } else {
      RevLeave(q, p, d, m);
      LeaveLogs(q, p, d, m);
    }
  }

  lemma HolderCalm(q: Proc, p: nat, d: Disk, m: Memory, log: seq<Event>, ok: bool, id: nat)
    requires InToken(q) && HolderOk(p, q, d, m, log) && CalmHolder(q, d, m)
    ensures var e := ProcStep(q, p, d, m, ok, id);
            !e.cut ==> CalmData(HolderAfter(e), e.disk, e.mem)
  {
    if IsPrepare(q.pc) {
      CalmPrepare(q, p, d, m, ok, id);
    } else if IsPromote(q.pc) {
      CalmPromote(q, p, d, m, log, ok);
    } else if IsRestore(q.pc) {
      CalmRestore(q, p, d, m, log, ok, id);
    } else {
      CalmLeave(q, p, d, m);
    }
  }

  lemma OutsideLogs(q: Proc, p: nat, d: Disk, m: Memory)
    requires !InToken(q)
    ensures LogStep(None, p, m, StepOutside(q, p, d, m))
  {
    OutsideHarmless(q, p, d, m);
  }

  lemma RevOthers(q: Proc, d: Disk, m: Memory, log: seq<Event>, e: Effect)
    requires RevHolder(q, d, m) && CalmLog(Some(q), m, log) && Harmless(d, m, e)
    ensures RevHolder(q, e.disk, e.mem) && CalmLog(Some(q), e.mem, NextLog(log, e))
  {
  }

  lemma GoKeepsRev(s: System, p: nat, ok: bool)
    requires TokenOk(s) && HolderKnows(s) && StoreOk(s.disk, s.mem) && RevOk(s) && p in s.procs
    ensures RevOk(Advance(s, p, ok))
  {
    var q := s.procs[p];
    var e := ProcStep(q, p, s.disk, s.mem, ok, s.nextInst);
    if s.skewed || e.skew {
    } else if InToken(q) {
      InsideRespectsToken(q, p, s.disk, s.mem, ok, s.nextInst);
      HolderMoves(s, p, e);
      HolderRev(q, p, s.disk, s.mem, s.log, ok, s.nextInst);
      CalmLogKept(Some(q), p, s.mem, s.log, e);
    } else {
      OutsideRespectsToken(q, p, s.disk, s.mem);
      OutsideHarmless(q, p, s.disk, s.mem);
      if s.holder.None? {
        HolderMoves(s, p, e);
        RevOutside(q, p, s.disk, s.mem);
        OutsideLogs(q, p, s.disk, s.mem);
        CalmLogKept(None, p, s.mem, s.log, e);
      } else {
        HolderStays(s, p, e);
        RevOthers(HolderProc(s).value, s.disk, s.mem, s.log, e);
      }
    }
  }

  lemma GoKeepsCalm(s: System, p: nat, ok: bool)
    requires TokenOk(s) && HolderKnows(s) && CalmOk(s) && p in s.procs
    ensures CalmOk(Advance(s, p, ok))
  {
    var q := s.procs[p];
    var e := ProcStep(q, p, s.disk, s.mem, ok, s.nextInst);
    if s.disturbed || e.cut {
    } else if InToken(q) {
      InsideRespectsToken(q, p, s.disk, s.mem, ok, s.nextInst);
      HolderMoves(s, p, e);
      HolderCalm(q, p, s.disk, s.mem, s.log, ok, s.nextInst);
    } else {
      OutsideRespectsToken(q, p, s.disk, s.mem);
      OutsideHarmless(q, p, s.disk, s.mem);
      if s.holder.None? {
        HolderMoves(s, p, e);
        CalmOutside(q, p, s.disk, s.mem);
      } else {
        HolderStays(s, p, e);
      }
    }
  }

  lemma GoKeepsInv(s: System, p: nat, ok: bool)
    requires Inv(s) && p in s.procs
    ensures Inv(Advance(s, p, ok))
  {
    var q := s.procs[p];
    GoKeepsToken(s, p, ok);
    GoKeepsData(s, p, ok);
    GoKeepsRev(s, p, ok);
    GoKeepsCalm(s, p, ok);
    StepPublishes(q, p, s.disk, s.mem, s.log, ok, s.nextInst);
    PublicationsKept(p, s.disk, s.log, ProcStep(q, p, s.disk, s.mem, ok, s.nextInst));
  }

  /** What NewWithOptions loads is never ahead of the store, and never behind what it was if the reads work. */
  lemma BootOk(d: Disk, m: Memory, stateOk: bool, goodOk: bool)
    requires StoreOk(d, m)
    ensures StoreOk(d, BootMemory(d, stateOk, goodOk))
    ensures stateOk && goodOk ==> m.revision <= BootMemory(d, stateOk, goodOk).revision
  {
  }

  /** Outside the window a restart finds memory, counter and last-good telling the same story. */
  lemma BootSyncs(h: Option<Proc>, p: nat, d: Disk, m: Memory, log: seq<Event>)
    requires StoreOk(d, m) && CalmData(h, d, m)
    requires h.Some? ==> HolderOk(p, h.value, d, m, log) && !h.value.pc.WriteLastGoodMeta? && !h.value.pc.SaveAgent?
    ensures Synced(d, BootMemory(d, true, true))
  {
    if h.Some? && h.value.pc.InstallNew? {
      assert GoodIs(d, h.value.pc.box.bytes, h.value.pc.meta);
    } else {
      assert Synced(d, m);
    }
  }

  /** With meta and counter in step a restart finds their revision, whichever of the two files it can read. */
  lemma BootRevSyncs(h: Option<Proc>, p: nat, d: Disk, m: Memory, log: seq<Event>, stateOk: bool, goodOk: bool)
    requires StoreOk(d, m) && RevData(h, d, m)
    requires h.Some? ==> HolderOk(p, h.value, d, m, log) && !h.value.pc.SaveAgent?
    requires stateOk || goodOk || AgentRevision(d) == 0
    ensures var m2 := BootMemory(d, stateOk, goodOk); RevSynced(d, m2) && m.revision <= m2.revision
  {
    if h.Some? && h.value.pc.InstallNew? {
      assert GoodIs(d, h.value.pc.box.bytes, h.value.pc.meta);
    } else {
      assert RevSynced(d, m);
    }
  }

  lemma LaterLog(h: Option<Proc>, m: Memory, m2: Memory, log: seq<Event>)
    requires CalmLog(h, m, log) && m.revision <= m2.revision
    ensures CalmLog(None, m2, log)
  {
  }

  /** A crash keeps the files, and what is loaded from them is consistent again. */
  lemma CrashKeepsInv(s: System, stateOk: bool, goodOk: bool)
    requires Inv(s)
    ensures Inv(Step(s, Crash(stateOk, goodOk)))
    ensures stateOk && goodOk ==> s.mem.revision <= Step(s, Crash(stateOk, goodOk)).mem.revision
  {
    hide StoreOk, HolderOk, BootMemory, CalmData, RevData, CalmLog, PublishedVetted, GoodWasPublished, AgentRevision;
    var s2 := Step(s, Crash(stateOk, goodOk));
    BootOk(s.disk, s.mem, stateOk, goodOk);
    assert TokenOk(s2) by { BootIdle(s.disk, stateOk, goodOk); }
    var p := if s.holder.Some? then s.holder.value else 0;
    if !s2.disturbed {
      BootSyncs(HolderProc(s), p, s.disk, s.mem, s.log);
      SyncedIsCalm(s2.disk, s2.mem);
    }
    if !s2.skewed {
      BootRevSyncs(HolderProc(s), p, s.disk, s.mem, s.log, stateOk, goodOk);
      LaterLog(HolderProc(s), s.mem, s2.mem, s.log);
      RevSyncedIsCalm(s2.disk, s2.mem);
    }
  }

  lemma BootIdle(d: Disk, stateOk: bool, goodOk: bool)
    ensures !BootMemory(d, stateOk, goodOk).applying
  {
  }

  lemma SyncedIsCalm(d: Disk, m: Memory)
    requires Synced(d, m)
    ensures CalmData(None, d, m)
  {
  }

  lemma RevSyncedIsCalm(d: Disk, m: Memory)
    requires RevSynced(d, m)
    ensures RevData(None, d, m)
  {
  }

  /** Every step of the system keeps the invariant. */
  lemma StepKeepsInv(s: System, a: Action)
    requires Inv(s) && Enabled(s, a)
    ensures Inv(Step(s, a))
  {
    match a
    case Spawn(_) =>
    case Go(p, ok) => GoKeepsInv(s, p, ok);
    case CancelWatch(_) =>
    case Crash(stateOk, goodOk) => CrashKeepsInv(s, stateOk, goodOk);
  }

  lemma {:induction false} RunInv(tr: seq<System>, acts: seq<Action>, i: nat)
    requires Run(tr, acts) && i < |tr|
    ensures Inv(tr[i])
  {
    if i > 0 {
      RunInv(tr, acts, i - 1);
      StepKeepsInv(tr[i - 1], acts[i - 1]);
    }
  }

  // ---- safety of every run ----

  /** Whatever is running was started from the bytes that are stored as last-good. */
  lemma RunningIsLastGood(tr: seq<System>, acts: seq<Action>, i: nat)
    requires Run(tr, acts) && i < |tr| && tr[i].mem.inst.Some?
    ensures tr[i].disk.lastGood == Some(tr[i].mem.inst.value.bytes)
  {
    RunInv(tr, acts, i);
  }

  /** Apply, BootLastGood, StopBox and the restart loop never overlap in their token sections. */
  lemma TokenExclusive(tr: seq<System>, acts: seq<Action>, i: nat, p: nat, q: nat)
    requires Run(tr, acts) && i < |tr|
    requires p in tr[i].procs && q in tr[i].procs && InToken(tr[i].procs[p]) && InToken(tr[i].procs[q])
    ensures p == q && tr[i].mem.applying
  {
    RunInv(tr, acts, i);
  }

  /**
   * Every document ever published as last-good had already been validated, started
   * and probed by the very Apply that published it, and nothing else is ever stored.
   */
  lemma OnlyVettedIsPublished(tr: seq<System>, acts: seq<Action>, i: nat, k: nat)
    requires Run(tr, acts) && i < |tr|
    requires k < |tr[i].log| && tr[i].log[k].Published?
    ensures Vetted(tr[i].log[..k], tr[i].log[k].pid, tr[i].log[k].raw)
    ensures tr[i].disk.lastGood.Some? ==> exists p :: Published(p, tr[i].disk.lastGood.value) in tr[i].log
  {
    RunInv(tr, acts, i);
  }

  /** The stored revisions stay within one of each other through any failures and crashes. */
  lemma RevisionsStayClose(tr: seq<System>, acts: seq<Action>, i: nat)
    requires Run(tr, acts) && i < |tr|
    ensures RevisionBand(tr[i].disk) && tr[i].mem.revision <= StoredRevision(tr[i].disk)
    ensures 1 <= tr[i].mem.backoff <= 60
  {
    RunInv(tr, acts, i);
  }

  /** A restart that cannot read last-good, and whose counter, as far as it can be read, is behind. */
  predicate FallsBack(s: System, a: Action) {
    a.Crash? && !(a.goodOk && s.disk.lastGoodMeta.Some?) && (if a.stateOk then AgentRevision(s.disk) else 0) < s.mem.revision
  }

  lemma HolderRevision(q: Proc, p: nat, d: Disk, m: Memory, log: seq<Event>, ok: bool, id: nat)
    requires InToken(q) && HolderOk(p, q, d, m, log) && StoreOk(d, m)
    ensures m.revision <= ProcStep(q, p, d, m, ok, id).mem.revision
  {
    if q.pc.InstallNew? {
      assert StoredRevision(d) == q.pc.meta.revision;
    } else if q.pc.InstallGood? {
      assert StoredRevision(d) == q.pc.meta.revision;
    }
  }

  lemma RevisionStep(s: System, a: Action)
    requires Inv(s) && Enabled(s, a) && !a.Crash?
    ensures s.mem.revision <= Step(s, a).mem.revision
  {
    match a
    case Go(p, ok) =>
      hide ProcStep;
      var q := s.procs[p];
      if InToken(q) {
        HolderRevision(q, p, s.disk, s.mem, s.log, ok, s.nextInst);
      } else {
        OutsideRevision(q, p, s.disk, s.mem, ok, s.nextInst);
      }
    case _ =>
  }

  lemma OutsideRevision(q: Proc, p: nat, d: Disk, m: Memory, ok: bool, id: nat)
    requires !InToken(q)
    ensures ProcStep(q, p, d, m, ok, id).mem.revision == m.revision
  {
    OutsideHarmless(q, p, d, m);
  }

  /** A step lowers the revision exactly when it is such a restart. */
  lemma UnreadableRestartFalls(s: System, a: Action)
    requires Inv(s) && Enabled(s, a)
    ensures Step(s, a).mem.revision < s.mem.revision <==> FallsBack(s, a)
  {
    if a.Crash? {
      assert StoreOk(s.disk, s.mem);
    } else {
      RevisionStep(s, a);
    }
  }

  /** The supervisor's revision never falls over any stretch of a run without such a restart. */
  lemma {:induction false} RevisionNeverFalls(tr: seq<System>, acts: seq<Action>, i: nat, j: nat)
    requires Run(tr, acts) && i <= j < |tr|
    requires forall k :: i <= k < j ==> !FallsBack(tr[k], acts[k])
    ensures tr[i].mem.revision <= tr[j].mem.revision
  {
    hide Step, Inv, FallsBack;
    if i < j {
      RevisionNeverFalls(tr, acts, i, j - 1);
      RunInv(tr, acts, j - 1);
      UnreadableRestartFalls(tr[j - 1], acts[j - 1]);
    }
  }

  /**
   * No lost update: in a run without skew, of all Applies conditional on revision r at
   * most one succeeds with a new revision, and that revision is r+1.
   */
  lemma NoLostUpdate(tr: seq<System>, acts: seq<Action>, n: nat, i: nat, j: nat, r: nat)
    requires Run(tr, acts) && n < |tr| && !tr[n].skewed
    requires i < |tr[n].log| && j < |tr[n].log|
    requires IsWin(tr[n].log[i]) && tr[n].log[i].req.cond == MatchRevision(r)
    requires IsWin(tr[n].log[j]) && tr[n].log[j].req.cond == MatchRevision(r)
    ensures i == j && tr[n].log[i].res == Ok(r + 1)
  {
    RunInv(tr, acts, n);
  }

  // ---- wins, in any run ----

  /** The revision a conditional Apply works from is the current one until it has replaced it. */
  ghost predicate Based(q: Proc, m: Memory) {
    && (q.task.Apply? && HoldsCurrent(q.pc) ==> q.cur == m.revision && Asked(q.task.req, q.cur))
    && (Winning(q) ==> q.pc.res.revision == m.revision && Asked(q.task.req, q.cur))
  }

  predicate Asked(req: Request, rev: nat) {
    req.cond.MatchRevision? ==> req.cond.rev == rev
  }

  lemma PrepareBased(q: Proc, p: nat, d: Disk, m: Memory, ok: bool, id: nat)
    requires IsPrepare(q.pc) && q.task.Apply? && Based(q, m)
    ensures var e := StepPrepare(q, q.task.req, p, d, m, ok, id);
      e.next.Some? ==> Based(e.next.value, e.mem)
  {
  }

  lemma PromoteBased(q: Proc, p: nat, d: Disk, m: Memory, ok: bool)
    requires IsPromote(q.pc) && q.task.Apply? && Based(q, m)
    ensures var e := StepPromote(q, p, d, m, ok);
      e.next.Some? ==> Based(e.next.value, e.mem)
  {
  }

  lemma RestoreBased(q: Proc, d: Disk, m: Memory, ok: bool, id: nat)
    requires IsRestore(q.pc)
    ensures var e := StepRestore(q, d, m, ok, id);
      e.next.Some? ==> Based(e.next.value, e.mem)
  {
  }

  lemma LeaveBased(q: Proc, p: nat, d: Disk, m: Memory)
    requires InToken(q) && !IsPrepare(q.pc) && !IsPromote(q.pc) && !IsRestore(q.pc) && Based(q, m)
    ensures var e := StepLeave(q, p, d, m);
      e.next.Some? ==> Based(e.next.value, e.mem)
  {
  }

  lemma OwnStepBased(q: Proc, p: nat, d: Disk, m: Memory, log: seq<Event>, ok: bool, id: nat)
    requires InToken(q) && HolderOk(p, q, d, m, log) && Based(q, m)
    ensures var e := ProcStep(q, p, d, m, ok, id);
      e.next.Some? ==> Based(e.next.value, e.mem)
  {
    hide Based, StepPrepare, StepPromote, StepRestore, StepLeave, StepOutside;
    if IsPrepare(q.pc) {
      PrepareBased(q, p, d, m, ok, id);
    } else if IsPromote(q.pc) {
      PromoteBased(q, p, d, m, ok);
    } else if IsRestore(q.pc) {
      RestoreBased(q, d, m, ok, id);
    } else {
      LeaveBased(q, p, d, m);
    }
  }

  lemma EntryBased(q: Proc, p: nat, d: Disk, m: Memory, ok: bool, id: nat)
    requires !InToken(q)
    ensures var e := ProcStep(q, p, d, m, ok, id);
      e.next.Some? && InToken(e.next.value) && e.next.value.task.Apply? ==> Based(e.next.value, e.mem)
  {
  }

  lemma OthersBased(s: System, a: Action, p: nat)
    requires Inv(s) && Enabled(s, a) && p in s.procs && InToken(s.procs[p]) && !(a.Go? && a.pid == p) && !a.Crash?
    ensures Step(s, a).mem.revision == s.mem.revision
  {
    hide HolderOk, StoreOk, RevOk, CalmOk, StepPrepare, StepPromote, StepRestore, StepLeave, StepOutside, InToken;
    if a.Go? {
      assert !InToken(s.procs[a.pid]);
      OutsideHarmless(s.procs[a.pid], a.pid, s.disk, s.mem);
    }
  }

  lemma {:induction false} RunBased(tr: seq<System>, acts: seq<Action>, i: nat, p: nat)
    requires Run(tr, acts) && i < |tr| && p in tr[i].procs && InToken(tr[i].procs[p]) && tr[i].procs[p].task.Apply?
    ensures Based(tr[i].procs[p], tr[i].mem)
  {
    hide Step, ProcStep, HolderOk, StoreOk, RevOk, CalmOk, InToken, HoldsCurrent, Winning;
    RunCameFrom(tr, acts, i, p);
    RunInv(tr, acts, i - 1);
    var s, a := tr[i - 1], acts[i - 1];
    if a.Go? && a.pid == p {
      GoState(tr, acts, i - 1);
      if InToken(s.procs[p]) {
        StepKeepsLocals(s.procs[p], p, s.disk, s.mem, a.ok, s.nextInst);
        RunBased(tr, acts, i - 1, p);
        OwnStepBased(s.procs[p], p, s.disk, s.mem, s.log, a.ok, s.nextInst);
      } else {
        EntryBased(s.procs[p], p, s.disk, s.mem, a.ok, s.nextInst);
      }
    } else {
      RunBased(tr, acts, i - 1, p);
      CrashEmpties(tr, acts, i - 1);
      OthersBased(s, a, p);
    }
  }

  /** Step `k` appends log entry `i`. */
  ghost predicate LoggedAt(tr: seq<System>, k: nat, i: nat) {
    k + 1 < |tr| && |tr[k].log| == i && |tr[k + 1].log| == i + 1
  }

  lemma LogGrows(tr: seq<System>, acts: seq<Action>, k: nat)
    requires Run(tr, acts) && k < |acts|
    ensures tr[k].log <= tr[k + 1].log && |tr[k + 1].log| <= |tr[k].log| + 1
    ensures |tr[k + 1].log| == |tr[k].log| + 1 ==>
      acts[k].Go? && acts[k].pid in tr[k].procs &&
      ProcStep(tr[k].procs[acts[k].pid], acts[k].pid, tr[k].disk, tr[k].mem, acts[k].ok, tr[k].nextInst).note == Some(tr[k + 1].log[|tr[k].log|])
  {
    hide ProcStep;
  }

  lemma {:induction false} EntryLogged(tr: seq<System>, acts: seq<Action>, n: nat, i: nat) returns (k: nat)
    requires Run(tr, acts) && n < |tr| && i < |tr[n].log|
    ensures k < n && LoggedAt(tr, k, i) && tr[k + 1].log[i] == tr[n].log[i]
  {
    hide Step;
    LogGrows(tr, acts, n - 1);
    if i < |tr[n - 1].log| {
      k := EntryLogged(tr, acts, n - 1, i);
    } else {
      k := n - 1;
    }
  }

  lemma {:induction false} LogMonotone(tr: seq<System>, acts: seq<Action>, j: nat, n: nat)
    requires Run(tr, acts) && j <= n < |tr|
    ensures |tr[j].log| <= |tr[n].log|
  {
    hide Step;
    if j < n {
      LogMonotone(tr, acts, j, n - 1);
      LogGrows(tr, acts, n - 1);
    }
  }

  lemma WinStep(q: Proc, p: nat, d: Disk, m: Memory, ok: bool, id: nat)
    ensures var e := ProcStep(q, p, d, m, ok, id);
      e.note.Some? && IsWin(e.note.value) ==>
        InToken(q) && Winning(q) && e.note.value == Returned(p, q.task.req, q.pc.res) && e.next.None? && e.mem.revision == m.revision
  {
    if !InToken(q) {
      OutsideHarmless(q, p, d, m);
    }
  }

  /** The win at step `k` left its revision as the current one, and nobody in a token section. */
  lemma WinLeaves(tr: seq<System>, acts: seq<Action>, k: nat, i: nat)
    requires Run(tr, acts) && LoggedAt(tr, k, i) && IsWin(tr[k + 1].log[i])
    ensures tr[k + 1].mem.revision == tr[k + 1].log[i].res.revision
    ensures tr[k + 1].holder.None?
    ensures acts[k].Go? && acts[k].pid in tr[k].procs
    ensures var q := tr[k].procs[acts[k].pid]; InToken(q) && Winning(q) && q.task.req == tr[k + 1].log[i].req && Asked(q.task.req, q.cur)
  {
    hide ProcStep, HolderOk, StoreOk, RevOk, CalmOk, InToken, Winning, HoldsCurrent;
    LogGrows(tr, acts, k);
    GoState(tr, acts, k);
    var p := acts[k].pid;
    var q := tr[k].procs[p];
    WinStep(q, p, tr[k].disk, tr[k].mem, acts[k].ok, tr[k].nextInst);
    WinIsApply(q);
    RunBased(tr, acts, k, p);
    RunInv(tr, acts, k);
    RunInv(tr, acts, k + 1);
  }

  lemma WinIsApply(q: Proc)
    requires Winning(q)
    ensures q.task.Apply? && q.pc.res.Ok?
  {
  }

  /** A conditional Apply that has replaced the revision matched at least `v`. */
  ghost predicate WinnerAbove(q: Proc, v: nat) {
    Winning(q) && InToken(q) && q.task.req.cond.MatchRevision? ==> q.task.req.cond.rev >= v
  }

  ghost predicate WinnersAbove(s: System, v: nat) {
    forall p :: p in s.procs ==> WinnerAbove(s.procs[p], v)
  }

  lemma NewWinner(q: Proc, p: nat, d: Disk, m: Memory, ok: bool, id: nat)
    requires InToken(q) && Based(q, m)
    ensures var e := ProcStep(q, p, d, m, ok, id);
      e.next.Some? && Winning(e.next.value) ==>
        e.next.value.task == q.task && q.task.Apply? && (Winning(q) || Asked(q.task.req, m.revision))
  {
  }

  lemma EntryIsNoWinner(q: Proc, p: nat, d: Disk, m: Memory, ok: bool, id: nat)
    requires !InToken(q)
    ensures var e := ProcStep(q, p, d, m, ok, id);
      e.next.Some? && InToken(e.next.value) ==> !Winning(e.next.value)
  {
  }

  lemma WinnersStayAbove(tr: seq<System>, acts: seq<Action>, k: nat, v: nat)
    requires Run(tr, acts) && k < |acts| && WinnersAbove(tr[k], v) && tr[k].mem.revision >= v
    ensures WinnersAbove(tr[k + 1], v)
  {
    hide Step, ProcStep, InToken, Winning, Based;
    var s, a, next := tr[k], acts[k], tr[k + 1];
    forall p | p in next.procs ensures WinnerAbove(next.procs[p], v) {
      var q := next.procs[p];
      if Winning(q) && InToken(q) {
        RunCameFrom(tr, acts, k + 1, p);
        if a.Go? && a.pid == p {
          if InToken(s.procs[p]) {
            WinIsApply(q);
            StepKeepsLocals(s.procs[p], p, s.disk, s.mem, a.ok, s.nextInst);
            RunBased(tr, acts, k, p);
            NewWinner(s.procs[p], p, s.disk, s.mem, a.ok, s.nextInst);
          } else {
            EntryIsNoWinner(s.procs[p], p, s.disk, s.mem, a.ok, s.nextInst);
          }
        }
      }
    }
  }

  lemma NobodyWins(s: System, v: nat)
    requires Inv(s) && s.holder.None?
    ensures WinnersAbove(s, v)
  {
    hide InToken, Winning;
  }

  lemma {:induction false} WinnersAboveWin(tr: seq<System>, acts: seq<Action>, a: nat, i: nat, n: nat)
    requires Run(tr, acts) && LoggedAt(tr, a, i) && IsWin(tr[a + 1].log[i]) && a < n < |tr|
    requires forall k :: a < k < n ==> !FallsBack(tr[k], acts[k])
    ensures tr[n].mem.revision >= tr[a + 1].log[i].res.revision && WinnersAbove(tr[n], tr[a + 1].log[i].res.revision)
  {
    hide Step, FallsBack, WinnersAbove, Inv;
    var v := tr[a + 1].log[i].res.revision;
    WinLeaves(tr, acts, a, i);
    RevisionNeverFalls(tr, acts, a + 1, n);
    if n == a + 1 {
      RunInv(tr, acts, n);
      NobodyWins(tr[n], v);
    } else {
      WinnersAboveWin(tr, acts, a, i, n - 1);
      WinnersStayAbove(tr, acts, n - 1, v);
    }
  }

  /**
   * In any run, whatever fails: between two wins lies a restart that falls back, or the
   * later one matched at least the revision the earlier one returned.
   */
  lemma LaterWinsMatchLater(tr: seq<System>, acts: seq<Action>, n: nat, i: nat, j: nat) returns (a: nat, b: nat)
    requires Run(tr, acts) && n < |tr| && i < j < |tr[n].log|
    requires IsWin(tr[n].log[i]) && IsWin(tr[n].log[j]) && tr[n].log[j].req.cond.MatchRevision?
    ensures a < b < n && LoggedAt(tr, a, i) && LoggedAt(tr, b, j)
    ensures (forall k :: a < k < b ==> !FallsBack(tr[k], acts[k])) ==> tr[n].log[i].res.revision <= tr[n].log[j].req.cond.rev
  {
    hide Step, FallsBack, Inv, Winning, InToken;
    a := EntryLogged(tr, acts, n, i);
    b := EntryLogged(tr, acts, n, j);
    if b <= a {
      LogMonotone(tr, acts, b + 1, a + 1);
    }
    if forall k :: a < k < b ==> !FallsBack(tr[k], acts[k]) {
      WinnersAboveWin(tr, acts, a, i, b);
      WinLeaves(tr, acts, b, j);
    }
  }

  /**
   * How an update is lost, in any run: of two wins conditional on one revision the
   * first did not return the next one, or a restart that falls back lies between them.
   */
  lemma LostUpdateHasCause(tr: seq<System>, acts: seq<Action>, n: nat, i: nat, j: nat, r: nat) returns (a: nat, b: nat)
    requires Run(tr, acts) && n < |tr| && i < j < |tr[n].log|
    requires IsWin(tr[n].log[i]) && tr[n].log[i].req.cond == MatchRevision(r)
    requires IsWin(tr[n].log[j]) && tr[n].log[j].req.cond == MatchRevision(r)
    ensures a < b < n && LoggedAt(tr, a, i) && LoggedAt(tr, b, j)
    ensures tr[n].log[i].res.revision != r + 1 || exists k :: a < k < b && FallsBack(tr[k], acts[k])
  {
    hide FallsBack, Step, LoggedAt;
    a, b := LaterWinsMatchLater(tr, acts, n, i, j);
  }

  // ---- what one Apply leaves behind ----

  /** The decision an Apply at `pc` is carrying out of its token section, if it has one. */
  function Verdict(pc: Pc): Option<Result> {
    match pc
    case Restored => Some(Err(RestoredLastGood))
    case Settle(_, res) => Some(res)
    case ResetBackoff(res) => Some(res)
    case Release(res) => Some(res)
    case _ => None
  }

  /** How goroutine `p`, inside its token section after a step, got there. */
  ghost predicate CameFrom(s: System, a: Action, p: nat, q: Proc) {
    p in s.procs &&
    if a.Go? && a.pid == p then ProcStep(s.procs[p], p, s.disk, s.mem, a.ok, s.nextInst).next == Some(q)
    else s.procs[p] == q
  }

  lemma StepCameFrom(s: System, a: Action, p: nat)
    requires Inv(s) && Enabled(s, a) && p in Step(s, a).procs && InToken(Step(s, a).procs[p])
    ensures CameFrom(s, a, p, Step(s, a).procs[p])
  {
    hide ProcStep;
    if a.Go? {
      assert a.pid in s.procs;
      assert s.nextPid !in s.procs;
    }
  }

  /** The same, read off a run; the first state has no goroutine. */
  lemma RunCameFrom(tr: seq<System>, acts: seq<Action>, i: nat, p: nat)
    requires Run(tr, acts) && i < |tr| && p in tr[i].procs && InToken(tr[i].procs[p])
    ensures i > 0 && CameFrom(tr[i - 1], acts[i - 1], p, tr[i].procs[p])
  {
    hide Step;
    if i > 0 {
      RunInv(tr, acts, i - 1);
      StepCameFrom(tr[i - 1], acts[i - 1], p);
    }
  }

  /** A step under the token keeps the task and the remembered entry state. */
  lemma StepKeepsLocals(q: Proc, p: nat, d: Disk, m: Memory, ok: bool, id: nat)
    requires InToken(q)
    ensures var e := ProcStep(q, p, d, m, ok, id);
            e.next.Some? ==> e.next.value.task == q.task && e.next.value.prev == q.prev && e.next.value.snap == q.snap
  {
  }

  /** A step that takes the token remembers the state it finds. */
  lemma EntryStep(q: Proc, p: nat, d: Disk, m: Memory, ok: bool, id: nat)
    requires !InToken(q)
    ensures var e := ProcStep(q, p, d, m, ok, id);
            e.next.Some? && InToken(e.next.value) ==>
              q.pc.Enter? && e.next.value.task == q.task && e.next.value.snap == TakeSnapshot(d, m) && e.next.value.prev == m.phase && Verdict(e.next.value.pc).None?
  {
  }

  /** The step at which goroutine `p` took the token: its snapshot is the state it found then. */
  ghost predicate EntryOf(tr: seq<System>, acts: seq<Action>, j: nat, p: nat, q: Proc)
    requires |tr| == |acts| + 1
  {
    && j < |acts| && acts[j].Go? && acts[j].pid == p && p in tr[j].procs
    && tr[j].procs[p].pc.Enter? && tr[j].procs[p].task == q.task
    && TakeSnapshot(tr[j].disk, tr[j].mem) == q.snap && tr[j].mem.phase == q.prev
  }

  lemma {:induction false} EntryExists(tr: seq<System>, acts: seq<Action>, i: nat, p: nat) returns (j: nat)
    requires Run(tr, acts) && i < |tr| && p in tr[i].procs && InToken(tr[i].procs[p])
    ensures j < i && EntryOf(tr, acts, j, p, tr[i].procs[p])
  {
    hide Step, ProcStep;
    RunCameFrom(tr, acts, i, p);
    var s, a := tr[i - 1], acts[i - 1];
    if a.Go? && a.pid == p && !InToken(s.procs[p]) {
      EntryStep(s.procs[p], p, s.disk, s.mem, a.ok, s.nextInst);
      j := i - 1;
    } else {
      if a.Go? && a.pid == p {
        StepKeepsLocals(s.procs[p], p, s.disk, s.mem, a.ok, s.nextInst);
      }
      j := EntryExists(tr, acts, i - 1, p);
    }
  }

  // ---- transparency ----

  /** Goroutine `p` fails to write the meta or the counter: its promote is cut. */
  predicate CutsAt(s: System, a: Action, p: nat) {
    a == Go(p, false) && p in s.procs && (s.procs[p].pc.WriteLastGoodMeta? || s.procs[p].pc.SaveAgent?)
  }

  /** Goroutine `p` has cut its own promote since it took the token. */
  ghost predicate OwnCut(tr: seq<System>, acts: seq<Action>, i: nat, p: nat)
    requires |tr| == |acts| + 1 && i < |tr|
  {
    i > 0 && p in tr[i - 1].procs && InToken(tr[i - 1].procs[p]) &&
    (OwnCut(tr, acts, i - 1, p) || CutsAt(tr[i - 1], acts[i - 1], p))
  }

  /** Revision and hash in memory are those of the last-good meta, if there is one. */
  predicate Agrees(sn: Snapshot) {
    sn.meta.Some? ==> sn.revision == sn.meta.value.revision && sn.sha == Some(sn.meta.value.sha)
  }

  predicate AsFound(sn: Snapshot, d: Disk, m: Memory) {
    d.lastGood == sn.lastGood && d.lastGoodMeta == sn.meta && (Agrees(sn) ==> sn == TakeSnapshot(d, m))
  }

  /** An Apply leaves last-good as it found it until its promote, and its own document there if that is cut. */
  ghost predicate Kept(q: Proc, d: Disk, m: Memory, cut: bool) {
    q.task.Apply? &&
    if cut || InWindow(q.pc) then d.lastGood == Some(q.task.req.raw) else Winning(q) || AsFound(q.snap, d, m)
  }

  predicate CutsNow(q: Proc, ok: bool) {
    !ok && (q.pc.WriteLastGoodMeta? || q.pc.SaveAgent?)
  }

  lemma PrepareKeeps(q: Proc, p: nat, d: Disk, m: Memory, ok: bool, id: nat, cut: bool)
    requires IsPrepare(q.pc) && Kept(q, d, m, cut)
    ensures var e := StepPrepare(q, q.task.req, p, d, m, ok, id);
      e.next.Some? && InToken(e.next.value) ==> Kept(e.next.value, e.disk, e.mem, cut)
  {
  }

  lemma PromoteKeeps(q: Proc, p: nat, d: Disk, m: Memory, log: seq<Event>, ok: bool, cut: bool)
    requires IsPromote(q.pc) && HolderOk(p, q, d, m, log) && Kept(q, d, m, cut)
    ensures var e := StepPromote(q, p, d, m, ok);
      e.next.Some? && InToken(e.next.value) ==> Kept(e.next.value, e.disk, e.mem, cut || CutsNow(q, ok))
  {
  }

  lemma RestoreKeeps(q: Proc, p: nat, d: Disk, m: Memory, log: seq<Event>, ok: bool, id: nat, cut: bool)
    requires IsRestore(q.pc) && HolderOk(p, q, d, m, log) && Kept(q, d, m, cut)
    ensures var e := StepRestore(q, d, m, ok, id);
      e.next.Some? && InToken(e.next.value) ==> Kept(e.next.value, e.disk, e.mem, cut)
  {
  }

  lemma LeaveKeeps(q: Proc, p: nat, d: Disk, m: Memory, cut: bool)
    requires InToken(q) && !IsPrepare(q.pc) && !IsPromote(q.pc) && !IsRestore(q.pc) && Kept(q, d, m, cut)
    ensures var e := StepLeave(q, p, d, m);
      e.next.Some? && InToken(e.next.value) ==> Kept(e.next.value, e.disk, e.mem, cut)
  {
  }

  lemma OwnStepKeeps(q: Proc, p: nat, d: Disk, m: Memory, log: seq<Event>, ok: bool, id: nat, cut: bool)
    requires InToken(q) && HolderOk(p, q, d, m, log) && Kept(q, d, m, cut)
    ensures var e := ProcStep(q, p, d, m, ok, id);
      e.next.Some? && InToken(e.next.value) ==> Kept(e.next.value, e.disk, e.mem, cut || CutsNow(q, ok))
  {
    hide HolderOk, Kept, StepPrepare, StepPromote, StepRestore, StepLeave, StepOutside;
    assert q.task.Apply? by { KeptIsApply(q, d, m, cut); }
    if IsPrepare(q.pc) {
      PrepareKeeps(q, p, d, m, ok, id, cut);
    } else if IsPromote(q.pc) {
      PromoteKeeps(q, p, d, m, log, ok, cut);
    } else if IsRestore(q.pc) {
      RestoreKeeps(q, p, d, m, log, ok, id, cut);
    } else {
      LeaveKeeps(q, p, d, m, cut);
    }
  }

  lemma KeptIsApply(q: Proc, d: Disk, m: Memory, cut: bool)
    requires Kept(q, d, m, cut)
    ensures q.task.Apply?
  {
  }

  /** Nobody else touches what the token holder found. */
  lemma OthersKeep(s: System, a: Action, p: nat, cut: bool)
    requires Inv(s) && Enabled(s, a) && p in s.procs && InToken(s.procs[p]) && !(a.Go? && a.pid == p) && !a.Crash?
    requires Kept(s.procs[p], s.disk, s.mem, cut)
    ensures Kept(s.procs[p], Step(s, a).disk, Step(s, a).mem, cut)
  {
    hide HolderOk, StoreOk, RevOk, CalmOk, StepPrepare, StepPromote, StepRestore, StepLeave, StepOutside, InToken;
    if a.Go? {
      assert !InToken(s.procs[a.pid]);
      OutsideHarmless(s.procs[a.pid], a.pid, s.disk, s.mem);
    }
  }

  lemma EntryIsAsFound(q: Proc, p: nat, d: Disk, m: Memory, ok: bool, id: nat)
    requires !InToken(q)
    ensures var e := ProcStep(q, p, d, m, ok, id);
      e.next.Some? && InToken(e.next.value) && e.next.value.task.Apply? ==> Kept(e.next.value, e.disk, e.mem, false)
  {
  }

  lemma {:induction false} KeptUnlessCut(tr: seq<System>, acts: seq<Action>, i: nat, p: nat)
    requires Run(tr, acts) && i < |tr| && p in tr[i].procs && InToken(tr[i].procs[p]) && tr[i].procs[p].task.Apply?
    ensures Kept(tr[i].procs[p], tr[i].disk, tr[i].mem, OwnCut(tr, acts, i, p))
  {
    hide Step, ProcStep, Kept, HolderOk, StoreOk, RevOk, CalmOk, InToken;
    RunCameFrom(tr, acts, i, p);
    RunInv(tr, acts, i - 1);
    var s, a := tr[i - 1], acts[i - 1];
    if a.Go? && a.pid == p {
      GoState(tr, acts, i - 1);
      if InToken(s.procs[p]) {
        StepKeepsLocals(s.procs[p], p, s.disk, s.mem, a.ok, s.nextInst);
        KeptUnlessCut(tr, acts, i - 1, p);
        OwnStepKeeps(s.procs[p], p, s.disk, s.mem, s.log, a.ok, s.nextInst, OwnCut(tr, acts, i - 1, p));
      } else {
        EntryIsAsFound(s.procs[p], p, s.disk, s.mem, a.ok, s.nextInst);
      }
    } else {
      KeptUnlessCut(tr, acts, i - 1, p);
      CrashEmpties(tr, acts, i - 1);
      OthersKeep(s, a, p, OwnCut(tr, acts, i - 1, p));
    }
  }

  lemma GoState(tr: seq<System>, acts: seq<Action>, k: nat)
    requires Run(tr, acts) && k < |acts| && acts[k].Go?
    ensures var e := ProcStep(tr[k].procs[acts[k].pid], acts[k].pid, tr[k].disk, tr[k].mem, acts[k].ok, tr[k].nextInst);
      tr[k + 1].disk == e.disk && tr[k + 1].mem == e.mem
  {
    hide ProcStep;
  }

  lemma CrashEmpties(tr: seq<System>, acts: seq<Action>, k: nat)
    requires Run(tr, acts) && k < |acts|
    ensures acts[k].Crash? ==> tr[k + 1].procs == map[]
  {
    hide ProcStep;
  }

  /**
   * Transparency, in every run: an Apply that fails for any reason, or is a noop, and
   * has not cut its own promote leaves last-good and its meta as they were when it took
   * the token, and revision and content hash too if they were those of that meta.  One
   * that has cut its promote leaves its own document as last-good.
   */
  lemma FailedApplyIsTransparent(tr: seq<System>, acts: seq<Action>, i: nat, p: nat) returns (j: nat)
    requires Run(tr, acts) && i < |acts| && acts[i].Go? && acts[i].pid == p
    requires p in tr[i].procs && tr[i].procs[p].task.Apply? && tr[i].procs[p].pc.Release? && !tr[i].procs[p].pc.res.Ok?
    ensures j < i && EntryOf(tr, acts, j, p, tr[i].procs[p])
    ensures !OwnCut(tr, acts, i, p) ==>
      tr[i + 1].disk.lastGood == tr[j].disk.lastGood && tr[i + 1].disk.lastGoodMeta == tr[j].disk.lastGoodMeta
    ensures !OwnCut(tr, acts, i, p) && Agrees(TakeSnapshot(tr[j].disk, tr[j].mem)) ==>
      TakeSnapshot(tr[i + 1].disk, tr[i + 1].mem) == TakeSnapshot(tr[j].disk, tr[j].mem)
    ensures OwnCut(tr, acts, i, p) ==> tr[i + 1].disk.lastGood == Some(tr[i].procs[p].task.req.raw)
  {
    hide Step, StepOutside, StepPrepare, StepPromote, StepRestore;
    j := EntryExists(tr, acts, i, p);
    KeptUnlessCut(tr, acts, i, p);
    GoState(tr, acts, i);
  }

  /**
   * A noop is decided against the recorded hash.  In any run the verdict is right
   * exactly when that hash is the one of the stored last-good document; an undisturbed
   * run always satisfies this.
   */
  lemma NoopComparesRunning(tr: seq<System>, acts: seq<Action>, i: nat, p: nat)
    requires Run(tr, acts) && i < |tr| && p in tr[i].procs && tr[i].procs[p].pc.CheckSame? && tr[i].procs[p].task.Apply?
    requires SameAsRunning(tr[i].mem, tr[i].procs[p].task.req, tr[i].procs[p].prev)
    ensures tr[i].disk.lastGood.Some?
    ensures tr[i].mem.inst.value.bytes == tr[i].procs[p].task.req.raw
            <==> tr[i].mem.sha == Some(Hash(tr[i].disk.lastGood.value))
    ensures !tr[i].disturbed ==> tr[i].mem.inst.value.bytes == tr[i].procs[p].task.req.raw
  {
    RunInv(tr, acts, i);
    assert HolderProc(tr[i]) == Some(tr[i].procs[p]);
  }

  lemma VerdictStep(q: Proc, p: nat, d: Disk, m: Memory, ok: bool, id: nat)
    requires InToken(q) && q.task.Apply?
    ensures var e := ProcStep(q, p, d, m, ok, id);
      e.next.Some? && Verdict(e.next.value.pc).Some? && Verdict(e.next.value.pc) != Verdict(q.pc) ==>
        match Verdict(e.next.value.pc).value
        case Noop(_) => q.pc.CheckSame? && SameAsRunning(m, q.task.req, q.prev)
        case Err(RestoredLastGood) => q.pc.InstallGood? && e.mem.inst == Some(q.pc.box)
        case _ => true
  {
  }

  /** The phase an Apply sets on the way out, by its verdict and the phase it found on entry. */
  function PhaseFor(res: Result, prev: Phase): Phase {
    match res
    case Err(RestoredLastGood) => RolledBack
    case Err(BoxDown) => Stopped
    case Err(_) => prev
    case _ => Running
  }

  lemma SettleStep(q: Proc, p: nat, d: Disk, m: Memory, ok: bool, id: nat)
    requires InToken(q) && q.task.Apply?
    ensures var e := ProcStep(q, p, d, m, ok, id);
      e.next.Some? && e.next.value.pc.Settle? && !q.pc.Settle? ==> e.next.value.pc.phase == PhaseFor(e.next.value.pc.res, q.prev)
    ensures q.pc.Settle? ==> var e := ProcStep(q, p, d, m, ok, id);
      e.next.Some? && !e.next.value.pc.Settle? && e.mem.phase == q.pc.phase && Verdict(e.next.value.pc) == Some(q.pc.res)
  {
  }

  /** Every Apply settles on the phase its verdict calls for: a mere refusal puts the entry phase back. */
  lemma {:induction false} SettlesOnVerdict(tr: seq<System>, acts: seq<Action>, i: nat, p: nat)
    requires Run(tr, acts) && i < |tr| && p in tr[i].procs && tr[i].procs[p].task.Apply? && tr[i].procs[p].pc.Settle?
    ensures tr[i].procs[p].pc.phase == PhaseFor(tr[i].procs[p].pc.res, tr[i].procs[p].prev)
  {
    hide Step, ProcStep;
    RunCameFrom(tr, acts, i, p);
    var s, a := tr[i - 1], acts[i - 1];
    if a.Go? && a.pid == p {
      if InToken(s.procs[p]) {
        StepKeepsLocals(s.procs[p], p, s.disk, s.mem, a.ok, s.nextInst);
        SettleStep(s.procs[p], p, s.disk, s.mem, a.ok, s.nextInst);
      } else {
        EntryStep(s.procs[p], p, s.disk, s.mem, a.ok, s.nextInst);
        assert false;
      }
    } else {
      SettlesOnVerdict(tr, acts, i - 1, p);
    }
  }

  /** The step at which the verdict of goroutine `p` was reached. */
  ghost predicate Decided(tr: seq<System>, acts: seq<Action>, k: nat, p: nat, q: Proc)
    requires |tr| == |acts| + 1
  {
    k < |acts| && acts[k].Go? && acts[k].pid == p && p in tr[k].procs && tr[k].procs[p].task == q.task && q.task.Apply? &&
    match Verdict(q.pc)
    case Some(Noop(_)) => tr[k].procs[p].pc.CheckSame? && SameAsRunning(tr[k].mem, q.task.req, tr[k].procs[p].prev)
    case Some(Err(RestoredLastGood)) => tr[k].procs[p].pc.InstallGood? && tr[k + 1].mem.inst == Some(tr[k].procs[p].pc.box)
    case _ => false
  }

  lemma {:induction false} DecisionExists(tr: seq<System>, acts: seq<Action>, i: nat, p: nat) returns (k: nat)
    requires Run(tr, acts) && i < |tr| && p in tr[i].procs && tr[i].procs[p].task.Apply?
    requires Verdict(tr[i].procs[p].pc).Some?
    requires Verdict(tr[i].procs[p].pc).value.Noop? || Verdict(tr[i].procs[p].pc).value == Err(RestoredLastGood)
    ensures k < i && Decided(tr, acts, k, p, tr[i].procs[p])
  {
    hide Step, ProcStep;
    RunCameFrom(tr, acts, i, p);
    var s, a := tr[i - 1], acts[i - 1];
    if a.Go? && a.pid == p {
      var q := s.procs[p];
      var e := ProcStep(q, p, s.disk, s.mem, a.ok, s.nextInst);
      if !InToken(q) {
        EntryStep(q, p, s.disk, s.mem, a.ok, s.nextInst);
        assert false;
      } else {
        StepKeepsLocals(q, p, s.disk, s.mem, a.ok, s.nextInst);
        VerdictStep(q, p, s.disk, s.mem, a.ok, s.nextInst);
      }
      if Verdict(q.pc) == Verdict(tr[i].procs[p].pc) {
        k := DecisionExists(tr, acts, i - 1, p);
      } else {
        GoState(tr, acts, i - 1);
        k := i - 1;
      }
    } else {
      k := DecisionExists(tr, acts, i - 1, p);
    }
  }

  /**
   * A failed start, probe or promote whose restore succeeded: the Apply has itself
   * put back a box of exactly the stored last-good bytes.
   */
  lemma RestoredMeansLastGoodRuns(tr: seq<System>, acts: seq<Action>, i: nat, p: nat) returns (k: nat)
    requires Run(tr, acts) && i < |tr| && p in tr[i].procs && tr[i].procs[p].task.Apply?
    requires Verdict(tr[i].procs[p].pc) == Some(Err(RestoredLastGood))
    ensures k < i && acts[k].Go? && acts[k].pid == p && tr[k + 1].mem.inst.Some?
    ensures tr[k + 1].disk.lastGood == Some(tr[k + 1].mem.inst.value.bytes)
    ensures p in tr[k].procs && tr[k].procs[p].pc.InstallGood?
  {
    hide Step, ProcStep;
    k := DecisionExists(tr, acts, i, p);
    RunInv(tr, acts, k + 1);
  }

  /** An Apply that reports a noop found, in an undisturbed run, exactly its own document running. */
  lemma NoopMeansRunning(tr: seq<System>, acts: seq<Action>, i: nat, p: nat) returns (k: nat)
    requires Run(tr, acts) && i < |tr| && !tr[i].disturbed && p in tr[i].procs && tr[i].procs[p].task.Apply?
    requires Verdict(tr[i].procs[p].pc).Some? && Verdict(tr[i].procs[p].pc).value.Noop?
    ensures k < i && acts[k].Go? && acts[k].pid == p && tr[k].mem.inst.Some?
    ensures tr[k].mem.inst.value.bytes == tr[i].procs[p].task.req.raw
  {
    hide Step, ProcStep;
    k := DecisionExists(tr, acts, i, p);
    if tr[k].disturbed {
      DisturbanceStays(tr, acts, k, i);
    }
    NoopComparesRunning(tr, acts, k, p);
  }

  lemma {:induction false} DisturbanceStays(tr: seq<System>, acts: seq<Action>, k: nat, i: nat)
    requires Run(tr, acts) && k <= i < |tr| && tr[k].disturbed
    ensures tr[i].disturbed
  {
    hide ProcStep;
    if k < i {
      DisturbanceStays(tr, acts, k, i - 1);
    }
  }
}
