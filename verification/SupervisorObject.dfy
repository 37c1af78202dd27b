/**
 * The supervisor as the object it is, with its fields and its store updated in place.
 *
 * Each method runs without interference.  Its contract says what the caller gets,
 * and, for every goroutine and every part of one, that its effect is the state
 * machine's: `steps` are the outcomes and box identities with which the goroutine,
 * running alone, does the same.
 */
module SupervisorObject {
  import opened Basics
  import opened ConfigStore
  import opened Supervisor
  import opened SupervisorHistory

  // ---- one goroutine running alone ----

  datatype Config = Config(proc: Option<Proc>, disk: Disk, mem: Memory)

  function Then(c: Config, p: nat, ok: bool, id: nat): Config {
    if c.proc.None? then c
    else
      var e := ProcStep(c.proc.value, p, c.disk, c.mem, ok, id);
      Config(e.next, e.disk, e.mem)
  }

  function Solo(c: Config, p: nat, steps: seq<(bool, nat)>): Config {
    if steps == [] then c
    else
      var last := steps[|steps| - 1];
      Then(Solo(c, p, steps[..|steps| - 1]), p, last.0, last.1)
  }

  lemma {:induction false} SoloAppend(c: Config, p: nat, a: seq<(bool, nat)>, b: seq<(bool, nat)>)
    ensures Solo(c, p, a + b) == Solo(Solo(c, p, a), p, b)
  {
    hide Then;
    if b == [] {
      assert a + b == a;
    } else {
      SoloAppend(c, p, a, b[..|b| - 1]);
      assert (a + b)[..|a + b| - 1] == a + b[..|b| - 1];
    }
  }

  lemma SoloOne(c: Config, p: nat, ok: bool, id: nat)
    ensures Solo(c, p, [(ok, id)]) == Then(c, p, ok, id)
  {
    hide Then;
    assert [(ok, id)][..0] == [];
  }

  // ---- the outcomes of one call ----

  datatype RestoreLuck = RestoreLuck(raw: bool, meta: bool, start: bool, probe: bool)

  /** `upTo` is how many of the promote's three file writes succeed. */
  datatype Luck = Luck(
    validate: bool, load: bool, raw: bool, meta: bool, start: bool, probe: bool, read: bool, loadAgain: bool, upTo: nat, restore: RestoreLuck
  )

  // ---- backoff ----

  /** The backoff after a number of failed restarts in a row. */
  function Backoff(first: nat, failures: nat): nat {
    if failures == 0 then first else NextBackoff(Backoff(first, failures - 1))
  }

  function Pow2(n: nat): nat {
    if n == 0 then 1 else 2 * Pow2(n - 1)
  }

  /** After n failures the loop waits 2^n seconds, and never more than a minute. */
  lemma {:induction false} BackoffIsCappedDoubling(failures: nat)
    ensures Backoff(1, failures) == if Pow2(failures) < 60 then Pow2(failures) else 60
  {
    if failures > 0 {
      BackoffIsCappedDoubling(failures - 1);
    }
  }

  // ---- the object ----

  class Agent {
    const store: Store
    var phase: Phase
    var inst: Option<Instance>
    var sha: Option<Digest>
    var revision: nat
    var applying: bool
    var shutdown: bool
    var backoff: nat
    var nextBox: nat

    ghost function Mem(): Memory
      reads this
    {
      Memory(phase, inst, sha, revision, applying, shutdown, backoff)
    }

    ghost function At(q: Proc): Config
      reads this, store
    {
      Config(Some(q), store.disk, Mem())
    }

    /** NewWithOptions */
    constructor (s: Store, stateOk: bool, goodOk: bool)
      ensures store == s && s.disk == old(s.disk) && Mem() == BootMemory(s.disk, stateOk, goodOk)
      ensures phase == Stopped && inst.None? && !applying && !shutdown && backoff == 1
      ensures goodOk && s.disk.lastGood.Some? && s.disk.lastGoodMeta.Some? ==>
        sha == Some(s.disk.lastGoodMeta.value.sha) && revision == s.disk.lastGoodMeta.value.revision
      ensures !(goodOk && s.disk.lastGood.Some? && s.disk.lastGoodMeta.Some?) ==>
        sha.None? && revision == if stateOk && s.disk.agent.Some? then s.disk.agent.value else 0
    {
      store := s;
      phase, inst, sha, revision := Stopped, None, None, 0;
      applying, shutdown, backoff, nextBox := false, false, 1, 0;
      new;
      if stateOk {
        revision := AgentRevision(s.disk);
      }
      var good := s.ReadLastGood(goodOk, goodOk);
      if good.Some? {
        sha := Some(good.value.1.sha);
        revision := good.value.1.revision;
      }
    }

    method InstallBox(box: Instance, meta: Meta)
      modifies this
      ensures Mem() == InstallInstance(old(Mem()), box, meta) && nextBox == old(nextBox)
      ensures inst == Some(box) && sha == Some(meta.sha) && revision == meta.revision
    {
      inst := Some(box);
      sha := Some(meta.sha);
      revision := meta.revision;
    }

    /** restoreLastGood: on success the box runs the stored last-good document, on failure nothing has changed. */
    method RestoreLastGood(luck: RestoreLuck, ghost q: Proc, ghost p: nat) returns (ok: bool, ghost steps: seq<(bool, nat)>)
      requires q.pc.ReadGood?
      modifies this
      ensures Solo(old(At(q)), p, steps) == At(q.(pc := if ok then Restored else RestoreFailed))
      ensures ok <==> Lucky(luck, store.disk)
      ensures ok <==>
        luck.raw && luck.meta && luck.start && luck.probe && store.disk.lastGood.Some? && store.disk.lastGoodMeta.Some?
      ensures ok ==> inst.Some? && Some(inst.value.bytes) == store.disk.lastGood && inst.value.id == old(nextBox)
      ensures ok ==> sha == Some(store.disk.lastGoodMeta.value.sha) && revision == store.disk.lastGoodMeta.value.revision
      ensures ok ==> Mem() == InstallInstance(old(Mem()), inst.value, store.disk.lastGoodMeta.value)
      ensures !ok ==> Mem() == old(Mem())
    {
      hide Solo, StepOutside, StepPrepare, StepPromote, StepLeave, InToken;
      var good := store.ReadLastGood(luck.raw, luck.meta);
      ok := good.Some? && luck.start && luck.probe;
      steps := RestoreSteps(luck, nextBox, store.disk);
      RestoreRuns(luck, q, p, nextBox, store.disk, Mem());
      nextBox := nextBox + 1;
      if ok {
        InstallBox(Instance(nextBox - 1, good.value.0), good.value.1);
      }
    }

    /** takeInstance, Start and probe; `box` is the new box if it came up. */
    method Launch(req: Request, luck: Luck, ghost q: Proc, ghost p: nat) returns (box: Option<Instance>, ghost steps: seq<(bool, nat)>)
      requires q.pc.Take? && q.task == Task.Apply(req)
      modifies this
      ensures Mem() == TakeInstance(old(Mem()))
      ensures box.Some? <==> luck.start && luck.probe
      ensures box.Some? ==> box.value.bytes == req.raw
      ensures Solo(old(At(q)), p, steps) == At(q.(pc := if box.Some? then ReadStaged(box.value) else ReadGood))
    {
      hide Solo;
      steps := LaunchSteps(luck, nextBox);
      LaunchRuns(luck, q, req, p, nextBox, store.disk, Mem());
      inst := None;
      nextBox := nextBox + 1;
      if !luck.start || !luck.probe { return None, steps; }
      return Some(Instance(nextBox - 1, req.raw)), steps;
    }

    /** The promote, and the end of an Apply whose box came up. */
    method Promote(box: Instance, luck: Luck, ghost q: Proc, ghost p: nat) returns (r: Option<Meta>, ghost steps: seq<(bool, nat)>)
      requires q.pc == ReadStaged(box) && store.disk.staged.Some? && store.disk.stagedMeta.Some? && luck.upTo <= 3
      modifies store
      ensures r.Some? <==> luck.read && luck.loadAgain && luck.upTo == 3
      ensures r.Some? ==> Some(r.value) == store.disk.lastGoodMeta && r.value == PromotedMeta(old(store.disk), old(store.disk).stagedMeta.value)
      ensures store.disk == if luck.read && luck.loadAgain then PromotePrefix(old(store.disk), luck.upTo) else old(store.disk)
      ensures Solo(old(At(q)), p, steps) == At(q.(pc := if r.Some? then InstallNew(box, r.value) else ReadGood))
    {
      hide Solo;
      steps := PromoteSteps(luck);
      PromoteRuns(luck, q, box, p, store.disk, Mem());
      r := store.PromoteStaged(luck.read, luck.loadAgain, luck.upTo);
    }

    /** The final setState, and the reset of the backoff after a success. */
    method Finish(to: Phase, res: Result, ghost q: Proc, ghost p: nat) returns (ghost steps: seq<(bool, nat)>)
      requires q.pc == Settle(to, res) && !q.task.Stop?
      modifies this
      ensures Mem() == Settled(old(Mem()), to, res)
      ensures Solo(old(At(q)), p, steps) == At(q.(pc := Release(res)))
    {
      hide Solo, SettleSteps;
      steps := SettleSteps(res);
      SettleRuns(q, p, store.disk, Mem(), to, res);
      phase := to;
      if res.Ok? {
        backoff := 1;
      }
    }

    /** failStart, and what follows a failed promote. */
    method Recover(luck: RestoreLuck, ghost q: Proc, ghost p: nat) returns (res: Result, ghost steps: seq<(bool, nat)>)
      requires q.pc.ReadGood? && q.task.Apply?
      modifies this
      ensures res == Err(if Lucky(luck, store.disk) then RestoredLastGood else BoxDown)
      ensures Lucky(luck, store.disk) ==> inst.Some? && Some(inst.value.bytes) == store.disk.lastGood
      ensures Lucky(luck, store.disk) ==>
        Mem() == InstallInstance(old(Mem()), inst.value, store.disk.lastGoodMeta.value).(phase := RolledBack)
      ensures !Lucky(luck, store.disk) ==> Mem() == old(Mem()).(phase := Stopped)
      ensures Solo(old(At(q)), p, steps) == At(q.(pc := Release(res)))
    {
      hide Solo, Lucky;
      ghost var start := At(q);
      var ok;
      ok, steps := RestoreLastGood(luck, q, p);
      ghost var mid := At(q.(pc := if ok then Restored else RestoreFailed));
      res := Err(if ok then RestoredLastGood else BoxDown);
      var to := if ok then RolledBack else Stopped;
      ghost var settle := At(q.(pc := Settle(to, res)));
      AfterRestore(q, p, store.disk, Mem(), ok);
      Chain(start, p, steps, mid, [(true, 0)], settle);
      ghost var last := Finish(to, res, q.(pc := Settle(to, res)), p);
      Chain(start, p, steps + [(true, 0)], settle, last, At(q.(pc := Release(res))));
      steps := steps + [(true, 0)] + last;
    }

    /** The checks before anything is written; None is to go on. */
    method Check(req: Request, prev: Phase, valid: bool) returns (r: Option<(Phase, Result)>)
      ensures Checked(ProcOf(req, prev), req, Mem(), valid)
        == if r.Some? then Settle(r.value.0, r.value.1) else LoadForStage
      ensures req.raw.data != [] ==>
        (r == Some((prev, Err(Precondition))) <==>
          (req.cond.MatchRevision? && req.cond.rev != revision) || (req.cond.MatchSha? && req.cond.sha != sha))
      ensures r.Some? && r.value.1 != Err(Precondition) ==>
        r == (
          if req.raw.data == [] then Some((prev, Err(Invalid)))
          else if !req.force && sha == Some(Digest(req.raw)) && inst.Some? && (prev.Running? || prev.RolledBack?) then
            Some((Running, Noop(revision)))
          else Some((prev, Err(Invalid))))
      ensures r.None? ==>
        valid && (req.force || sha != Some(Digest(req.raw)) || inst.None? || !(prev.Running? || prev.RolledBack?))
    {
      assert req.raw.data == [] <==> req.raw == EMPTY_DOCUMENT;
      if req.raw == EMPTY_DOCUMENT { return Some((prev, Err(Invalid))); }
      match req.cond {
        case MatchNone =>
        case MatchRevision(rev) => if rev != revision { return Some((prev, Err(Precondition))); }
        case MatchSha(x) => if x != sha { return Some((prev, Err(Precondition))); }
      }
      if !req.force && sha == Some(Hash(req.raw)) && inst.Some? && (prev == Running || prev == RolledBack) {
        return Some((Running, Noop(revision)));
      }
      if !valid { return Some((prev, Err(Invalid))); }
      return None;
    }

    /** applyLocked from the staging on. */
    method Replace(req: Request, prev: Phase, luck: Luck, ghost q: Proc, ghost p: nat)
      returns (res: Result, ghost steps: seq<(bool, nat)>)
      requires q.pc.LoadForStage? && q.task == Task.Apply(req) && q.prev == prev && luck.upTo <= 3
      modifies this, store
      ensures Replaced(req, prev, luck, old(store.disk), old(Mem()), res, store.disk, Mem())
      ensures Solo(old(At(q)), p, steps) == At(q.(pc := Release(res)))
    {
      hide Solo, StageSteps, Replaced, Lucky, Hash, PromotedMeta, StagedMeta, StagedPrefix, PromotePrefix, AgentRevision, RevisionBand, StoredRevision;
      ghost var start, d0, m0 := At(q), store.disk, Mem();
      steps := StageSteps(luck);
      StageRuns(luck, q, req, p, store.disk, Mem());
      var meta := store.WriteStaged(req.raw, req.source, luck.load, luck.raw, luck.meta);
      if meta.None? {
        res := Err(StoreFailed);
        ghost var mid := At(q.(pc := Settle(prev, res)));
        ghost var last := Finish(prev, res, q.(pc := Settle(prev, res)), p);
        Chain(start, p, steps, mid, last, At(q.(pc := Release(res))));
        steps := steps + last;
        StageFailed(req, prev, luck, d0, m0);
        return;
      }
      ghost var staged := At(q.(pc := Take));
      ghost var more;
      res, more := Swap(req, luck, q.(pc := Take), p) by { StagedIsThere(d0, req); }
      Chain(start, p, steps, staged, more, At(q.(pc := Release(res))));
      steps := steps + more;
      SwapIsReplace(req, prev, luck, d0, m0, res, store.disk, Mem());
    }

    /** applyLocked from takeInstance on. */
    method Swap(req: Request, luck: Luck, ghost q: Proc, ghost p: nat)
      returns (res: Result, ghost steps: seq<(bool, nat)>)
      requires q.pc.Take? && q.task == Task.Apply(req) && luck.upTo <= 3
      requires store.disk.staged.Some? && store.disk.stagedMeta.Some?
      modifies this, store
      ensures Swapped(req, luck, old(store.disk), old(Mem()), res, store.disk, Mem())
      ensures Solo(old(At(q)), p, steps) == At(q.(pc := Release(res)))
    {
      hide Solo, Swapped, Lucky, Hash, PromotedMeta, PromotePrefix, AgentRevision, RevisionBand, StoredRevision;
      ghost var start, before, m0 := At(q), store.disk, Mem();
      var box;
      box, steps := Launch(req, luck, q, p);
      ghost var more;
      if box.None? {
        ghost var mid := At(q.(pc := ReadGood));
        res, more := Recover(luck.restore, q.(pc := ReadGood), p);
        Chain(start, p, steps, mid, more, At(q.(pc := Release(res))));
        steps := steps + more;
        RecoverIsSwap(req, luck, before, m0, res, store.disk, Mem());
        return;
      }
      ghost var probed := At(q.(pc := ReadStaged(box.value)));
      var meta;
      meta, more := Promote(box.value, luck, q.(pc := ReadStaged(box.value)), p);
      ghost var next := At(q.(pc := if meta.Some? then InstallNew(box.value, meta.value) else ReadGood));
      Chain(start, p, steps, probed, more, next);
      steps := steps + more;
      if meta.None? {
        res, more := Recover(luck.restore, q.(pc := ReadGood), p);
        Chain(start, p, steps, next, more, At(q.(pc := Release(res))));
        steps := steps + more;
        RecoverIsSwap(req, luck, before, m0, res, store.disk, Mem());
        return;
      }
      InstallBox(box.value, meta.value);
      res := Ok(meta.value.revision);
      ghost var settle := At(q.(pc := Settle(Running, res)));
      InstallRuns(q, p, store.disk, TakeInstance(m0), box.value, meta.value);
      Chain(start, p, steps, next, [(true, 0)], settle);
      more := Finish(Running, res, q.(pc := Settle(Running, res)), p);
      Chain(start, p, steps + [(true, 0)], settle, more, At(q.(pc := Release(res))));
      steps := steps + [(true, 0)] + more;
      PromoteIsSwap(req, luck, before, m0, res, store.disk, Mem());
    }

    /** Taking the token for an Apply; None if it is refused. */
    method Enter(req: Request, ghost p: nat) returns (prev: Option<Phase>, ghost q: Proc)
      modifies this
      ensures prev.None? <==> old(shutdown) || old(applying)
      ensures prev.None? ==> Mem() == old(Mem())
      ensures prev.Some? ==> prev.value == old(phase) && Mem() == Held(old(Mem()))
      ensures prev.Some? ==> applying && phase == if old(phase).Running? || old(phase).RolledBack? then Applying else Starting
      ensures prev.Some? ==> q == Proc(Task.Apply(req), ReadCurrent, prev.value, 0, TakeSnapshot(store.disk, old(Mem())))
      ensures Solo(Config(Some(NewProc(Task.Apply(req))), store.disk, old(Mem())), p, [(true, 0)])
        == if prev.Some? then At(q) else Config(None, store.disk, Mem())
    {
      hide Solo, TakeSnapshot;
      EnterRuns(req, p, store.disk, Mem());
      q := Proc(Task.Apply(req), ReadCurrent, phase, 0, TakeSnapshot(store.disk, Mem()));
      if shutdown || applying { return None, q; }
      applying := true;
      prev := Some(phase);
      phase := if phase == Running || phase == RolledBack then Applying else Starting;
    }

    /** applyLocked */
    method ApplyLocked(req: Request, prev: Phase, luck: Luck, ghost q: Proc, ghost p: nat)
      returns (res: Result, ghost steps: seq<(bool, nat)>, ghost end: Proc)
      requires q.pc.ReadCurrent? && q.task == Task.Apply(req) && q.prev == prev && luck.upTo <= 3
      modifies this, store
      ensures Locked(req, prev, luck, old(store.disk), old(Mem()), res, store.disk, Mem())
      ensures end.pc == Release(res) && end.task == q.task
      ensures Solo(old(At(q)), p, steps) == At(end)
    {
      hide Solo, CheckSteps, Replaced, Checked, CurOf;
      ghost var start, d0, m0 := At(q), store.disk, Mem();
      ghost var checks := CheckSteps(q, req, m0, luck.validate);
      CheckRuns(q, req, p, d0, m0, luck.validate);
      CheckedByPhase(q, req, m0, luck.validate);
      var early := Check(req, prev, luck.validate);
      ghost var q1 := q.(cur := CurOf(q, req, m0), pc := Checked(q, req, m0, luck.validate));
      ghost var more;
      if early.Some? {
        res := early.value.1;
        more := Finish(early.value.0, res, q1, p);
      } else {
        res, more := Replace(req, prev, luck, q1, p);
      }
      end := q1.(pc := Release(res));
      Chain(start, p, checks, Config(Some(q1), d0, m0), more, At(end));
      steps := checks + more;
    }

    /** Apply */
    method Apply(req: Request, luck: Luck, ghost p: nat) returns (res: Result, ghost steps: seq<(bool, nat)>)
      requires luck.upTo <= 3
      modifies this, store
      ensures Applied(req, luck, old(store.disk), old(Mem()), res, store.disk, Mem())
      ensures Solo(Config(Some(NewProc(Task.Apply(req))), old(store.disk), old(Mem())), p, steps) == Config(None, store.disk, Mem())
    {
      hide Solo, Applied, Locked, NewProc, TakeSnapshot;
      ghost var start, d0, m0 := Config(Some(NewProc(Task.Apply(req))), store.disk, Mem()), store.disk, Mem();
      var prev;
      ghost var q;
      prev, q := Enter(req, p);
      if prev.None? {
        BusyIsApplied(req, luck, d0, m0);
        return Err(Busy), [(true, 0)];
      }
      ghost var entered := At(q);
      ghost var more, end;
      res, more, end := ApplyLocked(req, prev.value, luck, q, p);
      Chain(start, p, [(true, 0)], entered, more, At(end));
      ghost var held, m := At(end), Mem();
      ReleaseRuns(end, res, p, store.disk, m);
      applying := false;
      LockedIsApplied(req, luck, d0, m0, res, store.disk, m);
      Chain(start, p, [(true, 0)] + more, held, [(true, 0)], Config(None, store.disk, Mem()));
      steps := [(true, 0)] + more + [(true, 0)];
    }

    /** BootLastGood and StartBox: the revision is that of last-good, never a new one. */
    method BootLastGood(luck: RestoreLuck, ghost p: nat) returns (ok: bool, ghost steps: seq<(bool, nat)>)
      modifies this
      ensures ok <==> store.disk.lastGood.Some? && !old(applying) && Lucky(luck, store.disk)
      ensures ok ==> inst.Some? && Some(inst.value.bytes) == store.disk.lastGood
      ensures ok ==>
        Mem() == InstallInstance(old(Mem()), inst.value, store.disk.lastGoodMeta.value).(phase := Running, backoff := 1)
      ensures !ok ==>
        Mem() == if store.disk.lastGood.None? || old(applying) then old(Mem()) else old(Mem()).(phase := Stopped)
      ensures Solo(Config(Some(NewProc(Boot)), store.disk, old(Mem())), p, steps) == Config(None, store.disk, Mem())
    {
      hide Solo, Lucky, NewProc, TakeSnapshot, BootSteps;
      steps := BootSteps(luck, nextBox, store.disk, Mem());
      BootRuns(luck, p, nextBox, store.disk, Mem());
      LuckyHasMeta(luck, store.disk);
      if store.disk.lastGood.None? { return false, steps; }
      if applying { return false, steps; }
      applying := true;
      phase := Starting;
      ghost var q := Proc(Boot, ReadGood, phase, 0, TakeSnapshot(store.disk, Mem()));
      ghost var inner;
      ok, inner := RestoreLastGood(luck, q, p);
      if ok {
        phase := Running;
        backoff := 1;
      } else {
        phase := Stopped;
      }
      applying := false;
    }

    /** StopBox */
    method StopBox(ghost p: nat) returns (ok: bool, ghost steps: seq<(bool, nat)>)
      modifies this
      ensures ok <==> !old(applying)
      ensures Mem() == if ok then old(Mem()).(inst := None, phase := Stopped) else old(Mem())
      ensures Solo(Config(Some(NewProc(Stop)), store.disk, old(Mem())), p, steps) == Config(None, store.disk, Mem())
    {
      hide Solo, NewProc;
      steps := StopSteps(Mem());
      StopRuns(p, store.disk, Mem());
      if applying { return false, steps; }
      applying := true;
      inst := None;
      phase := Stopped;
      applying := false;
      return true, steps;
    }

    /** Shutdown takes no notice of the token. */
    method Shutdown(ghost p: nat) returns (ghost steps: seq<(bool, nat)>)
      modifies this
      ensures Mem() == old(Mem()).(shutdown := true, inst := None, phase := Stopped)
      ensures Solo(Config(Some(NewProc(ShutDown)), store.disk, old(Mem())), p, steps) == Config(None, store.disk, Mem())
    {
      hide Solo, NewProc;
      steps := [(true, 0), (true, 0), (true, 0)];
      ShutdownRuns(p, store.disk, Mem());
      shutdown := true;
      inst := None;
      phase := Stopped;
    }

    /**
     * restartLoop over the outcomes of its attempts: it ends at once when the token is
     * taken or the supervisor shuts down, and otherwise with the first attempt that
     * succeeds, running last-good with the backoff reset; until then each failure
     * doubles the backoff.  `end` is the goroutine waiting for its next attempt, if any.
     */
    method RestartLoop(lucks: seq<RestoreLuck>, ghost q: Proc, ghost p: nat)
      returns (tries: nat, ok: bool, ghost steps: seq<(bool, nat)>, ghost end: Option<Proc>)
      requires q.pc.LoopCheck? && q.task.RestartLoop?
      modifies this
      ensures old(shutdown) || old(applying) ==> tries == 0 && !ok && Mem() == old(Mem()) && end.None?
      ensures tries <= |lucks| && forall i :: 0 <= i < (if ok then tries - 1 else tries) ==> !Lucky(lucks[i], store.disk)
      ensures ok ==> tries > 0 && Lucky(lucks[tries - 1], store.disk) && inst.Some? && Some(inst.value.bytes) == store.disk.lastGood
      ensures ok ==>
        Mem() == InstallInstance(old(Mem()), inst.value, store.disk.lastGoodMeta.value).(phase := Running, backoff := 1)
      ensures !ok && !old(shutdown) && !old(applying) ==> tries == |lucks| && end.Some? && end.value.pc.LoopCheck?
      ensures !ok ==>
        Mem() == old(Mem()).(phase := if tries == 0 then old(phase) else Degraded, backoff := Backoff(old(backoff), tries))
      ensures Solo(old(At(q)), p, steps) == Config(end, store.disk, Mem())
    {
      hide Solo, Lucky, TakeSnapshot, AttemptSteps;
      ghost var start := At(q);
      tries, ok, steps, end := 0, false, [], Some(q);
      if shutdown || applying {
        LoopEnds(q, p, store.disk, Mem());
        return 0, false, [(true, 0)], None;
      }
      SoloNone(start, p);
      while tries < |lucks|
        invariant tries <= |lucks| && !shutdown && !applying && !ok
        invariant end.Some? && end.value.pc.LoopCheck? && end.value.task.RestartLoop?
        invariant forall i :: 0 <= i < tries ==> !Lucky(lucks[i], store.disk)
        invariant Mem() == old(Mem()).(phase := if tries == 0 then old(phase) else Degraded, backoff := Backoff(old(backoff), tries))
        invariant Solo(start, p, steps) == Config(end, store.disk, Mem())
      {
        ghost var before := At(end.value);
        ghost var more := AttemptSteps(lucks[tries], nextBox, store.disk);
        AttemptRuns(lucks[tries], end.value, p, nextBox, store.disk, Mem());
        ghost var q1 := end.value.(pc := ReadGood, prev := phase, snap := TakeSnapshot(store.disk, Mem()));
        ok := Attempt(lucks[tries], q1, p);
        LuckyHasMeta(lucks[tries], store.disk);
        tries := tries + 1;
        end := if ok then None else Some(q1.(pc := LoopCheck));
        Chain(start, p, steps, before, more, Config(end, store.disk, Mem()));
        steps := steps + more;
        if ok { return; }
      }
    }

    /** One attempt of restartLoop, with the token. */
    method Attempt(luck: RestoreLuck, ghost q: Proc, ghost p: nat) returns (ok: bool)
      requires q.pc.ReadGood? && !applying
      modifies this
      ensures ok <==> Lucky(luck, store.disk)
      ensures ok ==> inst.Some? && Some(inst.value.bytes) == store.disk.lastGood && inst.value.id == old(nextBox)
      ensures ok ==> store.disk.lastGoodMeta.Some?
      ensures ok ==>
        Mem() == InstallInstance(old(Mem()), inst.value, store.disk.lastGoodMeta.value).(phase := Running, backoff := 1)
      ensures !ok ==> Mem() == old(Mem()).(phase := Degraded, backoff := NextBackoff(old(backoff)))
    {
      hide Solo, Lucky;
      applying := true;
      LuckyHasMeta(luck, store.disk);
      ghost var steps;
      ok, steps := RestoreLastGood(luck, q, p);
      applying := false;
      if ok {
        phase := Running;
        backoff := 1;
        return;
      }
      phase := Degraded;
      if backoff < MAX_BACKOFF {
        backoff := backoff * 2;
        if backoff > MAX_BACKOFF { backoff := MAX_BACKOFF; }
      }
    }

    /**
     * watch, when the box it watches dies: a box that was taken or replaced is none of
     * its business; an installed one is cleared even while another goroutine holds the
     * token, and only then is the restart left to that goroutine.
     */
    method BoxDied(box: Instance, lucks: seq<RestoreLuck>, ghost q: Proc, ghost p: nat)
      returns (restarted: bool, ghost steps: seq<(bool, nat)>, ghost end: Option<Proc>)
      requires q.pc.AwaitDeath? && q.task == Watch(box)
      modifies this
      ensures old(shutdown) || old(inst) != Some(box) ==> Mem() == old(Mem()) && !restarted
      ensures !old(shutdown) && old(inst) == Some(box) ==>
        restarted == (!old(applying) && exists i :: 0 <= i < |lucks| && Lucky(lucks[i], store.disk))
      ensures !old(shutdown) && old(inst) == Some(box) && !restarted ==> inst.None? && phase == Degraded
      ensures restarted ==> inst.Some? && Some(inst.value.bytes) == store.disk.lastGood && phase == Running
      ensures applying == old(applying)
      ensures Solo(old(At(q)), p, steps) == Config(end, store.disk, Mem())
    {
      hide Lucky, Solo, Backoff;
      ghost var start := At(q);
      DeathRuns(box, q, p, store.disk, Mem());
      steps := [(true, 0)];
      if shutdown || inst != Some(box) { return false, steps, None; }
      inst := None;
      phase := Degraded;
      ghost var q1 := q.(task := Task.RestartLoop, pc := LoopCheck);
      ghost var mid := At(q1);
      ghost var more;
      var tries;
      tries, restarted, more, end := RestartLoop(lucks, q1, p);
      Chain(start, p, steps, mid, more, Config(end, store.disk, Mem()));
      steps := steps + more;
    }
  }

  // ---- what an Apply does ----

  /** The checks of a request on an idle supervisor, seen with the token taken. */
  function Verdict(req: Request, m: Memory, valid: bool): Pc {
    Checked(ProcOf(req, m.phase), req, Held(m), valid)
  }

  function Held(m: Memory): Memory {
    m.(applying := true, phase := PhaseOnApply(m.phase))
  }

  /** The part of Apply under the token. */
  ghost predicate Locked(req: Request, prev: Phase, luck: Luck, d0: Disk, m0: Memory, res: Result, d: Disk, m: Memory) {
    match Checked(ProcOf(req, prev), req, m0, luck.validate)
    case Settle(phase, early) => res == early && d == d0 && m == m0.(phase := phase)
    case _ => Replaced(req, prev, luck, d0, m0, res, d, m)
  }

  function ProcOf(req: Request, prev: Phase): Proc {
    Proc(Task.Apply(req), ReadCurrent, prev, 0, Snapshot(None, None, 0, None))
  }

  /** The whole of Apply: refused while busy, settled by the checks, or carried through. */
  ghost predicate Applied(req: Request, luck: Luck, d0: Disk, m0: Memory, res: Result, d: Disk, m: Memory) {
    if m0.shutdown || m0.applying then res == Err(Busy) && d == d0 && m == m0
    else
      !m.applying &&
      match Verdict(req, m0, luck.validate)
      case Settle(phase, early) => res == early && d == d0 && m == m0.(phase := phase)
      case _ => Replaced(req, m0.phase, luck, d0, Held(m0), res, d, m.(applying := true))
  }

  lemma VerdictShape(req: Request, m: Memory, valid: bool)
    ensures Verdict(req, m, valid).LoadForStage? || Verdict(req, m, valid).Settle?
    ensures Verdict(req, m, valid).Settle? ==> !Verdict(req, m, valid).res.Ok?
  {
    hide SameAsRunning, Matches;
  }

  /**
   * An Apply that does not succeed, and whose promote is not cut, leaves last-good,
   * its meta and the counter alone; and a supervisor in step with its store stays
   * so, with the revision and the content hash it had.
   */
  lemma UnsuccessfulApplyIsTransparent(req: Request, luck: Luck, d0: Disk, m0: Memory, res: Result, d: Disk, m: Memory)
    requires Applied(req, luck, d0, m0, res, d, m) && !res.Ok? && !Cut(luck)
    ensures SameGood(d0, d)
    ensures Synced(d0, m0) ==> Synced(d, m) && m.revision == m0.revision && m.sha == m0.sha
  {
    hide Verdict, Hash, Lucky, StagedMeta;
    VerdictShape(req, m0, luck.validate);
  }

  /** A successful one runs the requested document as last-good, one revision on, in step with its store. */
  lemma SuccessfulApplyPublishes(req: Request, luck: Luck, d0: Disk, m0: Memory, res: Result, d: Disk, m: Memory)
    requires Applied(req, luck, d0, m0, res, d, m) && res.Ok?
    ensures d.lastGood == Some(req.raw) && m.inst.Some? && m.inst.value.bytes == req.raw && m.phase == Running && m.backoff == 1
    ensures d.lastGoodMeta.Some? && d.lastGoodMeta.value.sha == Hash(req.raw) && m.sha == Some(Hash(req.raw))
    ensures res.revision == m.revision == AgentRevision(d) == d.lastGoodMeta.value.revision == AgentRevision(d0) + 1
    ensures d.lastGoodMeta.value.source == req.source
    ensures req.cond.MatchRevision? ==> req.cond.rev == m0.revision
    ensures req.cond.MatchSha? ==> req.cond.sha == m0.sha
    ensures Synced(d, m) && (Synced(d0, m0) ==> m.revision == m0.revision + 1)
  {
    hide Lucky;
    VerdictShape(req, m0, luck.validate);
  }

  /** The promote stopped between its first and its last file. */
  predicate Cut(luck: Luck) {
    luck.start && luck.probe && luck.read && luck.loadAgain && 1 <= luck.upTo < 3
  }

  predicate SameGood(a: Disk, b: Disk) {
    a.lastGood == b.lastGood && a.lastGoodMeta == b.lastGoodMeta && a.agent == b.agent
  }

  /** The new box came up and the promote got as far as its writes. */
  predicate Promotes(luck: Luck) {
    luck.start && luck.probe && luck.read && luck.loadAgain
  }

  /** From takeInstance on: the new box runs and is last-good, or last-good runs again, or nothing does. */
  ghost predicate Swapped(req: Request, luck: Luck, d0: Disk, m0: Memory, res: Result, d: Disk, m: Memory) {
    && d0.staged.Some? && d0.stagedMeta.Some? && luck.upTo <= 3
    && d == (if Promotes(luck) then PromotePrefix(d0, luck.upTo) else d0)
    && if Promotes(luck) && luck.upTo == 3 then
         var meta := PromotedMeta(d0, d0.stagedMeta.value);
         res == Ok(meta.revision) && m.inst.Some? && m.inst.value.bytes == req.raw
         && m == Settled(InstallInstance(m0, m.inst.value, meta), Running, res)
       else if Lucky(luck.restore, d) then
         res == Err(RestoredLastGood) && m.inst.Some? && Some(m.inst.value.bytes) == d.lastGood
         && m == InstallInstance(m0, m.inst.value, d.lastGoodMeta.value).(phase := RolledBack)
       else res == Err(BoxDown) && m == m0.(inst := None, phase := Stopped)
  }

  /** From the staging on. */
  ghost predicate Replaced(req: Request, prev: Phase, luck: Luck, d0: Disk, m0: Memory, res: Result, d: Disk, m: Memory) {
    if !(luck.load && luck.raw && luck.meta) then
      res == Err(StoreFailed) && d == StagedPrefix(d0, req.raw, req.source, StagedWrites(luck)) && m == m0.(phase := prev)
    else Swapped(req, luck, StagedPrefix(d0, req.raw, req.source, 2), m0, res, d, m)
  }

  // ---- how an update is lost ----

  const LUCKY := Luck(true, true, true, true, true, true, true, true, 3, RestoreLuck(true, true, true, true))

  /** A promote whose last write, the counter, fails. */
  const UNCOUNTED := LUCKY.(upTo := 2)

  /** A forced request on an idle supervisor that meets its condition. */
  predicate Admissible(req: Request, m: Memory) {
    !m.shutdown && !m.applying && req.raw != EMPTY_DOCUMENT && req.force && Matches(m, req.cond)
  }

  function Staged(req: Request, d: Disk): Disk {
    StagedPrefix(d, req.raw, req.source, 2)
  }

  function NextMeta(req: Request, d: Disk): Meta {
    Meta(Hash(req.raw), AgentRevision(d) + 1, req.source)
  }

  /** The disk and memory after a complete Apply, and after one whose promote is uncounted. */
  function Completed(req: Request, d: Disk, m: Memory): (Disk, Memory) {
    (PromotePrefix(Staged(req, d), 3),
     InstallInstance(m, Instance(0, req.raw), NextMeta(req, d)).(phase := Running, backoff := 1))
  }

  function Uncounted(req: Request, d: Disk, m: Memory): (Disk, Memory) {
    (PromotePrefix(Staged(req, d), 2), InstallInstance(m, Instance(0, req.raw), NextMeta(req, d)).(phase := RolledBack))
  }

  lemma AdmissibleGoesOn(req: Request, m: Memory)
    requires Admissible(req, m)
    ensures Verdict(req, m, true).LoadForStage?
  {
  }

  lemma CompletedIsApplied(req: Request, d: Disk, m: Memory)
    requires Admissible(req, m)
    ensures var r := Completed(req, d, m); Applied(req, LUCKY, d, m, Ok(AgentRevision(d) + 1), r.0, r.1)
  {
    hide Verdict, Hash, Matches;
    AdmissibleGoesOn(req, m);
  }

  lemma UncountedIsApplied(req: Request, d: Disk, m: Memory)
    requires Admissible(req, m)
    ensures var r := Uncounted(req, d, m); Applied(req, UNCOUNTED, d, m, Err(RestoredLastGood), r.0, r.1)
  {
    hide Verdict, Hash, Matches;
    AdmissibleGoesOn(req, m);
  }

  /**
   * When a condition outlives its Apply: after a success the same revision can be
   * matched again exactly when the counter was one behind memory, and the success
   * returns the next revision exactly when the two agreed.
   */
  lemma WonConditionMatchesAgain(req: Request, luck: Luck, d0: Disk, m0: Memory, res: Result, d: Disk, m: Memory)
    requires Applied(req, luck, d0, m0, res, d, m) && res.Ok? && req.cond.MatchRevision?
    ensures req.cond.rev == m.revision <==> AgentRevision(d0) + 1 == m0.revision
    ensures res.revision == req.cond.rev + 1 <==> AgentRevision(d0) == m0.revision
  {
    hide Lucky, Applied, Synced;
    SuccessfulApplyPublishes(req, luck, d0, m0, res, d, m);
  }

  /**
   * What the guard of NoLostUpdate excludes does lose updates: after an Apply whose
   * counter is not written and whose restore works, two Applies of different documents
   * conditional on the very same revision succeed, and the first returns that revision.
   */
  lemma UncountedPromoteLosesUpdate(d: Disk, m: Memory, first: Request, second: Request, third: Request)
    requires RevSynced(d, m) && Admissible(first, m) && third.raw != second.raw
    requires second.raw != EMPTY_DOCUMENT && second.force && second.cond == MatchRevision(m.revision + 1)
    requires third.raw != EMPTY_DOCUMENT && third.force && third.cond == MatchRevision(m.revision + 1)
    ensures var r := m.revision + 1;
      var s1 := Uncounted(first, d, m);
      var s2 := Completed(second, s1.0, s1.1);
      var s3 := Completed(third, s2.0, s2.1);
      && Applied(first, UNCOUNTED, d, m, Err(RestoredLastGood), s1.0, s1.1)
      && Applied(second, LUCKY, s1.0, s1.1, Ok(r), s2.0, s2.1)
      && Applied(third, LUCKY, s2.0, s2.1, Ok(r + 1), s3.0, s3.1)
      && s3.0.lastGood == Some(third.raw) != Some(second.raw) == s2.0.lastGood
  {
    UncountedIsApplied(first, d, m);
    var s1 := Uncounted(first, d, m);
    assert AgentRevision(s1.0) == m.revision && s1.1.revision == m.revision + 1;
    CompletedIsApplied(second, s1.0, s1.1);
    var s2 := Completed(second, s1.0, s1.1);
    assert AgentRevision(s2.0) == m.revision + 1 && s2.1.revision == m.revision + 1;
    hide Applied;
    CompletedIsApplied(third, s2.0, s2.1);
  }

  /** After a restart that can read neither file revision 0 is matched, whatever the counter says. */
  lemma BlindRestartMatchesZero(d: Disk, req: Request)
    requires AgentRevision(d) > 0 && req.raw != EMPTY_DOCUMENT && req.force && req.cond == MatchRevision(0)
    ensures var m := BootMemory(d, false, false);
      var r := Completed(req, d, m);
      Applied(req, LUCKY, d, m, Ok(AgentRevision(d) + 1), r.0, r.1) && r.1.revision > 1
  {
    hide Applied;
    CompletedIsApplied(req, d, BootMemory(d, false, false));
  }

  /** So a second document can replace the one first applied, both conditional on revision 0. */
  lemma BlindRestartLosesUpdate(d: Disk, m: Memory, first: Request, second: Request)
    requires RevSynced(d, m) && m.revision == 0 && Admissible(first, m) && first.cond == MatchRevision(0)
    requires second.raw != EMPTY_DOCUMENT && second.force && second.cond == MatchRevision(0) && second.raw != first.raw
    ensures var s1 := Completed(first, d, m);
      var m1 := BootMemory(s1.0, false, false);
      var s2 := Completed(second, s1.0, m1);
      && Applied(first, LUCKY, d, m, Ok(1), s1.0, s1.1)
      && Applied(second, LUCKY, s1.0, m1, Ok(2), s2.0, s2.1)
      && s2.0.lastGood == Some(second.raw) != Some(first.raw) == s1.0.lastGood
  {
    CompletedIsApplied(first, d, m);
    var s1 := Completed(first, d, m);
    assert AgentRevision(s1.0) == 1;
    hide Applied;
    BlindRestartMatchesZero(s1.0, second);
  }

  /** A promote that stops after the document. */
  const HALF := LUCKY.(upTo := 1)

  function HalfDone(req: Request, d: Disk, m: Memory): (Disk, Memory)
    requires d.lastGoodMeta.Some?
  {
    (PromotePrefix(Staged(req, d), 1), InstallInstance(m, Instance(0, req.raw), d.lastGoodMeta.value).(phase := RolledBack))
  }

  /**
   * The other disturbance: after an Apply whose promote stops at the document and
   * whose restore works, an Apply of the previous document is answered with a noop
   * although the new one is running.
   */
  lemma HalfPromoteMisleadsNoop(d: Disk, m: Memory, first: Request, second: Request)
    requires Synced(d, m) && d.lastGoodMeta.Some? && Admissible(first, m) && first.raw != d.lastGoodMeta.value.sha.of
    requires second.raw == d.lastGoodMeta.value.sha.of && second.raw != EMPTY_DOCUMENT && !second.force && second.cond.MatchNone?
    ensures var s1 := HalfDone(first, d, m);
      && Applied(first, HALF, d, m, Err(RestoredLastGood), s1.0, s1.1)
      && Applied(second, LUCKY, s1.0, s1.1, Noop(s1.1.revision), s1.0, s1.1.(phase := Running))
      && s1.1.inst.Some? && s1.1.inst.value.bytes == first.raw != second.raw
  {
    AdmissibleGoesOn(first, m);
    assert Applied(first, HALF, d, m, Err(RestoredLastGood), HalfDone(first, d, m).0, HalfDone(first, d, m).1) by {
      hide Verdict, Matches;
    }
  }

  // ---- the machine's steps behind each method ----

  lemma Chain(c: Config, p: nat, a: seq<(bool, nat)>, mid: Config, b: seq<(bool, nat)>, end: Config)
    requires Solo(c, p, a) == mid && Solo(mid, p, b) == end
    ensures Solo(c, p, a + b) == end
  {
    hide Solo;
    SoloAppend(c, p, a, b);
  }

  lemma ReplaceKeepsToken(req: Request, prev: Phase, luck: Luck, d0: Disk, m0: Memory, res: Result, d: Disk, m: Memory)
    requires Replaced(req, prev, luck, d0, m0, res, d, m)
    ensures m.applying == m0.applying
  {
    hide Lucky, Hash;
  }

  lemma LuckyHasMeta(luck: RestoreLuck, d: Disk)
    ensures Lucky(luck, d) ==> d.lastGood.Some? && d.lastGoodMeta.Some?
  {
  }

  lemma CheckedByPhase(q: Proc, req: Request, m: Memory, valid: bool)
    ensures Checked(q, req, m, valid) == Checked(ProcOf(req, q.prev), req, m, valid)
    ensures Checked(q, req, m, valid).LoadForStage? || Checked(q, req, m, valid).Settle?
    ensures Checked(q, req, m, valid).Settle? ==> !Checked(q, req, m, valid).res.Ok?
  {
    hide SameAsRunning, Matches;
  }

  lemma BusyIsApplied(req: Request, luck: Luck, d: Disk, m: Memory)
    requires m.shutdown || m.applying
    ensures Applied(req, luck, d, m, Err(Busy), d, m)
  {
  }

  lemma LockedIsApplied(req: Request, luck: Luck, d0: Disk, m0: Memory, res: Result, d: Disk, m: Memory)
    requires !m0.shutdown && !m0.applying && Locked(req, m0.phase, luck, d0, Held(m0), res, d, m)
    ensures Applied(req, luck, d0, m0, res, d, m.(applying := false))
  {
    hide Checked, Replaced, PhaseOnApply;
    CheckedByPhase(ProcOf(req, m0.phase), req, Held(m0), luck.validate);
    if Verdict(req, m0, luck.validate).LoadForStage? {
      ReplaceKeepsToken(req, m0.phase, luck, d0, Held(m0), res, d, m);
    }
  }

  lemma EnterRuns(req: Request, p: nat, d: Disk, m: Memory)
    ensures Solo(Config(Some(NewProc(Task.Apply(req))), d, m), p, [(true, 0)]) ==
      if m.shutdown || m.applying then Config(None, d, m)
      else Config(Some(Proc(Task.Apply(req), ReadCurrent, m.phase, 0, TakeSnapshot(d, m))), d, Held(m))
  {
    hide StepPrepare, StepPromote, StepRestore, StepLeave, PhaseOnApply;
    SoloOne(Config(Some(NewProc(Task.Apply(req))), d, m), p, true, 0);
  }

  lemma ReleaseRuns(q: Proc, res: Result, p: nat, d: Disk, m: Memory)
    requires q.pc == Release(res) && !q.task.RestartLoop?
    ensures Solo(Config(Some(q), d, m), p, [(true, 0)]) == Config(None, d, m.(applying := false))
  {
    hide StepOutside, StepPrepare, StepPromote, StepRestore;
    SoloOne(Config(Some(q), d, m), p, true, 0);
  }

  lemma AfterRestore(q: Proc, p: nat, d: Disk, m: Memory, ok: bool)
    requires q.task.Apply?
    ensures Solo(Config(Some(q.(pc := if ok then Restored else RestoreFailed)), d, m), p, [(true, 0)]) ==
      Config(Some(q.(pc := if ok then Settle(RolledBack, Err(RestoredLastGood)) else Settle(Stopped, Err(BoxDown)))), d, m)
  {
    hide StepOutside, StepPrepare, StepPromote, StepRestore;
    SoloOne(Config(Some(q.(pc := if ok then Restored else RestoreFailed)), d, m), p, true, 0);
  }

  lemma InstallRuns(q: Proc, p: nat, d: Disk, m: Memory, box: Instance, meta: Meta)
    ensures Solo(Config(Some(q.(pc := InstallNew(box, meta))), d, m), p, [(true, 0)]) ==
      Config(Some(q.(pc := Settle(Running, Ok(meta.revision)))), d, InstallInstance(m, box, meta))
  {
    hide StepOutside, StepPrepare, StepLeave, StepRestore;
    SoloOne(Config(Some(q.(pc := InstallNew(box, meta))), d, m), p, true, 0);
  }

  lemma StagedIsThere(d: Disk, req: Request)
    ensures StagedPrefix(d, req.raw, req.source, 2).staged.Some? && StagedPrefix(d, req.raw, req.source, 2).stagedMeta.Some?
  {
  }

  lemma StageFailed(req: Request, prev: Phase, luck: Luck, d0: Disk, m0: Memory)
    requires !(luck.load && luck.raw && luck.meta)
    ensures Replaced(req, prev, luck, d0, m0, Err(StoreFailed), StagedPrefix(d0, req.raw, req.source, StagedWrites(luck)), m0.(phase := prev))
  {
  }

  lemma SwapIsReplace(req: Request, prev: Phase, luck: Luck, d0: Disk, m0: Memory, res: Result, d: Disk, m: Memory)
    requires luck.load && luck.raw && luck.meta
    requires Swapped(req, luck, StagedPrefix(d0, req.raw, req.source, 2), m0, res, d, m)
    ensures Replaced(req, prev, luck, d0, m0, res, d, m)
  {
  }

  lemma RecoverIsSwap(req: Request, luck: Luck, d0: Disk, m0: Memory, res: Result, d: Disk, m: Memory)
    requires d0.staged.Some? && d0.stagedMeta.Some? && luck.upTo <= 3
    requires d == if luck.start && luck.probe && luck.read && luck.loadAgain then PromotePrefix(d0, luck.upTo) else d0
    requires !(luck.start && luck.probe && luck.read && luck.loadAgain && luck.upTo == 3)
    requires if Lucky(luck.restore, d) then
        res == Err(RestoredLastGood) && m.inst.Some? && Some(m.inst.value.bytes) == d.lastGood
        && m == InstallInstance(TakeInstance(m0), m.inst.value, d.lastGoodMeta.value).(phase := RolledBack)
      else res == Err(BoxDown) && m == TakeInstance(m0).(phase := Stopped)
    ensures Swapped(req, luck, d0, m0, res, d, m)
  {
  }

  lemma PromoteIsSwap(req: Request, luck: Luck, d0: Disk, m0: Memory, res: Result, d: Disk, m: Memory)
    requires d0.staged.Some? && d0.stagedMeta.Some? && Promotes(luck) && luck.upTo == 3
    requires d == PromotePrefix(d0, 3) && res == Ok(PromotedMeta(d0, d0.stagedMeta.value).revision)
    requires m.inst.Some? && m.inst.value.bytes == req.raw
    requires m == Settled(InstallInstance(TakeInstance(m0), m.inst.value, PromotedMeta(d0, d0.stagedMeta.value)), Running, res)
    ensures Swapped(req, luck, d0, m0, res, d, m)
  {
  }

  /** Up to three steps, one by one. */
  lemma RunSteps(c: Config, p: nat, steps: seq<(bool, nat)>)
    requires 1 <= |steps| <= 3
    ensures var c1 := Then(c, p, steps[0].0, steps[0].1);
      var c2 := if |steps| > 1 then Then(c1, p, steps[1].0, steps[1].1) else c1;
      Solo(c, p, steps) == if |steps| > 2 then Then(c2, p, steps[2].0, steps[2].1) else c2
  {
    hide Then;
    if |steps| == 1 {
      assert steps[..0] == [];
    } else {
      RunSteps(c, p, steps[..|steps| - 1]);
    }
  }

  predicate Readable(luck: RestoreLuck, d: Disk) {
    luck.raw && d.lastGood.Some? && luck.meta && d.lastGoodMeta.Some?
  }

  predicate Lucky(luck: RestoreLuck, d: Disk) {
    Readable(luck, d) && luck.start && luck.probe
  }

  ghost function ReadSteps(luck: RestoreLuck, d: Disk): seq<(bool, nat)> {
    if !luck.raw || d.lastGood.None? then [(luck.raw, 0)] else [(true, 0), (luck.meta, 0)]
  }

  ghost function BoxSteps(luck: RestoreLuck, id: nat): seq<(bool, nat)> {
    if !luck.start then [(false, id)] else if !luck.probe then [(true, id), (false, 0)] else [(true, id), (true, 0), (true, 0)]
  }

  ghost function RestoreSteps(luck: RestoreLuck, id: nat, d: Disk): seq<(bool, nat)> {
    ReadSteps(luck, d) + if Readable(luck, d) then BoxSteps(luck, id) else []
  }

  lemma ReadRuns(luck: RestoreLuck, q: Proc, p: nat, d: Disk, m: Memory)
    requires q.pc.ReadGood?
    ensures Solo(Config(Some(q), d, m), p, ReadSteps(luck, d)) ==
      Config(Some(q.(pc := if Readable(luck, d) then StartGood(d.lastGood.value, d.lastGoodMeta.value) else RestoreFailed)), d, m)
  {
    hide StepOutside, StepPrepare, StepPromote, StepLeave;
    RunSteps(Config(Some(q), d, m), p, ReadSteps(luck, d));
  }

  lemma BoxRuns(luck: RestoreLuck, q: Proc, p: nat, id: nat, d: Disk, m: Memory)
    requires q.pc.StartGood?
    ensures Solo(Config(Some(q), d, m), p, BoxSteps(luck, id)) ==
      if luck.start && luck.probe then Config(Some(q.(pc := Restored)), d, InstallInstance(m, Instance(id, q.pc.raw), q.pc.meta))
      else Config(Some(q.(pc := RestoreFailed)), d, m)
  {
    hide StepOutside, StepPrepare, StepPromote, StepLeave, InstallInstance;
    RunSteps(Config(Some(q), d, m), p, BoxSteps(luck, id));
  }

  lemma RestoreRuns(luck: RestoreLuck, q: Proc, p: nat, id: nat, d: Disk, m: Memory)
    requires q.pc.ReadGood?
    ensures Solo(Config(Some(q), d, m), p, RestoreSteps(luck, id, d)) ==
      if Lucky(luck, d) then Config(Some(q.(pc := Restored)), d, InstallInstance(m, Instance(id, d.lastGood.value), d.lastGoodMeta.value))
      else Config(Some(q.(pc := RestoreFailed)), d, m)
  {
    hide Solo, ReadSteps, BoxSteps, InstallInstance;
    ReadRuns(luck, q, p, d, m);
    if Readable(luck, d) {
      SoloAppend(Config(Some(q), d, m), p, ReadSteps(luck, d), BoxSteps(luck, id));
      BoxRuns(luck, q.(pc := StartGood(d.lastGood.value, d.lastGoodMeta.value)), p, id, d, m);
    } else {
      assert RestoreSteps(luck, id, d) == ReadSteps(luck, d);
    }
  }

  ghost function LaunchSteps(luck: Luck, id: nat): seq<(bool, nat)> {
    if !luck.start then [(true, 0), (false, id)] else [(true, 0), (true, id), (luck.probe, 0)]
  }

  lemma LaunchRuns(luck: Luck, q: Proc, req: Request, p: nat, id: nat, d: Disk, m: Memory)
    requires q.pc.Take? && q.task == Task.Apply(req)
    ensures Solo(Config(Some(q), d, m), p, LaunchSteps(luck, id)) ==
      Config(Some(q.(pc := if luck.start && luck.probe then ReadStaged(Instance(id, req.raw)) else ReadGood)), d, TakeInstance(m))
  {
    hide StepOutside, StepPromote, StepRestore;
    RunSteps(Config(Some(q), d, m), p, LaunchSteps(luck, id));
  }

  ghost function LoadSteps(luck: Luck): seq<(bool, nat)> {
    if !luck.read then [(false, 0)] else [(true, 0), (true, 0), (luck.loadAgain, 0)]
  }

  ghost function WriteSteps(upTo: nat): seq<(bool, nat)> {
    if upTo == 0 then [(false, 0)] else if upTo == 1 then [(true, 0), (false, 0)] else [(true, 0), (true, 0), (upTo >= 3, 0)]
  }

  ghost function PromoteSteps(luck: Luck): seq<(bool, nat)> {
    LoadSteps(luck) + if luck.read && luck.loadAgain then WriteSteps(luck.upTo) else []
  }

  lemma LoadRuns(luck: Luck, q: Proc, box: Instance, p: nat, d: Disk, m: Memory)
    requires q.pc == ReadStaged(box) && d.staged.Some? && d.stagedMeta.Some?
    ensures Solo(Config(Some(q), d, m), p, LoadSteps(luck)) ==
      Config(
        Some(q.(pc :=
          if luck.read && luck.loadAgain then WriteLastGood(box, d.staged.value, PromotedMeta(d, d.stagedMeta.value)) else ReadGood)),
        d, m)
  {
    hide StepOutside, StepPrepare, StepRestore, StepLeave, PromotedMeta;
    RunSteps(Config(Some(q), d, m), p, LoadSteps(luck));
  }

  lemma WriteRuns(upTo: nat, q: Proc, p: nat, d: Disk, m: Memory)
    requires q.pc.WriteLastGood? && upTo <= 3
    ensures var d1 := if upTo >= 1 then d.(lastGood := Some(q.pc.raw)) else d;
      var d2 := if upTo >= 2 then d1.(lastGoodMeta := Some(q.pc.meta)) else d1;
      var d3 := if upTo >= 3 then d2.(agent := Some(q.pc.meta.revision)) else d2;
      Solo(Config(Some(q), d, m), p, WriteSteps(upTo)) ==
      Config(Some(q.(pc := if upTo == 3 then InstallNew(q.pc.box, q.pc.meta) else ReadGood)), d3, m)
  {
    hide StepOutside, StepPrepare, StepRestore, StepLeave;
    RunSteps(Config(Some(q), d, m), p, WriteSteps(upTo));
  }

  lemma PromoteRuns(luck: Luck, q: Proc, box: Instance, p: nat, d: Disk, m: Memory)
    requires q.pc == ReadStaged(box) && d.staged.Some? && d.stagedMeta.Some? && luck.upTo <= 3
    ensures Solo(Config(Some(q), d, m), p, PromoteSteps(luck)) ==
      Config(
        Some(q.(pc := if luck.read && luck.loadAgain && luck.upTo == 3 then InstallNew(box, PromotedMeta(d, d.stagedMeta.value)) else ReadGood)),
        if luck.read && luck.loadAgain then PromotePrefix(d, luck.upTo) else d,
        m)
  {
    hide Solo, LoadSteps, WriteSteps;
    LoadRuns(luck, q, box, p, d, m);
    if luck.read && luck.loadAgain {
      SoloAppend(Config(Some(q), d, m), p, LoadSteps(luck), WriteSteps(luck.upTo));
      WriteRuns(luck.upTo, q.(pc := WriteLastGood(box, d.staged.value, PromotedMeta(d, d.stagedMeta.value))), p, d, m);
    } else {
      assert PromoteSteps(luck) == LoadSteps(luck);
    }
  }

  // ---- the start and the end of an Apply ----

  ghost function StageSteps(luck: Luck): seq<(bool, nat)> {
    if !luck.load then [(false, 0)] else if !luck.raw then [(true, 0), (false, 0)] else [(true, 0), (true, 0), (luck.meta, 0)]
  }

  function StagedWrites(luck: Luck): (n: nat)
    ensures n <= 2
  {
    if !luck.load || !luck.raw then 0 else if !luck.meta then 1 else 2
  }

  lemma StageRuns(luck: Luck, q: Proc, req: Request, p: nat, d: Disk, m: Memory)
    requires q.pc.LoadForStage? && q.task == Task.Apply(req)
    ensures Solo(Config(Some(q), d, m), p, StageSteps(luck)) ==
      Config(
        Some(q.(pc := if luck.load && luck.raw && luck.meta then Take else Settle(q.prev, Err(StoreFailed)))),
        StagedPrefix(d, req.raw, req.source, StagedWrites(luck)), m)
  {
    hide StepOutside, StepPromote, StepRestore, StepLeave, StagedMeta;
    RunSteps(Config(Some(q), d, m), p, StageSteps(luck));
  }

  /** How the checks before the first write end: at the staging, or at a result. */
  function Checked(q: Proc, req: Request, m: Memory, valid: bool): Pc {
    if req.raw == EMPTY_DOCUMENT then Settle(q.prev, Err(Invalid))
    else if !Matches(m, req.cond) then Settle(q.prev, Err(Precondition))
    else if SameAsRunning(m, req, q.prev) then Settle(Running, Noop(m.revision))
    else if !valid then Settle(q.prev, Err(Invalid))
    else LoadForStage
  }

  ghost function CheckSteps(q: Proc, req: Request, m: Memory, valid: bool): seq<(bool, nat)> {
    if req.raw == EMPTY_DOCUMENT || !Matches(m, req.cond) then [(true, 0)]
    else if SameAsRunning(m, req, q.prev) then [(true, 0), (true, 0)]
    else [(true, 0), (true, 0), (valid, 0)]
  }

  function CurOf(q: Proc, req: Request, m: Memory): nat {
    if req.raw == EMPTY_DOCUMENT || !Matches(m, req.cond) then q.cur else m.revision
  }

  lemma CheckRuns(q: Proc, req: Request, p: nat, d: Disk, m: Memory, valid: bool)
    requires q.pc.ReadCurrent? && q.task == Task.Apply(req)
    ensures Solo(Config(Some(q), d, m), p, CheckSteps(q, req, m, valid)) ==
      Config(Some(q.(cur := CurOf(q, req, m), pc := Checked(q, req, m, valid))), d, m)
  {
    hide StepOutside, StepPromote, StepRestore, StepLeave, SameAsRunning, Matches;
    RunSteps(Config(Some(q), d, m), p, CheckSteps(q, req, m, valid));
  }

  /** The memory a result leaves behind. */
  function Settled(m: Memory, phase: Phase, res: Result): Memory {
    if res.Ok? then m.(phase := phase, backoff := 1) else m.(phase := phase)
  }

  ghost function SettleSteps(res: Result): seq<(bool, nat)> {
    if res.Ok? then [(true, 0), (true, 0)] else [(true, 0)]
  }

  lemma SettleRuns(q: Proc, p: nat, d: Disk, m: Memory, phase: Phase, res: Result)
    requires q.pc == Settle(phase, res) && !q.task.Stop?
    ensures Solo(Config(Some(q), d, m), p, SettleSteps(res)) == Config(Some(q.(pc := Release(res))), d, Settled(m, phase, res))
  {
    hide StepOutside, StepPrepare, StepPromote, StepRestore;
    RunSteps(Config(Some(q), d, m), p, SettleSteps(res));
  }

  // ---- the other goroutines ----

  lemma SoloNone(c: Config, p: nat)
    ensures Solo(c, p, []) == c
  {
  }

  ghost function BootSteps(luck: RestoreLuck, id: nat, d: Disk, m: Memory): seq<(bool, nat)> {
    if d.lastGood.None? then [(true, 0)]
    else if m.applying then [(true, 0), (true, 0)]
    else
      [(true, 0), (true, 0)] + RestoreSteps(luck, id, d) + [(true, 0)] +
      SettleSteps(if Lucky(luck, d) then Ok(0) else Err(BoxDown)) + [(true, 0)]
  }

  lemma BootEnters(p: nat, d: Disk, m: Memory)
    ensures Solo(Config(Some(NewProc(Boot)), d, m), p, [(true, 0)]) ==
      Config(if d.lastGood.None? then None else Some(NewProc(Boot).(pc := Enter)), d, m)
    ensures d.lastGood.Some? ==>
      Solo(Config(Some(NewProc(Boot)), d, m), p, [(true, 0), (true, 0)]) ==
      if m.applying then Config(None, d, m)
      else Config(Some(Proc(Boot, ReadGood, m.phase, 0, TakeSnapshot(d, m))), d, m.(phase := Starting, applying := true))
  {
    hide StepPrepare, StepPromote, StepRestore, StepLeave, TakeSnapshot;
    RunSteps(Config(Some(NewProc(Boot)), d, m), p, [(true, 0)]);
    RunSteps(Config(Some(NewProc(Boot)), d, m), p, [(true, 0), (true, 0)]);
  }

  lemma BootSettles(q: Proc, p: nat, d: Disk, m: Memory, ok: bool)
    requires q.task.Boot? && q.pc == (if ok then Restored else RestoreFailed)
    ensures Solo(Config(Some(q), d, m), p, [(true, 0)]) ==
      Config(Some(q.(pc := if ok then Settle(Running, Ok(0)) else Settle(Stopped, Err(BoxDown)))), d, m)
  {
    hide StepOutside, StepPrepare, StepPromote, StepRestore;
    SoloOne(Config(Some(q), d, m), p, true, 0);
  }

  /** From the end of the restore to the end of the boot. */
  lemma BootLeaves(q: Proc, p: nat, d: Disk, m: Memory, ok: bool)
    requires q.task.Boot? && q.pc == (if ok then Restored else RestoreFailed)
    ensures var res := if ok then Ok(0) else Err(BoxDown);
      Solo(Config(Some(q), d, m), p, [(true, 0)] + SettleSteps(res) + [(true, 0)]) ==
      Config(None, d, Settled(m, if ok then Running else Stopped, res).(applying := false))
  {
    hide Solo, SettleSteps, Settled;
    var res := if ok then Ok(0) else Err(BoxDown);
    var to := if ok then Running else Stopped;
    var q1, q2 := q.(pc := Settle(to, res)), q.(pc := Release(res));
    var m1 := Settled(m, to, res);
    BootSettles(q, p, d, m, ok);
    SettleRuns(q1, p, d, m, to, res);
    Chain(Config(Some(q), d, m), p, [(true, 0)], Config(Some(q1), d, m), SettleSteps(res), Config(Some(q2), d, m1));
    ReleaseRuns(q2, res, p, d, m1);
    Chain(
      Config(Some(q), d, m), p, [(true, 0)] + SettleSteps(res), Config(Some(q2), d, m1), [(true, 0)],
      Config(None, d, m1.(applying := false)));
  }

  /** What BootLastGood leaves in memory. */
  function Booted(luck: RestoreLuck, id: nat, d: Disk, m: Memory): Memory {
    if d.lastGood.None? || m.applying then m
    else if Lucky(luck, d) then
      InstallInstance(m, Instance(id, d.lastGood.value), d.lastGoodMeta.value).(phase := Running, backoff := 1)
    else m.(phase := Stopped)
  }

  lemma BootRuns(luck: RestoreLuck, p: nat, id: nat, d: Disk, m: Memory)
    ensures Solo(Config(Some(NewProc(Boot)), d, m), p, BootSteps(luck, id, d, m)) == Config(None, d, Booted(luck, id, d, m))
  {
    hide Solo, RestoreSteps, SettleSteps, Lucky, NewProc, TakeSnapshot;
    BootEnters(p, d, m);
    if d.lastGood.Some? && !m.applying {
      var ok := Lucky(luck, d);
      LuckyHasMeta(luck, d);
      var start := Config(Some(NewProc(Boot)), d, m);
      var q := Proc(Boot, ReadGood, m.phase, 0, TakeSnapshot(d, m));
      var m1 := m.(phase := Starting, applying := true);
      var m2 := if ok then InstallInstance(m1, Instance(id, d.lastGood.value), d.lastGoodMeta.value) else m1;
      var q2 := q.(pc := if ok then Restored else RestoreFailed);
      RestoreRuns(luck, q, p, id, d, m1);
      Chain(start, p, [(true, 0), (true, 0)], Config(Some(q), d, m1), RestoreSteps(luck, id, d), Config(Some(q2), d, m2));
      BootLeaves(q2, p, d, m2, ok);
      var tail := [(true, 0)] + SettleSteps(if ok then Ok(0) else Err(BoxDown)) + [(true, 0)];
      Chain(
        start, p, [(true, 0), (true, 0)] + RestoreSteps(luck, id, d), Config(Some(q2), d, m2), tail,
        Config(None, d, Booted(luck, id, d, m)));
      assert BootSteps(luck, id, d, m) == [(true, 0), (true, 0)] + RestoreSteps(luck, id, d) + tail;
    }
  }

  ghost function StopSteps(m: Memory): seq<(bool, nat)> {
    if m.applying then [(true, 0)] else [(true, 0), (true, 0), (true, 0)] + [(true, 0)]
  }

  lemma StopRuns(p: nat, d: Disk, m: Memory)
    ensures Solo(Config(Some(NewProc(Stop)), d, m), p, StopSteps(m)) ==
      Config(None, d, if m.applying then m else m.(inst := None, phase := Stopped))
  {
    hide StepPrepare, StepPromote, StepRestore, TakeSnapshot, Solo;
    var c := Config(Some(NewProc(Stop)), d, m);
    if m.applying {
      RunSteps(c, p, [(true, 0)]);
    } else {
      var q := Proc(Stop, Release(Ok(0)), m.phase, 0, TakeSnapshot(d, m));
      var m1 := m.(applying := true, inst := None, phase := Stopped);
      RunSteps(c, p, [(true, 0), (true, 0), (true, 0)]);
      ReleaseRuns(q, Ok(0), p, d, m1);
      Chain(c, p, [(true, 0), (true, 0), (true, 0)], Config(Some(q), d, m1), [(true, 0)], Config(None, d, m1.(applying := false)));
    }
  }

  lemma ShutdownRuns(p: nat, d: Disk, m: Memory)
    ensures Solo(Config(Some(NewProc(ShutDown)), d, m), p, [(true, 0), (true, 0), (true, 0)]) ==
      Config(None, d, m.(shutdown := true, inst := None, phase := Stopped))
  {
    hide StepPrepare, StepPromote, StepRestore, StepLeave;
    RunSteps(Config(Some(NewProc(ShutDown)), d, m), p, [(true, 0), (true, 0), (true, 0)]);
  }

  lemma LoopEnds(q: Proc, p: nat, d: Disk, m: Memory)
    requires q.pc.LoopCheck? && (m.shutdown || m.applying)
    ensures Solo(Config(Some(q), d, m), p, [(true, 0)]) == Config(None, d, m)
  {
    hide StepPrepare, StepPromote, StepRestore, StepLeave;
    SoloOne(Config(Some(q), d, m), p, true, 0);
  }

  lemma DeathRuns(box: Instance, q: Proc, p: nat, d: Disk, m: Memory)
    requires q.pc.AwaitDeath? && q.task == Watch(box)
    ensures Solo(Config(Some(q), d, m), p, [(true, 0)]) ==
      if m.shutdown || m.inst != Some(box) then Config(None, d, m)
      else Config(Some(q.(task := Task.RestartLoop, pc := LoopCheck)), d, m.(inst := None, phase := Degraded))
  {
    hide StepPrepare, StepPromote, StepRestore, StepLeave;
    SoloOne(Config(Some(q), d, m), p, true, 0);
  }

  ghost function AttemptSteps(luck: RestoreLuck, id: nat, d: Disk): seq<(bool, nat)> {
    [(true, 0), (true, 0)] + RestoreSteps(luck, id, d) + [(true, 0), (true, 0)]
  }

  lemma AttemptEnters(q: Proc, p: nat, d: Disk, m: Memory)
    requires q.pc.LoopCheck? && q.task.RestartLoop? && !m.shutdown && !m.applying
    ensures Solo(Config(Some(q), d, m), p, [(true, 0), (true, 0)]) ==
      Config(Some(q.(pc := ReadGood, prev := m.phase, snap := TakeSnapshot(d, m))), d, m.(applying := true))
  {
    hide StepPrepare, StepPromote, StepRestore, StepLeave, TakeSnapshot;
    RunSteps(Config(Some(q), d, m), p, [(true, 0), (true, 0)]);
  }

  lemma AttemptLeaves(q: Proc, p: nat, d: Disk, m: Memory, ok: bool)
    requires q.task.RestartLoop? && q.pc == (if ok then Restored else RestoreFailed)
    ensures Solo(Config(Some(q), d, m), p, [(true, 0), (true, 0)]) ==
      Config(if ok then None else Some(q.(pc := LoopCheck)), d, ReleaseRestart(m, ok))
  {
    hide StepOutside, StepPrepare, StepPromote, StepRestore, ReleaseRestart;
    RunSteps(Config(Some(q), d, m), p, [(true, 0), (true, 0)]);
  }

  lemma AttemptRuns(luck: RestoreLuck, q: Proc, p: nat, id: nat, d: Disk, m: Memory)
    requires q.pc.LoopCheck? && q.task.RestartLoop? && !m.shutdown && !m.applying
    ensures Lucky(luck, d) ==> d.lastGood.Some? && d.lastGoodMeta.Some?
    ensures Solo(Config(Some(q), d, m), p, AttemptSteps(luck, id, d)) ==
      if Lucky(luck, d) then
        Config(None, d, InstallInstance(m, Instance(id, d.lastGood.value), d.lastGoodMeta.value).(phase := Running, backoff := 1))
      else
        Config(
          Some(q.(prev := m.phase, snap := TakeSnapshot(d, m))), d, m.(phase := Degraded, backoff := NextBackoff(m.backoff)))
  {
    hide Solo, RestoreSteps, Lucky, TakeSnapshot, NextBackoff;
    LuckyHasMeta(luck, d);
    var ok := Lucky(luck, d);
    var start, two := Config(Some(q), d, m), [(true, 0), (true, 0)];
    var q1 := q.(pc := ReadGood, prev := m.phase, snap := TakeSnapshot(d, m));
    var m1 := m.(applying := true);
    var m2 := if ok then InstallInstance(m1, Instance(id, d.lastGood.value), d.lastGoodMeta.value) else m1;
    var q2 := q1.(pc := if ok then Restored else RestoreFailed);
    AttemptEnters(q, p, d, m);
    RestoreRuns(luck, q1, p, id, d, m1);
    Chain(start, p, two, Config(Some(q1), d, m1), RestoreSteps(luck, id, d), Config(Some(q2), d, m2));
    AttemptLeaves(q2, p, d, m2, ok);
    Chain(
      start, p, two + RestoreSteps(luck, id, d), Config(Some(q2), d, m2), two,
      Config(if ok then None else Some(q2.(pc := LoopCheck)), d, ReleaseRestart(m2, ok)));
  }
}
