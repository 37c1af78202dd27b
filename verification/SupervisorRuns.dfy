/** What every run of the supervisor answers and watches. */
module SupervisorRuns {
  import opened Basics
  import opened ConfigStore
  import opened Supervisor
  import opened SupervisorInvariant
  import opened SupervisorTheorems

  // ---- goroutines come and go ----

  /** A started goroutine gets its own number and disturbs no other. */
  lemma SpawnStarts(s: System, task: Task)
    requires Inv(s) && Enabled(s, Spawn(task))
    ensures var t := Step(s, Spawn(task));
      && s.nextPid !in s.procs && s.nextPid in t.procs && t.nextPid > s.nextPid
      && t.procs[s.nextPid].task == task && t.procs[s.nextPid].pc == (if task.Boot? then CheckGood else Enter)
      && t.procs - {s.nextPid} == s.procs && t.disk == s.disk && t.mem == s.mem && t.log == s.log
  {
    hide HolderOk, StoreOk, RevOk, CalmOk;
    var t := Step(s, Spawn(task));
    assert (t.procs - {s.nextPid}).Keys == s.procs.Keys;
  }

  /** A cancelled watcher is gone, and a crash leaves no goroutine. */
  lemma CancelAndCrash(s: System, a: Action)
    requires Enabled(s, a)
    ensures a.CancelWatch? ==> Step(s, a).procs == s.procs - {a.pid} && Step(s, a).mem == s.mem && Step(s, a).disk == s.disk
    ensures a.Crash? ==> Step(s, a).procs == map[] && Step(s, a).mem.inst.None? && !Step(s, a).mem.applying && Step(s, a).disk == s.disk
  {
  }

  // ---- every Apply answers ----

  /** Outside its token section an Apply is at its entry. */
  ghost predicate AppliesEnter(s: System) {
    forall p :: p in s.procs && s.procs[p].task.Apply? && !InToken(s.procs[p]) ==> s.procs[p].pc.Enter?
  }

  /** Where a step leads an Apply: on within its token section, or to its end with an answer. */
  ghost predicate ApplyStep(q: Proc, p: nat, m: Memory, e: Effect)
    requires q.task.Apply?
  {
    if e.next.Some? then
      e.next.value.task == q.task && InToken(e.next.value) && !q.pc.Release? && (q.pc.Enter? ==> !m.shutdown && !m.applying)
      && (e.note.Some? ==> !e.note.value.Returned?)
    else
      (q.pc.Release? || (q.pc.Enter? && (m.shutdown || m.applying)))
      && e.note == Some(Returned(p, q.task.req, if q.pc.Release? then q.pc.res else Err(Busy)))
  }

  lemma OutsideApplyStep(q: Proc, p: nat, d: Disk, m: Memory)
    requires q.task.Apply? && q.pc.Enter?
    ensures ApplyStep(q, p, m, StepOutside(q, p, d, m))
  {
  }

  lemma InsideApplyStep(q: Proc, p: nat, d: Disk, m: Memory, ok: bool, id: nat)
    requires q.task.Apply? && InToken(q)
    ensures ApplyStep(q, p, m, ProcStep(q, p, d, m, ok, id))
  {
    hide SameAsRunning, Matches;
  }

  lemma OthersStayOutside(q: Proc, p: nat, d: Disk, m: Memory, ok: bool, id: nat)
    requires !q.task.Apply?
    ensures var e := ProcStep(q, p, d, m, ok, id); e.next.Some? ==> !e.next.value.task.Apply?
  {
  }

  lemma AnyApplyStep(s: System, p: nat, ok: bool)
    requires AppliesEnter(s) && p in s.procs && s.procs[p].task.Apply?
    ensures ApplyStep(s.procs[p], p, s.mem, ProcStep(s.procs[p], p, s.disk, s.mem, ok, s.nextInst))
  {
    hide ApplyStep, StepOutside, StepPrepare, StepPromote, StepRestore, StepLeave, InToken;
    var q := s.procs[p];
    if InToken(q) {
      InsideApplyStep(q, p, s.disk, s.mem, ok, s.nextInst);
    } else {
      OutsideApplyStep(q, p, s.disk, s.mem);
    }
  }

  lemma StepKeepsEntry(s: System, a: Action)
    requires AppliesEnter(s) && Enabled(s, a)
    ensures AppliesEnter(Step(s, a))
  {
    hide ProcStep, InToken;
    match a
    case Go(p, ok) =>
      var q := s.procs[p];
      if q.task.Apply? {
        AnyApplyStep(s, p, ok);
      } else {
        OthersStayOutside(q, p, s.disk, s.mem, ok, s.nextInst);
      }
    case _ =>
  }

  lemma {:induction false} RunEntersOnce(tr: seq<System>, acts: seq<Action>, i: nat)
    requires Run(tr, acts) && i < |tr|
    ensures AppliesEnter(tr[i])
  {
    hide Step, AppliesEnter;
    if i == 0 {
      NobodyEntered();
    } else {
      RunEntersOnce(tr, acts, i - 1);
      StepKeepsEntry(tr[i - 1], acts[i - 1]);
    }
  }

  lemma NobodyEntered()
    ensures AppliesEnter(INIT_SYSTEM)
  {
  }

  /**
   * In every run: a step ends an Apply exactly when that was about to release the token
   * or meets a busy or ending supervisor, and then, and only then, it is answered, with the
   * result it carried or with its being busy.
   */
  lemma EndedApplyAnswers(tr: seq<System>, acts: seq<Action>, i: nat, p: nat)
    requires Run(tr, acts) && i < |acts| && acts[i].Go? && acts[i].pid == p && p in tr[i].procs && tr[i].procs[p].task.Apply?
    ensures var q, s, t := tr[i].procs[p], tr[i], tr[i + 1];
      && (p !in t.procs <==> q.pc.Release? || (q.pc.Enter? && (s.mem.shutdown || s.mem.applying)))
      && (p !in t.procs ==> t.log == s.log + [Returned(p, q.task.req, if q.pc.Release? then q.pc.res else Err(Busy))])
      && (p in t.procs ==> t.log == s.log || (|t.log| == |s.log| + 1 && s.log <= t.log && !t.log[|s.log|].Returned?))
  {
    hide ProcStep, InToken, HolderOk, StoreOk, RevOk, CalmOk;
    RunEntersOnce(tr, acts, i);
    AnyApplyStep(tr[i], p, acts[i].ok);
    RunInv(tr, acts, i);
    assert p < tr[i].nextPid;
  }

  // ---- every running box is watched ----

  predicate Watches(q: Proc, box: Instance) {
    q.task == Watch(box) && q.pc.AwaitDeath?
  }

  ghost predicate Watched(s: System, box: Instance) {
    exists p :: p in s.procs && Watches(s.procs[p], box)
  }

  /** A watcher of the box is told to leave. */
  predicate Cancels(s: System, a: Action, box: Instance) {
    a.CancelWatch? && a.pid in s.procs && Watches(s.procs[a.pid], box)
  }

  /** A box is installed together with its watcher, and the death it waits for uninstalls it. */
  ghost predicate WatchStep(q: Proc, m: Memory, e: Effect) {
    && (e.mem.inst.Some? ==> e.mem.inst == m.inst || e.spawn == e.mem.inst)
    && (m.shutdown ==> e.mem.shutdown)
    && (m.inst.Some? && !m.shutdown && Watches(q, m.inst.value) ==> e.mem.inst.None?)
  }

  lemma OutsideWatchStep(q: Proc, p: nat, d: Disk, m: Memory)
    requires !InToken(q)
    ensures WatchStep(q, m, StepOutside(q, p, d, m))
  {
  }

  lemma InsideWatchStep(q: Proc, p: nat, d: Disk, m: Memory, ok: bool, id: nat)
    requires InToken(q)
    ensures WatchStep(q, m, ProcStep(q, p, d, m, ok, id))
  {
    hide SameAsRunning, Matches;
  }

  lemma AnyWatchStep(q: Proc, p: nat, d: Disk, m: Memory, ok: bool, id: nat)
    ensures WatchStep(q, m, ProcStep(q, p, d, m, ok, id))
  {
    hide WatchStep, StepOutside, StepPrepare, StepPromote, StepRestore, StepLeave, InToken;
    if InToken(q) {
      InsideWatchStep(q, p, d, m, ok, id);
    } else {
      OutsideWatchStep(q, p, d, m);
    }
  }

  lemma GoWatches(s: System, p: nat, ok: bool, box: Instance)
    requires p in s.procs && s.nextPid !in s.procs
    requires var t := Advance(s, p, ok); t.mem.inst == Some(box) && !t.mem.shutdown
    ensures Watched(Advance(s, p, ok), box) || (s.mem.inst == Some(box) && !s.mem.shutdown && !Watched(s, box))
  {
    hide ProcStep;
    var q, t := s.procs[p], Advance(s, p, ok);
    var e := ProcStep(q, p, s.disk, s.mem, ok, s.nextInst);
    AnyWatchStep(q, p, s.disk, s.mem, ok, s.nextInst);
    if e.spawn == Some(box) {
      assert Watches(t.procs[s.nextPid], box);
    } else if Watched(s, box) {
      var w :| w in s.procs && Watches(s.procs[w], box);
      assert w != p;
      assert w in t.procs && t.procs[w] == s.procs[w];
    }
  }

  lemma StepWatches(s: System, a: Action, box: Instance)
    requires Inv(s) && Enabled(s, a)
    requires Step(s, a).mem.inst == Some(box) && !Step(s, a).mem.shutdown
    ensures Watched(Step(s, a), box) || (s.mem.inst == Some(box) && !s.mem.shutdown && (!Watched(s, box) || Cancels(s, a, box)))
  {
    hide ProcStep, HolderOk, StoreOk, RevOk, CalmOk, InToken;
    assert s.nextPid !in s.procs;
    var t := Step(s, a);
    match a
    case Go(p, ok) => GoWatches(s, p, ok, box);
    case Crash(_, _) => CancelAndCrash(s, a);
    case _ =>
      if Watched(s, box) && !Cancels(s, a, box) {
        var w :| w in s.procs && Watches(s.procs[w], box);
        assert w in t.procs && t.procs[w] == s.procs[w];
      }
  }

  /**
   * In every run: while the supervisor is not shutting down an installed box has a
   * goroutine that waits for its death, unless such a goroutine was told to leave.
   */
  lemma {:induction false} RunningIsWatched(tr: seq<System>, acts: seq<Action>, i: nat)
    requires Run(tr, acts) && i < |tr| && tr[i].mem.inst.Some? && !tr[i].mem.shutdown
    ensures var box := tr[i].mem.inst.value;
      (exists p :: p in tr[i].procs && tr[i].procs[p].task == Watch(box) && tr[i].procs[p].pc.AwaitDeath?)
      || exists k :: 0 <= k < i && Cancels(tr[k], acts[k], box)
  {
    hide Step, Cancels;
    var box := tr[i].mem.inst.value;
    if i > 0 {
      RunInv(tr, acts, i - 1);
      StepWatches(tr[i - 1], acts[i - 1], box);
      if Watched(tr[i], box) {
        var p :| p in tr[i].procs && Watches(tr[i].procs[p], box);
        assert tr[i].procs[p].task == Watch(box) && tr[i].procs[p].pc.AwaitDeath?;
      } else {
        RunningIsWatched(tr, acts, i - 1);
        assert Watched(tr[i - 1], box) || exists k :: 0 <= k < i - 1 && Cancels(tr[k], acts[k], box);
      }
    }
  }
}
