/** What the condition of an Apply was compared with, over every run. */
module SupervisorConditions {
  import opened Basics
  import opened ConfigStore
  import opened Supervisor
  import opened SupervisorInvariant
  import opened SupervisorHistory
  import opened SupervisorTheorems

  /** Revision and hash in memory are those the request asks for. */
  predicate Meets(m: Memory, req: Request) {
    && (req.cond.MatchRevision? ==> m.revision == req.cond.rev)
    && (req.cond.MatchSha? ==> m.sha == req.cond.sha)
  }

  /** The points of an Apply behind its comparison, on the way to a success or a noop. */
  predicate Past(pc: Pc) {
    HoldsCurrent(pc) || (Verdict(pc).Some? && (Verdict(pc).value.Ok? || Verdict(pc).value.Noop?))
  }

  /** These points are entered by the comparison alone. */
  ghost predicate EnteredByComparison(q: Proc, m: Memory, e: Effect)
    requires q.task.Apply?
  {
    e.next.Some? && Past(e.next.value.pc) ==> Past(q.pc) || (q.pc.ReadCurrent? && Meets(m, q.task.req) && q.task.req.raw.data != [])
  }

  lemma PrepareEnters(q: Proc, p: nat, d: Disk, m: Memory, ok: bool, id: nat)
    requires IsPrepare(q.pc) && q.task.Apply?
    ensures EnteredByComparison(q, m, StepPrepare(q, q.task.req, p, d, m, ok, id))
  {
    hide SameAsRunning;
    if q.task.req.raw.data == [] {
      assert q.task.req.raw == EMPTY_DOCUMENT;
    }
  }

  lemma PromoteEnters(q: Proc, p: nat, d: Disk, m: Memory, ok: bool)
    requires IsPromote(q.pc) && q.task.Apply?
    ensures EnteredByComparison(q, m, StepPromote(q, p, d, m, ok))
  {
    hide Meets;
  }

  lemma RestoreEnters(q: Proc, d: Disk, m: Memory, ok: bool, id: nat)
    requires IsRestore(q.pc) && q.task.Apply?
    ensures EnteredByComparison(q, m, StepRestore(q, d, m, ok, id))
  {
    hide Meets;
  }

  lemma LeaveEnters(q: Proc, p: nat, d: Disk, m: Memory)
    requires InToken(q) && !IsPrepare(q.pc) && !IsPromote(q.pc) && !IsRestore(q.pc) && q.task.Apply?
    ensures EnteredByComparison(q, m, StepLeave(q, p, d, m))
  {
    hide Meets;
  }

  lemma StepEnters(q: Proc, p: nat, d: Disk, m: Memory, ok: bool, id: nat)
    requires InToken(q) && q.task.Apply?
    ensures EnteredByComparison(q, m, ProcStep(q, p, d, m, ok, id))
  {
    hide EnteredByComparison, StepPrepare, StepPromote, StepRestore, StepLeave, StepOutside;
    if IsPrepare(q.pc) {
      PrepareEnters(q, p, d, m, ok, id);
    } else if IsPromote(q.pc) {
      PromoteEnters(q, p, d, m, ok);
    } else if IsRestore(q.pc) {
      RestoreEnters(q, d, m, ok, id);
    } else {
      LeaveEnters(q, p, d, m);
    }
  }

  lemma EntryIsNotPast(q: Proc, p: nat, d: Disk, m: Memory, ok: bool, id: nat)
    requires !InToken(q)
    ensures var e := ProcStep(q, p, d, m, ok, id);
      e.next.Some? && InToken(e.next.value) && e.next.value.task.Apply? ==> !Past(e.next.value.pc)
  {
  }

  lemma PastIsInside(q: Proc)
    requires Past(q.pc)
    ensures InToken(q)
  {
  }

  /** The step at which goroutine `p` compared the condition of its request with memory, and found it met. */
  ghost predicate ComparedAt(tr: seq<System>, acts: seq<Action>, k: nat, p: nat, req: Request)
    requires |tr| == |acts| + 1
  {
    && k < |acts| && acts[k].Go? && acts[k].pid == p && p in tr[k].procs
    && tr[k].procs[p].pc.ReadCurrent? && tr[k].procs[p].task == Task.Apply(req)
    && Meets(tr[k].mem, req) && req.raw.data != []
  }

  lemma {:induction false} ComparisonExists(tr: seq<System>, acts: seq<Action>, i: nat, p: nat) returns (k: nat)
    requires Run(tr, acts) && i < |tr| && p in tr[i].procs && tr[i].procs[p].task.Apply? && Past(tr[i].procs[p].pc)
    ensures k < i && ComparedAt(tr, acts, k, p, tr[i].procs[p].task.req)
  {
    hide Step, ProcStep, Past, Meets, InToken;
    PastIsInside(tr[i].procs[p]);
    RunCameFrom(tr, acts, i, p);
    var s, a := tr[i - 1], acts[i - 1];
    if a.Go? && a.pid == p {
      var q := s.procs[p];
      if !InToken(q) {
        EntryIsNotPast(q, p, s.disk, s.mem, a.ok, s.nextInst);
        assert false;
      }
      StepKeepsLocals(q, p, s.disk, s.mem, a.ok, s.nextInst);
      StepEnters(q, p, s.disk, s.mem, a.ok, s.nextInst);
      if Past(q.pc) {
        k := ComparisonExists(tr, acts, i - 1, p);
      } else {
        k := i - 1;
      }
    } else {
      k := ComparisonExists(tr, acts, i - 1, p);
    }
  }

  lemma AnswerStep(q: Proc, p: nat, d: Disk, m: Memory, ok: bool, id: nat)
    ensures var e := ProcStep(q, p, d, m, ok, id);
      e.note.Some? && e.note.value.Returned? && (e.note.value.res.Ok? || e.note.value.res.Noop?) ==>
        q.task.Apply? && Past(q.pc) && e.note.value.pid == p && e.note.value.req == q.task.req
  {
  }

  /**
   * In every run, whatever fails: an Apply that returned a success or a noop had, after
   * taking the token, found in memory the revision or the hash its condition names.
   */
  lemma AnsweredWhenMet(tr: seq<System>, acts: seq<Action>, n: nat, i: nat) returns (k: nat)
    requires Run(tr, acts) && n < |tr| && i < |tr[n].log| && tr[n].log[i].Returned?
    requires tr[n].log[i].res.Ok? || tr[n].log[i].res.Noop?
    ensures k < n && k < |acts| && acts[k].Go? && acts[k].pid == tr[n].log[i].pid && tr[n].log[i].pid in tr[k].procs
    ensures var q := tr[k].procs[tr[n].log[i].pid]; q.pc.ReadCurrent? && q.task == Task.Apply(tr[n].log[i].req)
    ensures tr[n].log[i].req.cond.MatchSha? ==> tr[k].mem.sha == tr[n].log[i].req.cond.sha
    ensures tr[n].log[i].req.cond.MatchRevision? ==> tr[k].mem.revision == tr[n].log[i].req.cond.rev
    ensures tr[n].log[i].req.raw.data != []
  {
    hide Step, ProcStep, Past;
    var a := EntryLogged(tr, acts, n, i);
    LogGrows(tr, acts, a);
    var p := acts[a].pid;
    AnswerStep(tr[a].procs[p], p, tr[a].disk, tr[a].mem, acts[a].ok, tr[a].nextInst);
    k := ComparisonExists(tr, acts, a, p);
  }
}
