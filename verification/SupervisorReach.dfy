/** A run of the machine that ends in a restart which loses the revision. */
module SupervisorReach {
  import opened Basics
  import opened ConfigStore
  import opened Supervisor
  import opened SupervisorObject
  import opened SupervisorTheorems

  ghost predicate Reachable(s: System) {
    exists tr, acts :: Run(tr, acts) && tr[|acts|] == s
  }

  lemma StartIsReachable()
    ensures Reachable(INIT_SYSTEM)
  {
    assert Run([INIT_SYSTEM], []);
  }

  lemma StepIsReachable(s: System, a: Action)
    requires Reachable(s) && Enabled(s, a)
    ensures Reachable(Step(s, a))
  {
    hide Step, Enabled;
    var tr, acts :| Run(tr, acts) && tr[|acts|] == s;
    var tr2, acts2 := tr + [Step(s, a)], acts + [a];
    assert Run(tr2, acts2) && tr2[|acts2|] == Step(s, a);
  }

  /** The system seen from goroutine `p`. */
  ghost predicate Follows(s: System, p: nat, c: Config) {
    s.disk == c.disk && s.mem == c.mem && p < s.nextPid && c.proc.Some? && p in s.procs && s.procs[p] == c.proc.value
  }

  lemma GoOn(s: System, p: nat, c: Config) returns (next: System)
    requires Reachable(s) && Follows(s, p, c) && Then(c, p, true, s.nextInst).proc.Some?
    ensures Reachable(next) && Follows(next, p, Then(c, p, true, s.nextInst))
  {
    hide ProcStep, Reachable;
    next := Step(s, Go(p, true));
    StepIsReachable(s, Go(p, true));
  }

  // ---- an Apply in which everything works ----

  lemma StepOf(c: Config, p: nat, id: nat) returns (next: Config)
    requires c.proc.Some? && InToken(c.proc.value)
    ensures next == Then(c, p, true, id)
    ensures IsPrepare(c.proc.value.pc) && c.proc.value.task.Apply? ==>
      var e := StepPrepare(c.proc.value, c.proc.value.task.req, p, c.disk, c.mem, true, id); next == Config(e.next, e.disk, e.mem)
    ensures IsPromote(c.proc.value.pc) ==>
      var e := StepPromote(c.proc.value, p, c.disk, c.mem, true); next == Config(e.next, e.disk, e.mem)
  {
    hide StepPrepare, StepPromote, StepRestore, StepLeave, StepOutside;
    next := Then(c, p, true, id);
  }

  /** Where a lucky Apply of `req` is on its way to the counter, with what it needs to get on. */
  ghost predicate OnTheWay(c: Config, req: Request) {
    c.proc.Some? && c.proc.value.task == Task.Apply(req) && req.raw != EMPTY_DOCUMENT && req.force && req.cond.MatchNone? &&
    var pc := c.proc.value.pc;
    || pc.ReadCurrent? || pc.CheckSame? || pc.Validate? || pc.LoadForStage? || pc.WriteStaged?
    || (pc.WriteStagedMeta? && c.disk.staged.Some?)
    || ((pc.Take? || pc.Start? || pc.Probe? || pc.ReadStaged?) && c.disk.staged.Some? && c.disk.stagedMeta.Some?)
    || (pc.ReadStagedMeta? && c.disk.stagedMeta.Some?)
    || pc.LoadForPromote?
    || ((pc.WriteLastGood? || pc.WriteLastGoodMeta? || pc.SaveAgent? || pc.InstallNew?) && pc.meta.revision > 0)
  }

  /** How many steps are left until the new box is installed. */
  function Left(pc: Pc): nat {
    match pc
    case ReadCurrent => 16
    case CheckSame => 15
    case Validate => 14
    case LoadForStage => 13
    case WriteStaged(_) => 12
    case WriteStagedMeta(_) => 11
    case Take => 10
    case Start => 9
    case Probe(_) => 8
    case ReadStaged(_) => 7
    case ReadStagedMeta(_, _) => 6
    case LoadForPromote(_, _, _) => 5
    case WriteLastGood(_, _, _) => 4
    case WriteLastGoodMeta(_, _) => 3
    case SaveAgent(_, _) => 2
    case InstallNew(_, _) => 1
    case _ => 0
  }

  lemma PrepareGoesOn(c: Config, req: Request, p: nat, id: nat)
    requires OnTheWay(c, req) && IsPrepare(c.proc.value.pc)
    ensures var e := StepPrepare(c.proc.value, req, p, c.disk, c.mem, true, id);
      OnTheWay(Config(e.next, e.disk, e.mem), req) && Left(e.next.value.pc) < Left(c.proc.value.pc)
  {
  }

  lemma PromoteGoesOn(c: Config, req: Request, p: nat)
    requires OnTheWay(c, req) && IsPromote(c.proc.value.pc)
    ensures var e := StepPromote(c.proc.value, p, c.disk, c.mem, true);
      if c.proc.value.pc.InstallNew? then e.next.Some? && e.mem.revision > 0
      else OnTheWay(Config(e.next, e.disk, e.mem), req) && Left(e.next.value.pc) < Left(c.proc.value.pc)
  {
  }

  lemma TakeGoesOn(c: Config, req: Request, p: nat, id: nat)
    requires OnTheWay(c, req) && c.proc.value.pc.Take?
    ensures OnTheWay(Then(c, p, true, id), req) && Left(Then(c, p, true, id).proc.value.pc) < Left(c.proc.value.pc)
  {
    hide StepPrepare, StepPromote, StepRestore, StepOutside;
  }

  lemma WayIsInToken(c: Config, req: Request)
    requires OnTheWay(c, req)
    ensures InToken(c.proc.value)
    ensures IsPrepare(c.proc.value.pc) || IsPromote(c.proc.value.pc) || c.proc.value.pc.Take?
  {
  }

  /** From there the new box gets installed, with a positive revision. */
  lemma {:induction false} GetsThere(s: System, p: nat, c: Config, req: Request) returns (end: System)
    requires Reachable(s) && Follows(s, p, c) && OnTheWay(c, req)
    ensures Reachable(end) && end.mem.revision > 0
    decreases Left(c.proc.value.pc)
  {
    hide Reachable, Then, OnTheWay, InToken, StepPrepare, StepPromote, Left;
    WayIsInToken(c, req);
    TaskOnTheWay(c, req);
    var next := StepOf(c, p, s.nextInst);
    if IsPrepare(c.proc.value.pc) {
      PrepareGoesOn(c, req, p, s.nextInst);
    } else if IsPromote(c.proc.value.pc) {
      PromoteGoesOn(c, req, p);
    } else {
      TakeGoesOn(c, req, p, s.nextInst);
    }
    if c.proc.value.pc.InstallNew? {
      end := GoOn(s, p, c);
    } else {
      TaskOnTheWay(next, req);
      var s2 := GoOn(s, p, c);
      end := GetsThere(s2, p, next, req);
    }
  }

  lemma TaskOnTheWay(c: Config, req: Request)
    requires OnTheWay(c, req)
    ensures c.proc.Some? && c.proc.value.task == Task.Apply(req)
  {
  }

  /** A restart that falls back does happen: after one successful promote, when neither file can be read. */
  lemma FallingRestartIsReachable()
    ensures exists s :: Reachable(s) && FallsBack(s, Crash(false, false))
  {
    hide Reachable, ProcStep;
    var req := Request(Document([1]), Push, MatchNone, true);
    StartIsReachable();
    var s := Step(INIT_SYSTEM, Spawn(Task.Apply(req)));
    StepIsReachable(INIT_SYSTEM, Spawn(Task.Apply(req)));
    var c := Config(Some(NewProc(Task.Apply(req))), s.disk, s.mem);
    EntersOnTheWay(c, req, s.nextInst);
    var s1 := GoOn(s, 0, c);
    var end := GetsThere(s1, 0, Then(c, 0, true, s.nextInst), req);
    assert FallsBack(end, Crash(false, false));
  }

  lemma EntersOnTheWay(c: Config, req: Request, id: nat)
    requires c.proc == Some(NewProc(Task.Apply(req))) && !c.mem.shutdown && !c.mem.applying
    requires req.raw != EMPTY_DOCUMENT && req.force && req.cond.MatchNone?
    ensures OnTheWay(Then(c, 0, true, id), req)
  {
    hide StepPrepare, StepPromote, StepRestore, StepLeave;
  }
}
