/** What one Apply answers and leaves behind, in terms of its request and of the fields and files it met. */
module ApplyOutcomes {
  import opened Basics
  import opened ConfigStore
  import opened Supervisor
  import opened SupervisorObject

  /** An idle supervisor refuses a non-empty document for its condition exactly when revision or hash differ, and changes nothing. */
  lemma PreconditionDecides(req: Request, luck: Luck, d0: Disk, m0: Memory, res: Result, d: Disk, m: Memory)
    requires Applied(req, luck, d0, m0, res, d, m)
    requires !m0.shutdown && !m0.applying && req.raw.data != []
    ensures res == Err(Precondition) <==>
      (req.cond.MatchRevision? && req.cond.rev != m0.revision) || (req.cond.MatchSha? && req.cond.sha != m0.sha)
    ensures res == Err(Precondition) ==> d == d0 && m == m0
  {
    hide SameAsRunning, StagedPrefix, PhaseOnApply, Lucky;
  }

  /** The checks of an idle Apply, in the order in which they answer. */
  lemma ChecksAnswer(req: Request, luck: Luck, d0: Disk, m0: Memory, res: Result, d: Disk, m: Memory)
    requires Applied(req, luck, d0, m0, res, d, m) && !m0.shutdown && !m0.applying
    ensures var met := !(req.cond.MatchRevision? && req.cond.rev != m0.revision) && !(req.cond.MatchSha? && req.cond.sha != m0.sha);
      var same :=
        !req.force && m0.sha == Some(Digest(req.raw)) && m0.inst.Some? && (m0.phase.Running? || m0.phase.RolledBack?);
      && (res.Noop? <==> req.raw.data != [] && met && same)
      && (res.Noop? ==> res.revision == m0.revision && d == d0 && m == m0.(phase := Running))
      && (res == Err(Invalid) <==> req.raw.data == [] || (met && !same && !luck.validate))
      && (res == Err(Invalid) ==> d == d0 && m == m0)
      && (res == Err(StoreFailed) <==> req.raw.data != [] && met && !same && luck.validate && !(luck.load && luck.raw && luck.meta))
      && (res == Err(StoreFailed) ==> m == m0)
  {
    hide StagedPrefix, PhaseOnApply, Lucky;
    assert req.raw.data == [] <==> req.raw == EMPTY_DOCUMENT;
  }

  /** An Apply that meets a busy or ending supervisor, and no other, is turned away. */
  lemma BusyTurnsAway(req: Request, luck: Luck, d0: Disk, m0: Memory, res: Result, d: Disk, m: Memory)
    requires Applied(req, luck, d0, m0, res, d, m)
    ensures res == Err(Busy) <==> m0.shutdown || m0.applying
    ensures res == Err(Busy) ==> d == d0 && m == m0
  {
    hide StagedPrefix, PhaseOnApply, Matches, SameAsRunning, Lucky;
  }

  /** Past the checks and the staging: the new box, the old document, or nothing. */
  lemma SwapAnswers(req: Request, luck: Luck, d0: Disk, m0: Memory, res: Result, d: Disk, m: Memory)
    requires Applied(req, luck, d0, m0, res, d, m)
    requires res.Ok? || res == Err(RestoredLastGood) || res == Err(BoxDown)
    ensures res.Ok? <==> luck.start && luck.probe && luck.read && luck.loadAgain && luck.upTo == 3
    ensures !res.Ok? ==>
      (res == Err(RestoredLastGood) <==>
        luck.restore.raw && luck.restore.meta && luck.restore.start && luck.restore.probe && d.lastGood.Some? && d.lastGoodMeta.Some?)
    ensures res.Ok? ==> m.inst.Some? && m.inst.value.bytes == req.raw
    ensures res.Ok? ==>
      m == m0.(inst := m.inst, phase := Running, sha := Some(Digest(req.raw)), revision := res.revision, backoff := 1)
    ensures res == Err(RestoredLastGood) ==> m.inst.Some? && d.lastGood == Some(m.inst.value.bytes)
    ensures res == Err(RestoredLastGood) ==>
      m == m0.(inst := m.inst, phase := RolledBack, sha := Some(d.lastGoodMeta.value.sha), revision := d.lastGoodMeta.value.revision)
    ensures res == Err(BoxDown) ==> m == m0.(inst := None, phase := Stopped)
  {
    hide Matches, SameAsRunning, PhaseOnApply;
  }

  /** The staged files: untouched before the staging, and then written as far as it got. */
  lemma StagedFiles(req: Request, luck: Luck, d0: Disk, m0: Memory, res: Result, d: Disk, m: Memory)
    requires Applied(req, luck, d0, m0, res, d, m)
    ensures var reached := res.Ok? || res == Err(RestoredLastGood) || res == Err(BoxDown) || res == Err(StoreFailed);
      var counter := if d0.agent.Some? then d0.agent.value else 0;
      && d.staged == (if reached && luck.load && luck.raw then Some(req.raw) else d0.staged)
      && d.stagedMeta ==
           (if reached && luck.load && luck.raw && luck.meta then Some(Meta(Digest(req.raw), counter, req.source)) else d0.stagedMeta)
  {
    hide Matches, SameAsRunning, PhaseOnApply, Lucky;
  }

  /** The last-good files and the counter: written in this order as far as the promote got, with the next revision. */
  lemma LastGoodFiles(req: Request, luck: Luck, d0: Disk, m0: Memory, res: Result, d: Disk, m: Memory)
    requires Applied(req, luck, d0, m0, res, d, m)
    ensures var reached := res.Ok? || res == Err(RestoredLastGood) || res == Err(BoxDown);
      var writes := if reached && luck.start && luck.probe && luck.read && luck.loadAgain then luck.upTo else 0;
      var next := (if d0.agent.Some? then d0.agent.value else 0) + 1;
      && d.lastGood == (if writes >= 1 then Some(req.raw) else d0.lastGood)
      && d.lastGoodMeta == (if writes >= 2 then Some(Meta(Digest(req.raw), next, req.source)) else d0.lastGoodMeta)
      && d.agent == (if writes >= 3 then Some(next) else d0.agent)
      && (res.Ok? ==> res.revision == next)
  {
    hide Matches, SameAsRunning, PhaseOnApply, Lucky;
  }
}
