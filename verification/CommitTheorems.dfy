/** What the commit protocol keeps, over every run. */
module CommitTheorems {
  import opened Basics
  import opened Ownership
  import opened Commits

  // ---- the log ----

  /** No commit but the pending one is unfinished. */
  ghost predicate OnlyPendingOpen(w: World) {
    forall id :: id in w.commits && !Terminal(w.commits[id].status) ==> id == w.pending
  }

  /** A pending commit is stored, and a worker serves the pending one. */
  ghost predicate PendingOk(w: World) {
    && (w.pending != "" ==> w.pending in w.commits)
    && (w.worker.Some? ==> w.worker.value != "" && w.worker.value == w.pending)
  }

  /** The heads are the replay of the accepted commits, and only the pending one is open. */
  ghost predicate LogOk(w: World) {
    w.heads == Replay(w.accepted) && OnlyPendingOpen(w) && "" !in w.commits && PendingOk(w)
  }

  lemma {:induction false} ReplayGrows(log: seq<Bodies>, blocks: Bodies)
    ensures Replay(log + [blocks]) == Updated(Replay(log), blocks)
  {
    hide Updated;
    assert (log + [blocks])[..|log|] == log;
  }

  /** The blocks of a request reach the files without a refusal. */
  predicate Stored(w: World, r: Request)
    requires RequestOk(r)
  {
    Admitted(w, r) && PersistedAll(w.node, r.order, BodiesOf(r.blocks), r.fs).ok
  }

  /**
   * A post keeps the log exact, except when its saves are cut short: between the
   * heads and the commit (unless the blocks change no head), or between the commit
   * and the meta file.
   */
  lemma PostKeepsLog(w: World, r: Request)
    requires LogOk(w) && RequestOk(r) && r.id != "" && r.id !in w.commits
    ensures LogOk(Post(w, r).world) <==>
      || !Stored(w, r)
      || !r.saves.heads
      || (r.saves.commit && r.saves.meta)
      || (!r.saves.commit && Updated(w.heads, BodiesOf(r.blocks)) == w.heads)
  {
    hide PersistedAll, Updated, Replay, BaseMatches, BlocksOk, BodiesOf, Prepended;
    if Stored(w, r) && r.saves.heads {
      var blocks := BodiesOf(r.blocks);
      ReplayGrows(w.accepted, blocks);
      var v := Post(w, r).world;
      if r.saves.commit && !r.saves.meta {
        assert r.id in v.commits && v.pending == "";
      }
    }
  }

  /**
   * An application keeps the log exact, except when its final save of the commit
   * fails and the pending mark is cleared all the same, or when the heads cannot
   * be read back and are saved empty.
   */
  lemma ApplyKeepsLog(w: World, order: seq<string>, f: Faults, g: Finish)
    requires LogOk(w) && w.worker.Some? && g.load && !Terminal(w.commits[w.pending].status)
    ensures LogOk(Apply(w, order, f, g)) <==>
      && (g.commit || !g.meta)
      && (!Outcome(w.node, w.commits[w.pending], order, f).ok || !g.headsSave || g.headsLoad || w.heads == map[])
  {
    hide Outcome, Replay;
    var id := w.worker.value;
    var v := Apply(w, order, f, g);
    assert id in v.commits;
    assert forall x :: x in v.commits && x != id ==> v.commits[x] == w.commits[x];
  }

  /** Without a worker, or when the commit cannot be loaded, nothing is lost but the worker. */
  lemma IdleApplyKeepsLog(w: World, order: seq<string>, f: Faults, g: Finish)
    requires LogOk(w) && (w.worker.None? || !g.load)
    ensures LogOk(Apply(w, order, f, g))
  {
    hide Outcome, Replay;
  }

  // ---- active sets and ownership ----

  lemma PersistedOwned(n: Node, k: Key, body: Body, f: Faults)
    requires Owned(n)
    ensures Owned(Persisted(n, k, body, f).node)
  {
    hide StoredName, Without;
  }

  lemma {:induction false} PersistedAllOwned(n: Node, order: seq<Key>, blocks: Bodies, fs: seq<Faults>)
    requires |fs| == |order| && (forall i :: 0 <= i < |order| ==> order[i] in blocks) && Owned(n)
    ensures Owned(PersistedAll(n, order, blocks, fs).node)
    decreases |order|
  {
    hide Persisted, Owned;
    if order != [] {
      PersistedOwned(n, order[0], blocks[order[0]], fs[0]);
      var first := Persisted(n, order[0], blocks[order[0]], fs[0]);
      if first.ok {
        PersistedAllOwned(first.node, order[1..], blocks, fs[1..]);
      }
    }
  }

  lemma PostOwned(w: World, r: Request)
    requires Owned(w.node) && RequestOk(r)
    ensures Owned(Post(w, r).world.node)
  {
    hide PersistedAll, BodiesOf, BlocksOk, BaseMatches, Updated, Prepended, Owned;
    if Admitted(w, r) {
      BodiesKeys(r.blocks);
      PersistedAllOwned(w.node, r.order, BodiesOf(r.blocks), r.fs);
    }
  }

  /**
   * The one way an application brings back active sets the control plane no longer
   * owns: it fails before it owns the configuration, with a snapshot to restore.
   */
  predicate RevivesSnapshot(n: Node, c: Commit, f: Faults) {
    && n.mode != Controlplane && c.prev != [] && f.restore
    && (Wanted(c.blocks, false) != {} || Wanted(c.blocks, true) != {})
    && (if Wanted(c.blocks, false) != {} then !f.claim else !f.load || !f.save)
  }

  /** An application keeps active sets with the control plane exactly when it does not revive a stale snapshot. */
  lemma OutcomeOwned(n: Node, c: Commit, order: seq<string>, f: Faults)
    requires Owned(n) && f.clear
    requires forall x :: x in Wanted(c.blocks, false) ==> x in order
    requires forall x :: x in order ==> x in Wanted(c.blocks, false)
    ensures Owned(Outcome(n, c, order, f).node) <==> !RevivesSnapshot(n, c, f)
  {
    hide Wanted, Dropped, Added, Kept;
    var on := Wanted(c.blocks, false);
    if on == {} {
      NoElements(order);
      assert Dropped([], Wanted(c.blocks, true)) == [] by { NoElements(Dropped([], Wanted(c.blocks, true))); }
      assert Kept([], n.sets) == [] by { NoElements(Kept([], n.sets)); }
    } else {
      var x :| x in on;
      assert x in order;
    }
  }

  /** With every write succeeding no application revives a snapshot: only a rebuild under the control plane can fail. */
  lemma PersistentApplyOwned(n: Node, c: Commit, order: seq<string>, f: Faults)
    requires Owned(n) && Persists(f)
    requires forall x :: x in Wanted(c.blocks, false) ==> x in order
    requires forall x :: x in order ==> x in Wanted(c.blocks, false)
    ensures Owned(Outcome(n, c, order, f).node)
    ensures !Outcome(n, c, order, f).ok ==> Outcome(n, c, order, f).node.active == c.prev
    ensures !Outcome(n, c, order, f).ok ==> Outcome(n, c, order, f).node.mode == Controlplane && !f.remat
  {
    OutcomeOwned(n, c, order, f);
    hide Wanted, Dropped, Added, Kept;
  }

  /**
   * Snapshots do go stale: a node taken over by a direct configuration between a
   * post and its application gets its old active sets back when the claim fails.
   */
  lemma StaleSnapshotRevives(n: Node, c: Commit, order: seq<string>, f: Faults)
    requires n.mode == Direct && n.active == [] && !f.claim && f.restore
    requires Wanted(c.blocks, false) != {} && c.prev != []
    ensures var v := Outcome(n, c, order, f).node;
      Owned(n) && v == n.(active := c.prev) && !Owned(v)
  {
    hide Wanted;
  }

  /**
   * The snapshot holds no owner: a failed commit leaves no ownership issue exactly when
   * it has active sets to put back or the hub is on.  Otherwise the node stays in
   * control plane mode with nothing active, and the next boot turns it idle.
   */
  lemma FailedFirstCommitOrphans(n: Node, c: Commit, order: seq<string>, f: Faults, g: Faults)
    requires Owned(n) && Persists(f) && Persists(g) && !Outcome(n, c, order, f).ok
    requires forall x :: x in Wanted(c.blocks, false) ==> x in order
    requires forall x :: x in order ==> x in Wanted(c.blocks, false)
    ensures var v := Outcome(n, c, order, f).node;
      && (Issues(v) == [] <==> c.prev != [] || n.hub)
      && (Issues(v) != [] ==> Issues(v) == ["controlplane_mode_without_active_sets"] && Booted(v, g).mode == Idle)
  {
    PersistentApplyOwned(n, c, order, f);
    var v := Outcome(n, c, order, f).node;
    OutcomeKeepsHub(n, c, order, f);
    NoElements(Kept([], v.sets));
    hide Outcome, Kept, Wanted;
  }

  lemma OutcomeKeepsHub(n: Node, c: Commit, order: seq<string>, f: Faults)
    ensures Outcome(n, c, order, f).node.hub == n.hub
  {
    hide Wanted, Dropped, Added, Kept;
  }

  // ---- whole runs ----

  /** A world as the control plane finds it on first start. */
  ghost predicate Fresh(w: World) {
    w.heads == map[] && w.commits == map[] && w.accepted == [] && w.pending == "" && w.worker.None? && w.recent == [] && Owned(w.node)
  }

  /** Every file is written; configurations may still be refused. */
  ghost predicate Sound(a: Act) {
    match a
    case Own(op, _) => Clears(op)
    case Submit(r) => r.saves == Saves(true, true, true)
    case Finished(_, f, g) => Persists(f) && g.headsLoad && g.commit
    case Restart(f) => f.clear
  }

  /** A worker's commit is still open. */
  ghost predicate WorkerOpen(w: World) {
    w.worker.Some? ==> w.worker.value in w.commits && !Terminal(w.commits[w.worker.value].status)
  }

  ghost predicate Good(w: World) {
    LogOk(w) && WorkerOpen(w) && Owned(w.node)
  }

  lemma SubmitGood(w: World, r: Request)
    requires Good(w) && RequestOk(r) && r.id != "" && r.id !in w.commits && r.saves == Saves(true, true, true)
    ensures Good(Post(w, r).world)
  {
    PostOwned(w, r);
    PostKeepsLog(w, r);
    hide PersistedAll, BodiesOf, BlocksOk, BaseMatches, Updated, Prepended, Owned, LogOk;
  }

  lemma FinishedGood(w: World, order: seq<string>, f: Faults, g: Finish)
    requires Good(w) && OrderOk(w, order) && Persists(f) && g.headsLoad && g.commit
    ensures Good(Apply(w, order, f, g))
  {
    hide Outcome, Wanted, Replay;
    if w.worker.None? || !g.load {
      IdleApplyKeepsLog(w, order, f, g);
    } else {
      ApplyKeepsLog(w, order, f, g);
      PersistentApplyOwned(w.node, w.commits[w.pending], order, f);
    }
  }

  lemma NextGood(w: World, a: Act)
    requires Good(w) && ActOk(w, a) && Sound(a)
    ensures Good(Next(w, a))
  {
    hide Step, Booted, Apply, Post, Replay, Owned, Persists;
    match a
    case Own(op, sha) => StepOwned(w.node, op);
    case Submit(r) => SubmitGood(w, r);
    case Finished(order, f, g) => FinishedGood(w, order, f, g);
    case Restart(f) => BootOwned(w.node, f);
  }

  lemma {:induction false} RunGood(ws: seq<World>, acts: seq<Act>, i: nat)
    requires IsRun(ws, acts) && i <= |acts| && Good(ws[0])
    requires forall j :: 0 <= j < |acts| ==> Sound(acts[j])
    ensures Good(ws[i])
  {
    hide Next, Good, Sound, ActOk;
    if i > 0 {
      RunGood(ws, acts, i - 1);
      NextGood(ws[i - 1], acts[i - 1]);
    }
  }

  /**
   * In every run whose files are written: the heads are the replay of the accepted
   * commits, at most one commit is unfinished and it is the pending one, and sets
   * are active only under control plane ownership.
   */
  lemma CommitLogIsExact(ws: seq<World>, acts: seq<Act>, i: nat)
    requires IsRun(ws, acts) && i <= |acts| && Fresh(ws[0])
    requires forall j :: 0 <= j < |acts| ==> Sound(acts[j])
    ensures ws[i].heads == Replay(ws[i].accepted)
    ensures forall id :: id in ws[i].commits && !Terminal(ws[i].commits[id].status) ==> id == ws[i].pending
    ensures "" !in ws[i].commits
    ensures ws[i].node.active != [] ==> ws[i].node.mode == Controlplane
  {
    assert Replay([]) == map[];
    hide Sound, ActOk, Next, Replay;
    RunGood(ws, acts, i);
  }

  // ---- the list of recent commits ----

  ghost predicate RecentOk(w: World) {
    Distinct(w.recent) && |w.recent| <= MAX_RECENT && forall x :: x in w.recent ==> x in w.commits
  }

  lemma NextRecent(w: World, a: Act)
    requires ActOk(w, a) && RecentOk(w)
    ensures RecentOk(Next(w, a))
  {
    hide Step, Booted, PersistedAll, BaseMatches, BlocksOk, BodiesOf, Outcome, Prepended, Distinct, Updated;
    if a.Submit? {
      PrependedOk(w.recent, a.request.id, MAX_RECENT);
    }
  }

  /** Whatever fails, the recent list names at most 32 commits, all different and all stored. */
  lemma {:induction false} RecentStaysShort(ws: seq<World>, acts: seq<Act>, i: nat)
    requires IsRun(ws, acts) && i <= |acts| && Fresh(ws[0])
    ensures RecentOk(ws[i])
  {
    hide Next, ActOk;
    if i > 0 {
      RecentStaysShort(ws, acts, i - 1);
      NextRecent(ws[i - 1], acts[i - 1]);
    }
  }

  // ---- the pending commit ----

  /** The worker finishes with its commit loaded and the pending mark written. */
  predicate Releases(w: World, a: Act) {
    a.Finished? && w.worker.Some? && a.g.load && a.g.meta
  }

  /** A pending commit that nobody will ever apply. */
  predicate Stranded(w: World) {
    w.pending != "" && w.worker.None?
  }

  /** Whatever fails, a pending commit is stored and a worker serves the pending one. */
  lemma NextPending(w: World, a: Act)
    requires ActOk(w, a) && PendingOk(w)
    ensures PendingOk(Next(w, a))
  {
    hide Step, Booted, PersistedAll, BaseMatches, BlocksOk, BodiesOf, Outcome, Prepended, Updated;
  }

  /** The pending mark is cleared exactly by such a finish. */
  lemma PendingStep(w: World, a: Act)
    requires ActOk(w, a) && PendingOk(w) && w.pending != ""
    ensures Next(w, a).pending == (if Releases(w, a) then "" else w.pending)
  {
    hide Step, Booted, PersistedAll, BaseMatches, BlocksOk, BodiesOf, Outcome, Prepended, Updated;
  }

  /** A served pending commit is stranded exactly by a restart, a failed load or a failed save of the mark. */
  lemma StrandingStep(w: World, a: Act)
    requires ActOk(w, a) && PendingOk(w) && w.worker.Some?
    ensures Stranded(Next(w, a)) <==> a.Restart? || (a.Finished? && !(a.g.load && a.g.meta))
  {
    hide Step, Booted, PersistedAll, BaseMatches, BlocksOk, BodiesOf, Outcome, Prepended, Updated;
  }

  /** In particular a restart right after an accepted post strands the commit. */
  lemma RestartStrands(w: World, r: Request, f: Faults)
    requires RequestOk(r) && r.id != "" && Post(w, r).ok
    ensures Stranded(Next(Post(w, r).world, Restart(f)))
  {
    AcceptedCommit(w, r);
    hide Post, Booted;
  }

  lemma {:induction false} RunPending(ws: seq<World>, acts: seq<Act>, i: nat)
    requires IsRun(ws, acts) && i <= |acts| && PendingOk(ws[0])
    ensures PendingOk(ws[i])
  {
    hide Next, ActOk, PendingOk;
    if i > 0 {
      RunPending(ws, acts, i - 1);
      NextPending(ws[i - 1], acts[i - 1]);
    }
  }

  /**
   * Over any run, whatever fails: from a pending commit on, a post can be admitted
   * again (the pending mark is empty) exactly from the first finish that releases it.
   */
  lemma {:induction false} PendingUntilReleased(ws: seq<World>, acts: seq<Act>, j: nat, i: nat)
    requires IsRun(ws, acts) && j <= i <= |acts| && PendingOk(ws[0]) && ws[j].pending != ""
    ensures (exists k :: j <= k <= i && ws[k].pending == "") <==> (exists k :: j <= k < i && Releases(ws[k], acts[k]))
    ensures (forall k :: j <= k < i ==> !Releases(ws[k], acts[k])) ==> ws[i].pending == ws[j].pending
  {
    hide Next, ActOk, PendingOk, Releases;
    if j < i {
      PendingUntilReleased(ws, acts, j, i - 1);
      RunPending(ws, acts, i - 1);
      if forall k :: j <= k < i - 1 ==> !Releases(ws[k], acts[k]) {
        PendingStep(ws[i - 1], acts[i - 1]);
        assert forall k :: j <= k <= i - 1 ==> ws[k].pending != "";
        assert ws[i].pending == "" <==> Releases(ws[i - 1], acts[i - 1]);
      } else {
        var k :| j <= k < i - 1 && Releases(ws[k], acts[k]);
        var e :| j <= e <= i - 1 && ws[e].pending == "";
        assert j <= k < i && j <= e <= i;
      }
    }
  }

  /** A post admitted after a pending commit was seen has that release behind it. */
  lemma AdmittedAfterRelease(ws: seq<World>, acts: seq<Act>, j: nat, i: nat, r: Request)
    requires IsRun(ws, acts) && j <= i <= |acts| && PendingOk(ws[0]) && ws[j].pending != "" && Admitted(ws[i], r)
    ensures exists k :: j <= k < i && Releases(ws[k], acts[k])
  {
    hide Next, ActOk, PendingOk, Releases, BaseMatches, BlocksOk;
    PendingUntilReleased(ws, acts, j, i);
  }

  /** A stranded commit is never released: no run from there accepts or finishes another. */
  lemma {:induction false} StuckAfterRestart(ws: seq<World>, acts: seq<Act>, j: nat, i: nat)
    requires IsRun(ws, acts) && j <= i <= |acts| && Stranded(ws[j])
    ensures ws[i].pending == ws[j].pending && Stranded(ws[i])
    ensures ws[i].heads == ws[j].heads && ws[i].commits == ws[j].commits && ws[i].accepted == ws[j].accepted
  {
    hide Next, ActOk;
    if j < i {
      StuckAfterRestart(ws, acts, j, i - 1);
      StuckStep(ws[i - 1], acts[i - 1]);
    }
  }

  lemma StuckStep(w: World, a: Act)
    requires ActOk(w, a) && Stranded(w)
    ensures var v := Next(w, a);
      v.pending == w.pending && v.worker.None? && v.heads == w.heads && v.commits == w.commits && v.accepted == w.accepted
  {
    hide Step, Booted, PersistedAll, BaseMatches, BlocksOk, Outcome, ActOk;
  }

  /** A failed commit ends with the active sets its snapshot took, and is marked failed. */
  lemma FailedCommitRestores(w: World, order: seq<string>, f: Faults, g: Finish)
    requires w.worker.Some? && w.worker.value in w.commits && g.load && g.commit && f.restore
    requires !Outcome(w.node, w.commits[w.worker.value], order, f).ok
    ensures var v := Apply(w, order, f, g);
      && v.node.active == w.commits[w.worker.value].prev
      && v.commits == w.commits[w.worker.value := w.commits[w.worker.value].(status := Failed)]
      && v.heads == w.heads && v.accepted == w.accepted
  {
    hide CommitActivated, Rebuilt;
  }

  /** What an accepted post leaves: the commit with its snapshot, its worker, and the heads of its blocks. */
  lemma AcceptedCommit(w: World, r: Request)
    requires RequestOk(r) && Post(w, r).ok
    ensures var v := Post(w, r).world;
      && w.pending == "" && v.pending == r.id && v.worker == Some(r.id) && v.recent != [] && v.recent[0] == r.id
      && BlocksOk(r.blocks) && v.commits == w.commits[r.id := Commit(Accepted, BodiesOf(r.blocks), v.node.active)]
      && (forall k :: k in r.blocks ==> (k in v.heads <==> !r.blocks[k].body.value.deleted))
      && (forall k :: k in r.blocks && k in v.heads ==> v.heads[k] == Digest(r.blocks[k].body.value))
      && (forall k :: k !in r.blocks ==> (k in v.heads <==> k in w.heads) && (k in v.heads ==> v.heads[k] == w.heads[k]))
  {
    hide PersistedAll, BaseMatches, BlocksOk;
    BodiesKeys(r.blocks);
  }

  lemma SnapshotStep(w: World, a: Act, id: string)
    requires ActOk(w, a) && id in w.commits
    ensures id in Next(w, a).commits && Next(w, a).commits[id].prev == w.commits[id].prev
  {
    hide Step, Booted, PersistedAll, BaseMatches, BlocksOk, BodiesOf, Outcome, Prepended, Updated;
  }

  lemma {:induction false} SnapshotStays(ws: seq<World>, acts: seq<Act>, j: nat, i: nat, id: string)
    requires IsRun(ws, acts) && j <= i <= |acts| && id in ws[j].commits
    ensures id in ws[i].commits && ws[i].commits[id].prev == ws[j].commits[id].prev
  {
    hide Next, ActOk;
    if j < i {
      SnapshotStays(ws, acts, j, i - 1, id);
      SnapshotStep(ws[i - 1], acts[i - 1], id);
    }
  }

  /**
   * Whatever happened in between, a commit that fails puts back the active sets there
   * were when it was accepted.
   */
  lemma FailureGoesBackToAcceptance(ws: seq<World>, acts: seq<Act>, j: nat, i: nat)
    requires IsRun(ws, acts) && j < i < |acts|
    requires acts[j].Submit? && Post(ws[j], acts[j].request).ok
    requires acts[i].Finished? && ws[i].worker == Some(acts[j].request.id)
    requires acts[i].g.load && acts[i].g.commit && acts[i].f.restore
    requires acts[j].request.id in ws[i].commits ==>
      !Outcome(ws[i].node, ws[i].commits[acts[j].request.id], acts[i].order, acts[i].f).ok
    ensures ws[i + 1].node.active == ws[j + 1].node.active
  {
    hide Outcome, Post;
    AcceptedCommit(ws[j], acts[j].request);
    SnapshotStays(ws, acts, j + 1, i, acts[j].request.id);
    FailedCommitRestores(ws[i], acts[i].order, acts[i].f, acts[i].g);
  }

  /** An application that gets through has activated and deactivated what its blocks name, and nothing else. */
  lemma AppliedCommit(n: Node, c: Commit, order: seq<string>, f: Faults)
    requires Persists(f) && Owned(n) && Outcome(n, c, order, f).ok
    requires forall x :: x in Wanted(c.blocks, false) ==> x in order
    requires forall x :: x in order ==> x in Wanted(c.blocks, false)
    ensures var v := Outcome(n, c, order, f).node;
      && (Wanted(c.blocks, false) != {} ==> v.mode == Controlplane)
      && forall x :: x in v.active <==>
           (x in Wanted(c.blocks, false) || (x in n.active && x !in Wanted(c.blocks, true))) && (v.mode == Controlplane ==> x in n.sets)
  {
    hide Wanted, Dropped, Added, Kept;
    var on := Wanted(c.blocks, false);
    if on == {} {
      NoElements(order);
    } else {
      var x :| x in on;
      assert x in order;
    }
  }

  // ---- lost updates ----

  /** Of two posts that expect the same hash of a block and rewrite it, the second is refused. */
  lemma BasePreventsLostUpdate(w: World, r1: Request, r2: Request, k: Key)
    requires RequestOk(r1) && RequestOk(r2)
    requires r1.base.Some? && k in r1.base.value.blocks && r2.base.Some? && k in r2.base.value.blocks
    requires r1.base.value.blocks[k] == r2.base.value.blocks[k]
    requires Post(w, r1).ok && k in r1.blocks
    requires r1.blocks[k].body.value.deleted || r1.base.value.blocks[k] != Some(Digest(r1.blocks[k].body.value))
    requires r1.blocks[k].body.value.deleted ==> r1.base.value.blocks[k].Some?
    ensures forall v: World :: v.heads == Post(w, r1).world.heads ==> !Admitted(v, r2)
  {
    hide PersistedAll, Prepended;
    BodiesKeys(r1.blocks);
  }
}
