/**
 * What a post and an application of a commit answer and leave behind, whichever of
 * their writes fail, in terms of the blocks posted and of the world they met.
 */
module CommitOutcomes {
  import opened Basics
  import opened Ownership
  import opened Commits
  import Text

  // ---- lists keep their order ----

  lemma {:induction false} DroppedConcat(a: seq<string>, b: seq<string>, gone: set<string>)
    ensures Dropped(a + b, gone) == Dropped(a, gone) + Dropped(b, gone)
  {
    if b == [] {
      assert a + b == a;
    } else {
      var init := b[..|b| - 1];
      DroppedConcat(a, init, gone);
      assert (a + b)[..|a + b| - 1] == a + init;
    }
  }

  lemma {:induction false} AddedConcat(active: seq<string>, a: seq<string>, b: seq<string>)
    ensures Added(active, a + b) == Added(Added(active, a), b)
    ensures active <= Added(active, b)
  {
    if b == [] {
      assert a + b == a;
    } else {
      var init := b[..|b| - 1];
      AddedConcat(active, a, init);
      assert (a + b)[..|a + b| - 1] == a + init;
    }
  }

  lemma {:induction false} WithoutSame(ss: seq<string>, x: string)
    requires x !in ss
    ensures Without(ss, x) == ss
  {
    if ss != [] {
      WithoutSame(ss[..|ss| - 1], x);
      assert ss == ss[..|ss| - 1] + [ss[|ss| - 1]];
    }
  }

  /** A new commit comes first and the earlier ones follow in their order, the oldest beyond the limit dropped. */
  lemma RecentInOrder(recent: seq<string>, id: string, max: nat)
    requires max >= 2 && id !in recent
    ensures Prepended(recent, id, max) == [id] + if |recent| < max - 1 then recent else recent[..max - 1]
  {
    WithoutSame(recent, id);
    hide Without;
  }

  // ---- storing the blocks ----

  /** The block stores (or takes away) the set of this name. */
  predicate Stores(k: Key, body: Body, x: string) {
    match k
    case Demux => x == if Text.Trim(body.name) != "" then Text.Trim(body.name) else "cp-client"
    case Preset(tag) => x == if Text.Trim(body.name) != "" then Text.Trim(body.name) else Text.Trim(tag)
    case _ => false
  }

  /** A set block that is stored: its name is in the stored sets exactly when it is live, and nothing else changes. */
  lemma SetBlockStored(n: Node, k: Key, body: Body, f: Faults, name: string)
    requires Stores(k, body, name)
    ensures var r := Persisted(n, k, body, f);
      && (r.ok <==> f.load && f.save && (k.Preset? ==> Text.Trim(k.tag) != ""))
      && (!r.ok ==> r.node == n)
      && r.node.mode == n.mode && r.node.active == n.active && r.node.hub == n.hub
      && (r.ok ==> (name in r.node.sets <==> !body.deleted))
      && (forall x :: x != name ==> (x in r.node.sets <==> x in n.sets))
      && (r.ok && !body.deleted ==> r.node.sets[|r.node.sets| - 1] == name)
  {
    hide Without;
  }

  /** A hub block sets the switch, or keeps it when it names none; a hub that is on belongs to the control plane. */
  lemma HubBlockStored(n: Node, body: Body, f: Faults)
    ensures var r := Persisted(n, Hub, body, f);
      var wanted := if body.enabled.Some? then body.enabled.value else n.hub;
      && (r.ok <==> f.load && f.save && (wanted && !n.mode.Controlplane? ==> f.claim))
      && r.node.hub == (if r.ok then wanted else n.hub)
      && r.node.mode == (if f.load && wanted && f.claim then Controlplane else n.mode)
      && r.node.sets == n.sets && r.node.active == n.active
  {
  }

  lemma OtherBlockStored(n: Node, k: Key, body: Body, f: Faults)
    requires k.Other?
    ensures Persisted(n, k, body, f) == Result(n, f.load && f.save)
  {
  }

  /** The i-th block of the walk can be stored. */
  predicate Storable(n: Node, order: seq<Key>, blocks: Bodies, fs: seq<Faults>, i: nat)
    requires i < |order| == |fs| && order[i] in blocks
  {
    var body := blocks[order[i]];
    && fs[i].load && fs[i].save
    && (order[i].Preset? ==> Text.Trim(order[i].tag) != "")
    && (order[i].Hub? && (if body.enabled.Some? then body.enabled.value else n.hub) && !n.mode.Controlplane? && Hub !in order[..i] ==>
          fs[i].claim)
  }

  /** Whether the hub is on once the blocks are stored. */
  predicate HubAfter(n: Node, order: seq<Key>, blocks: Bodies)
    requires forall i :: 0 <= i < |order| ==> order[i] in blocks
  {
    if Hub in order && blocks[Hub].enabled.Some? then blocks[Hub].enabled.value else n.hub
  }

  lemma SomeName(k: Key, body: Body) returns (name: string)
    requires k.Demux? || k.Preset?
    ensures Stores(k, body, name)
  {
    name := if Text.Trim(body.name) != "" then Text.Trim(body.name) else if k.Demux? then "cp-client" else Text.Trim(k.tag);
  }

  /** What one block does to mode, hub and active sets, and to one name. */
  lemma BlockStored(n: Node, k: Key, body: Body, f: Faults, x: string)
    ensures var r := Persisted(n, k, body, f);
      var wanted := if body.enabled.Some? then body.enabled.value else n.hub;
      && r.node.active == n.active
      && (r.ok <==> f.load && f.save && (k.Preset? ==> Text.Trim(k.tag) != "") && (k.Hub? && wanted && !n.mode.Controlplane? ==> f.claim))
      && (r.ok ==> r.node.hub == if k.Hub? then wanted else n.hub)
      && (r.ok ==> r.node.mode == if k.Hub? && wanted then Controlplane else n.mode)
      && (r.ok ==> (x in r.node.sets <==> if Stores(k, body, x) then !body.deleted else x in n.sets))
  {
    hide Persisted, Stores;
    match k
    case Hub => HubBlockStored(n, body, f); NoSetStored(k, body, x);
    case Other(_) => OtherBlockStored(n, k, body, f); NoSetStored(k, body, x);
    case _ =>
      var name := SomeName(k, body);
      SetBlockStored(n, k, body, f, name);
      OneName(k, body, name, x);
  }

  lemma NoSetStored(k: Key, body: Body, x: string)
    requires k.Hub? || k.Other?
    ensures !Stores(k, body, x)
  {
  }

  lemma OneName(k: Key, body: Body, name: string, x: string)
    requires Stores(k, body, name)
    ensures Stores(k, body, x) <==> x == name
  {
  }

  lemma StorableLater(n: Node, one: Node, order: seq<Key>, blocks: Bodies, fs: seq<Faults>, i: nat)
    requires |fs| == |order| && 0 < i < |order| && forall j :: 0 <= j < |order| ==> order[j] in blocks
    requires one == Persisted(n, order[0], blocks[order[0]], fs[0]).node && Persisted(n, order[0], blocks[order[0]], fs[0]).ok
    ensures Storable(one, order[1..], blocks, fs[1..], i - 1) == Storable(n, order, blocks, fs, i)
  {
    BlockStored(n, order[0], blocks[order[0]], fs[0], "");
    hide Persisted;
    assert order[1..][i - 1] == order[i] && fs[1..][i - 1] == fs[i];
    assert order[..i] == [order[0]] + order[1..][..i - 1];
  }

  /** The blocks are all stored exactly when each can be. */
  lemma {:induction false} AllStored(n: Node, order: seq<Key>, blocks: Bodies, fs: seq<Faults>)
    requires |fs| == |order| && forall i :: 0 <= i < |order| ==> order[i] in blocks
    ensures PersistedAll(n, order, blocks, fs).ok <==> forall i: nat :: i < |order| ==> Storable(n, order, blocks, fs, i)
    decreases |order|
  {
    hide Persisted, Storable;
    if order != [] {
      var first := Persisted(n, order[0], blocks[order[0]], fs[0]);
      FirstStorable(n, order, blocks, fs);
      if first.ok {
        AllStored(first.node, order[1..], blocks, fs[1..]);
        forall i: nat | 0 < i < |order|
          ensures Storable(first.node, order[1..], blocks, fs[1..], i - 1) == Storable(n, order, blocks, fs, i)
        {
          StorableLater(n, first.node, order, blocks, fs, i);
        }
        if forall i: nat :: i < |order| ==> Storable(n, order, blocks, fs, i) {
          forall i: nat | i < |order| - 1 ensures Storable(first.node, order[1..], blocks, fs[1..], i) {
            assert Storable(n, order, blocks, fs, i + 1);
          }
        }
        if PersistedAll(first.node, order[1..], blocks, fs[1..]).ok {
          forall i: nat | i < |order| ensures Storable(n, order, blocks, fs, i) {
            if i > 0 { assert Storable(first.node, order[1..], blocks, fs[1..], i - 1); }
          }
        }
      }
    }
  }

  lemma FirstStorable(n: Node, order: seq<Key>, blocks: Bodies, fs: seq<Faults>)
    requires |fs| == |order| > 0 && forall i :: 0 <= i < |order| ==> order[i] in blocks
    ensures Persisted(n, order[0], blocks[order[0]], fs[0]).ok == Storable(n, order, blocks, fs, 0)
  {
    BlockStored(n, order[0], blocks[order[0]], fs[0], "");
    hide Persisted;
  }

  /** Once all are stored: owner, hub and active sets. */
  lemma {:induction false} StoredNode(n: Node, order: seq<Key>, blocks: Bodies, fs: seq<Faults>)
    requires |fs| == |order| && (forall i :: 0 <= i < |order| ==> order[i] in blocks) && PersistedAll(n, order, blocks, fs).ok
    ensures var v := PersistedAll(n, order, blocks, fs).node;
      && v.active == n.active && v.hub == HubAfter(n, order, blocks)
      && v.mode == if Hub in order && HubAfter(n, order, blocks) then Controlplane else n.mode
    decreases |order|
  {
    hide Persisted;
    if order != [] {
      var first := Persisted(n, order[0], blocks[order[0]], fs[0]);
      BlockStored(n, order[0], blocks[order[0]], fs[0], "");
      StoredNode(first.node, order[1..], blocks, fs[1..]);
      assert order == [order[0]] + order[1..];
    }
  }

  /** A name that no block stores is stored as before. */
  lemma {:induction false} NameUntouched(n: Node, order: seq<Key>, blocks: Bodies, fs: seq<Faults>, x: string)
    requires |fs| == |order| && (forall i :: 0 <= i < |order| ==> order[i] in blocks) && PersistedAll(n, order, blocks, fs).ok
    requires forall i :: 0 <= i < |order| ==> !Stores(order[i], blocks[order[i]], x)
    ensures x in PersistedAll(n, order, blocks, fs).node.sets <==> x in n.sets
    decreases |order|
  {
    hide Persisted, Stores;
    if order != [] {
      var first := Persisted(n, order[0], blocks[order[0]], fs[0]);
      BlockStored(n, order[0], blocks[order[0]], fs[0], x);
      NameUntouched(first.node, order[1..], blocks, fs[1..], x);
    }
  }

  /** The last block of the walk that stores a name decides whether it is stored. */
  lemma {:induction false} LastBlockDecides(n: Node, order: seq<Key>, blocks: Bodies, fs: seq<Faults>, x: string, i: nat)
    requires |fs| == |order| && (forall j :: 0 <= j < |order| ==> order[j] in blocks) && PersistedAll(n, order, blocks, fs).ok
    requires i < |order| && Stores(order[i], blocks[order[i]], x)
    requires forall j :: i < j < |order| ==> !Stores(order[j], blocks[order[j]], x)
    ensures x in PersistedAll(n, order, blocks, fs).node.sets <==> !blocks[order[i]].deleted
    decreases |order|
  {
    hide Persisted, Stores;
    var first := Persisted(n, order[0], blocks[order[0]], fs[0]);
    if i == 0 {
      BlockStored(n, order[0], blocks[order[0]], fs[0], x);
      NameUntouched(first.node, order[1..], blocks, fs[1..], x);
    } else {
      assert order[1..][i - 1] == order[i];
      LastBlockDecides(first.node, order[1..], blocks, fs[1..], x, i - 1);
    }
  }

  /** A walk that stops at its k-th block leaves the blocks before it stored and what that one did before it was refused. */
  lemma {:induction false} StoppedWalk(n: Node, order: seq<Key>, blocks: Bodies, fs: seq<Faults>, k: nat)
    requires |fs| == |order| && (forall i :: 0 <= i < |order| ==> order[i] in blocks) && k < |order|
    requires (forall i: nat :: i < k ==> Storable(n, order, blocks, fs, i)) && !Storable(n, order, blocks, fs, k)
    ensures PersistedAll(n, order[..k], blocks, fs[..k]).ok
    ensures PersistedAll(n, order, blocks, fs) ==
      Persisted(PersistedAll(n, order[..k], blocks, fs[..k]).node, order[k], blocks[order[k]], fs[k])
    ensures !PersistedAll(n, order, blocks, fs).ok
    decreases |order|
  {
    hide Persisted, Storable;
    FirstStorable(n, order, blocks, fs);
    if k > 0 {
      var first := Persisted(n, order[0], blocks[order[0]], fs[0]);
      assert order[..k][0] == order[0] && fs[..k][0] == fs[0];
      assert order[..k][1..] == order[1..][..k - 1] && fs[..k][1..] == fs[1..][..k - 1];
      forall i: nat | 0 < i <= k ensures Storable(first.node, order[1..], blocks, fs[1..], i - 1) == Storable(n, order, blocks, fs, i) {
        StorableLater(n, first.node, order, blocks, fs, i);
      }
      forall i: nat | i < k - 1 ensures Storable(first.node, order[1..], blocks, fs[1..], i) {
        assert Storable(n, order, blocks, fs, i + 1);
      }
      StoppedWalk(first.node, order[1..], blocks, fs[1..], k - 1);
    }
  }

  // ---- a post ----

  /** The built configuration a poster's expectation is compared with. */
  function Current(w: World): string {
    if w.headSha != "" then w.headSha else w.lastSha
  }

  /** A post is accepted exactly when nothing is pending, its expectations are met, its hashes are right, and every write works. */
  lemma PostAnswers(w: World, r: Request)
    requires RequestOk(r)
    ensures Post(w, r).ok <==>
      && r.blocks != map[] && w.pending == ""
      && (r.base.Some? ==> r.base.value.sha in ["", Current(w)] || Current(w) == "")
      && (r.base.Some? ==> forall k :: k in r.base.value.blocks ==>
            (k in w.heads <==> r.base.value.blocks[k].Some?) && (k in w.heads ==> r.base.value.blocks[k] == Some(w.heads[k])))
      && (forall k :: k in r.blocks ==>
            r.blocks[k].body.Some? && (r.blocks[k].digest.Some? ==> r.blocks[k].digest.value.of == r.blocks[k].body.value))
      && BlocksOk(r.blocks)
      && (forall i: nat :: i < |r.order| ==> Storable(w.node, r.order, BodiesOf(r.blocks), r.fs, i))
      && r.saves.heads && r.saves.commit && r.saves.meta
  {
    if r.base.Some? { BaseCompared(w, r); }
    hide PersistedAll, Storable, Updated, Prepended, BaseMatches;
    assert |r.blocks| > 0 <==> r.blocks != map[];
    if BlocksOk(r.blocks) {
      BodiesKeys(r.blocks);
      AllStored(w.node, r.order, BodiesOf(r.blocks), r.fs);
    }
  }

  lemma BaseCompared(w: World, r: Request)
    requires r.base.Some?
    ensures BaseMatches(w, r.base.value) <==>
      && (r.base.value.sha in ["", Current(w)] || Current(w) == "")
      && forall k :: k in r.base.value.blocks ==>
           (k in w.heads <==> r.base.value.blocks[k].Some?) && (k in w.heads ==> r.base.value.blocks[k] == Some(w.heads[k]))
  {
  }

  /** The i-th block that a post writes stores, or takes away, the set of this name. */
  predicate Writes(r: Request, i: nat, x: string)
    requires RequestOk(r) && i < |r.order|
  {
    r.blocks[r.order[i]].body.Some? && Stores(r.order[i], r.blocks[r.order[i]].body.value, x)
  }

  /** After an accepted post a name is stored exactly when the last of its blocks that writes the name is live, */
  lemma AcceptedPostStores(w: World, r: Request, x: string, i: nat)
    requires RequestOk(r) && Post(w, r).ok
    requires i < |r.order| && Writes(r, i, x) && forall j: nat :: i < j < |r.order| ==> !Writes(r, j, x)
    ensures x in Post(w, r).world.node.sets <==> !r.blocks[r.order[i]].body.value.deleted
  {
    hide PersistedAll, Stores, Updated, Prepended, BaseMatches;
    BodiesKeys(r.blocks);
    var blocks := BodiesOf(r.blocks);
    forall j: nat | i < j < |r.order| ensures !Stores(r.order[j], blocks[r.order[j]], x) {
      assert !Writes(r, j, x);
    }
    LastBlockDecides(w.node, r.order, blocks, r.fs, x, i);
  }

  /** and one that none of them writes as before. */
  lemma AcceptedPostKeeps(w: World, r: Request, x: string)
    requires RequestOk(r) && Post(w, r).ok && forall i: nat :: i < |r.order| ==> !Writes(r, i, x)
    ensures x in Post(w, r).world.node.sets <==> x in w.node.sets
  {
    hide PersistedAll, Stores, Updated, Prepended, BaseMatches;
    BodiesKeys(r.blocks);
    var blocks := BodiesOf(r.blocks);
    forall i | 0 <= i < |r.order| ensures !Stores(r.order[i], blocks[r.order[i]], x) {
      assert !Writes(r, i, x);
    }
    NameUntouched(w.node, r.order, blocks, r.fs, x);
  }

  /** The owner, the hub, the built configuration and the lists an accepted post leaves. */
  lemma AcceptedPostLeaves(w: World, r: Request)
    requires RequestOk(r) && Post(w, r).ok
    ensures BlocksOk(r.blocks)
    ensures var v := Post(w, r).world;
      var wanted := if Hub in r.blocks && r.blocks[Hub].body.value.enabled.Some? then r.blocks[Hub].body.value.enabled.value else w.node.hub;
      && v.node.hub == wanted && v.node.active == w.node.active
      && v.node.mode == (if Hub in r.blocks && wanted then Controlplane else w.node.mode)
      && v.headSha == Current(w) && v.lastSha == w.lastSha && v.accepted == w.accepted + [BodiesOf(r.blocks)]
      && (r.id !in w.recent ==> v.recent == [r.id] + if |w.recent| < 31 then w.recent else w.recent[..31])
  {
    hide PersistedAll, Updated, Prepended, BaseMatches;
    BodiesKeys(r.blocks);
    StoredNode(w.node, r.order, BodiesOf(r.blocks), r.fs);
    if r.id !in w.recent {
      RecentInOrder(w.recent, r.id, MAX_RECENT);
    }
  }

  /** A refused post changes nothing before the blocks are written, and then neither the pending commit nor the lists of it. */
  lemma RefusedPost(w: World, r: Request)
    requires RequestOk(r) && !Post(w, r).ok
    ensures var v := Post(w, r).world;
      && v.pending == w.pending && v.recent == w.recent && v.worker == w.worker && v.lastSha == w.lastSha
      && (!Admitted(w, r) ==> v == w)
      && (Admitted(w, r) ==> BlocksOk(r.blocks))
    ensures var v := Post(w, r).world;
      Admitted(w, r) ==>
        var stored := PersistedAll(w.node, r.order, BodiesOf(r.blocks), r.fs);
        && v.node == stored.node
        && (!stored.ok || !r.saves.heads ==> v.heads == w.heads && v.headSha == w.headSha)
        && (!stored.ok || !r.saves.heads || !r.saves.commit ==> v.commits == w.commits && v.accepted == w.accepted)
        && (stored.ok && r.saves.heads && r.saves.commit ==> v.commits.Keys == w.commits.Keys + {r.id})
  {
    hide PersistedAll, Updated, Prepended, BaseMatches;
  }

  // ---- an application ----

  /** The block switches the set of this name; a preset's tag is taken as it is. */
  predicate Switches(k: Key, body: Body, x: string) {
    match k
    case Demux => x == if Text.Trim(body.name) != "" then Text.Trim(body.name) else "cp-client"
    case Preset(tag) => x == if Text.Trim(body.name) != "" then Text.Trim(body.name) else tag
    case _ => false
  }

  lemma WantedNames(blocks: Bodies, deleted: bool, x: string)
    ensures x in Wanted(blocks, deleted) <==> exists k :: k in blocks && blocks[k].deleted == deleted && Switches(k, blocks[k], x)
  {
    hide Text.Trim;
    forall k | k in blocks ensures Switches(k, blocks[k], x) <==> ActiveName(k, blocks[k]) == Some(x) {
    }
  }

  /** The switching of the sets, whichever of its writes fail. */
  lemma SetsSwitched(n: Node, blocks: Bodies, order: seq<string>, f: Faults)
    requires forall x :: x in order <==> x in Wanted(blocks, false)
    ensures var r := CommitActivated(n, blocks, order, f);
      var on, off := Wanted(blocks, false), Wanted(blocks, true);
      var named := on != {} || off != {};
      && (r.ok <==> (named ==> f.load && f.save && (on != {} && !n.mode.Controlplane? ==> f.claim)))
      && r.node.sets == n.sets && r.node.hub == n.hub
      && (!r.ok || !named ==> r.node == n.(mode := if on != {} && f.claim then Controlplane else n.mode))
      && (r.ok && named ==> forall x :: x in r.node.active <==> x in on || (x in n.active && x !in off))
      && (r.ok && named && r.node.active == [] && !n.hub && f.release ==> r.node.mode == Idle)
      && (r.ok && named && !(r.node.active == [] && !n.hub && f.release) ==> r.node.mode == if on != {} then Controlplane else n.mode)
  {
    hide Wanted, Dropped, Added;
    if Wanted(blocks, false) == {} {
      NoElements(order);
    }
  }

  /** The whole outcome: after a refusal the snapshot, if it can be written, with the owner as it is by then. */
  lemma OutcomeAnswers(n: Node, c: Commit, order: seq<string>, f: Faults)
    ensures var a := CommitActivated(n, c.blocks, order, f);
      var r := Outcome(n, c, order, f);
      var rebuilt := a.ok && a.node.mode.Controlplane?;
      && (r.ok <==> a.ok && (a.node.mode.Controlplane? ==> f.remat))
      && r.node.mode == a.node.mode && r.node.sets == a.node.sets && r.node.hub == a.node.hub
      && (!r.ok && f.restore ==> r.node.active == c.prev)
      && (r.ok || !f.restore ==> forall x :: x in r.node.active <==>
            x in a.node.active && (x in a.node.sets || !(rebuilt && f.rescrub)))
  {
    hide CommitActivated, Kept;
  }

  /** What the worker leaves in the commit files. */
  lemma FinishedCommit(w: World, order: seq<string>, f: Faults, g: Finish)
    requires w.worker.Some? && w.worker.value in w.commits && g.load
    ensures var id := w.worker.value;
      var ok := Outcome(w.node, w.commits[id], order, f).ok;
      var v := Apply(w, order, f, g);
      && v.node == Outcome(w.node, w.commits[id], order, f).node
      && v.worker.None? && v.accepted == w.accepted && v.recent == w.recent
      && v.pending == (if g.meta && w.pending == id then "" else w.pending)
      && v.lastSha == (if ok then g.sha else w.lastSha) && v.headSha == (if ok && g.headsSave then g.sha else w.headSha)
      && v.heads == (if ok && g.headsSave && !g.headsLoad then map[] else w.heads)
      && v.commits.Keys == w.commits.Keys && (forall x :: x in w.commits && x != id ==> v.commits[x] == w.commits[x])
      && v.commits[id].blocks == w.commits[id].blocks && v.commits[id].prev == w.commits[id].prev
      && v.commits[id].status ==
           if g.commit then (if ok then Applied else Failed) else if g.mark then Applying else w.commits[id].status
  {
    hide Outcome;
  }

  // ---- what else happens between posts ----

  /** The other handlers and a restart leave the commit files alone; a restart reconciles the owner and loses the worker. */
  lemma OtherActs(w: World, a: Act)
    requires ActOk(w, a) && (a.Own? || a.Restart?)
    ensures var v := Next(w, a);
      && v.heads == w.heads && v.headSha == w.headSha && v.commits == w.commits && v.accepted == w.accepted
      && v.pending == w.pending && v.recent == w.recent
      && (a.Own? ==> v.node == Step(w.node, a.op) && v.lastSha == a.sha && v.worker == w.worker)
      && (a.Restart? ==> v.node == Booted(w.node, a.f) && v.lastSha == w.lastSha && v.worker.None?)
  {
    hide Step, Booted;
  }
}
