/** The commit handlers, write by write, against the functions of Commits. */
module CommitService {
  import opened Basics
  import opened Ownership
  import opened OwnershipService
  import opened Commits

  method PrependRecent(recent: seq<string>, id: string, max: nat) returns (out: seq<string>)
    requires max >= 2
    ensures out == Prepended(recent, id, max)
  {
    out := [id];
    assert recent[..|recent|] == recent;
    for i := 0 to |recent|
      invariant out == [id] + Without(recent[..i], id) && |out| < max
    {
      assert recent[..i + 1][..i] == recent[..i];
      if recent[i] != id {
        out := out + [recent[i]];
        if |out| >= max {
          WithoutPrefix(recent, i + 1, id);
          return;
        }
      }
    }
  }

  lemma {:induction false} WithoutPrefix(ss: seq<string>, n: nat, x: string)
    requires n <= |ss|
    ensures |Without(ss[..n], x)| <= |Without(ss, x)|
    ensures Without(ss[..n], x) == Without(ss, x)[..|Without(ss[..n], x)|]
  {
    if n < |ss| {
      assert ss[..|ss| - 1][..n] == ss[..n];
      WithoutPrefix(ss[..|ss| - 1], n, x);
    } else {
      assert ss[..n] == ss;
    }
  }

  method MatchesBase(w: World, base: Base) returns (ok: bool)
    ensures ok == BaseMatches(w, base)
  {
    hide EffectiveSha;
    var sha := EffectiveSha(w);
    if base.sha != "" && sha != "" && base.sha != sha { return false; }
    var rest := base.blocks.Keys;
    while rest != {}
      invariant rest <= base.blocks.Keys
      invariant forall k :: k in base.blocks && k !in rest ==>
        if base.blocks[k].None? then k !in w.heads else k in w.heads && w.heads[k] == base.blocks[k].value
      decreases |rest|
    {
      var k :| k in rest;
      if base.blocks[k].None? {
        if k in w.heads { return false; }
      } else if k !in w.heads || w.heads[k] != base.blocks[k].value {
        return false;
      }
      rest := rest - {k};
    }
    return true;
  }

  method UpdateHeads(heads: Heads, blocks: Bodies) returns (h: Heads)
    ensures h == Updated(heads, blocks)
  {
    h := heads;
    var rest := blocks.Keys;
    while rest != {}
      invariant rest <= blocks.Keys
      invariant forall k :: k in rest || k !in blocks ==> (k in h <==> k in heads) && (k in h ==> h[k] == heads[k])
      invariant forall k :: k in blocks && k !in rest ==> (k in h <==> !blocks[k].deleted) && (k in h ==> h[k] == Digest(blocks[k]))
      decreases |rest|
    {
      var k :| k in rest;
      if blocks[k].deleted {
        h := h - {k};
      } else {
        h := h[k := Digest(blocks[k])];
      }
      rest := rest - {k};
    }
  }

  ghost function WantedIn(blocks: Bodies, keys: set<Key>, deleted: bool): set<string> {
    set k | k in keys && k in blocks && blocks[k].deleted == deleted && ActiveName(k, blocks[k]).Some? :: ActiveName(k, blocks[k]).value
  }

  /** The names a commit activates and deactivates. */
  method NamesOf(blocks: Bodies) returns (on: set<string>, off: set<string>)
    ensures on == Wanted(blocks, false) && off == Wanted(blocks, true)
  {
    hide ActiveName;
    on, off := {}, {};
    var rest := blocks.Keys;
    while rest != {}
      invariant rest <= blocks.Keys
      invariant on == WantedIn(blocks, blocks.Keys - rest, false)
      invariant off == WantedIn(blocks, blocks.Keys - rest, true)
      decreases |rest|
    {
      var k :| k in rest;
      var name := ActiveName(k, blocks[k]);
      if name.Some? {
        if blocks[k].deleted {
          off := off + {name.value};
        } else {
          on := on + {name.value};
        }
      }
      rest := rest - {k};
    }
  }

  /** The next active sets: those not deactivated, then the new ones in the order walked. */
  method NextActive(active: seq<string>, off: set<string>, order: seq<string>) returns (next: seq<string>)
    ensures next == Added(Dropped(active, off), order)
  {
    next := [];
    for i := 0 to |active|
      invariant next == Dropped(active[..i], off)
    {
      assert active[..i + 1][..i] == active[..i];
      if active[i] !in off {
        next := next + [active[i]];
      }
    }
    assert active[..|active|] == active;
    ghost var kept := next;
    for i := 0 to |order|
      invariant next == Added(kept, order[..i])
    {
      assert order[..i + 1][..i] == order[..i];
      var found := Contains(next, order[i]);
      if !found {
        next := next + [order[i]];
      }
    }
    assert order[..|order|] == order;
  }

  /** activateCommitSets on the control plane's state. */
  method ActivateCommitSets(s: Service, blocks: Bodies, order: seq<string>, f: Faults) returns (ok: bool)
    requires s.Valid()
    modifies s
    ensures s.Valid() && Result(s.Value(), ok) == CommitActivated(old(s.Value()), blocks, order, f)
  {
    hide Wanted, Dropped, Added, Claimed;
    var on, off := NamesOf(blocks);
    if on == {} && off == {} { return true; }
    if on != {} {
      var claimed := s.Claim(Controlplane, f.claim, f.clear);
      if !claimed {
        RefusedClaim(old(s.Value()), Controlplane, f);
        return false;
      }
    }
    if !f.load { return false; }
    var next := NextActive(s.active, off, order);
    if !f.save { return false; }
    s.active := next;
    if |next| == 0 && !s.hub {
      var claimed := s.Claim(Idle, f.release, f.clear);
    }
    return true;
  }

  /** The part of runCommitApply that works on the active sets. */
  method ApplyCommit(s: Service, c: Commit, order: seq<string>, f: Faults) returns (ok: bool)
    requires s.Valid()
    modifies s
    ensures s.Valid() && Result(s.Value(), ok) == Outcome(old(s.Value()), c, order, f)
  {
    hide CommitActivated, Rebuilt;
    var prev := c.prev;
    ok := ActivateCommitSets(s, c.blocks, order, f);
    if ok {
      ok := s.Rebuild(f);
    }
    if !ok && f.restore {
      s.active := prev;
    }
  }

  /** persistCommitBlock on the control plane's state. */
  method PersistBlock(s: Service, k: Key, body: Body, f: Faults) returns (ok: bool)
    requires s.Valid()
    modifies s
    ensures s.Valid() && Result(s.Value(), ok) == Persisted(old(s.Value()), k, body, f)
  {
    hide StoredName, Without, Claimed;
    if !f.load { return false; }
    match k
    case Hub =>
      var enabled := if body.enabled.Some? then body.enabled.value else s.hub;
      if enabled {
        var claimed := s.Claim(Controlplane, f.claim, f.clear);
        if !claimed {
          RefusedClaim(old(s.Value()), Controlplane, f);
          return false;
        }
      }
      if !f.save { return false; }
      s.hub := enabled;
      return true;
    case Other(_) =>
      return f.save;
    case _ =>
      var name := StoredName(k, body);
      if name.None? || !f.save { return false; }
      var others := RemoveStr(s.sets, name.value);
      s.sets := if body.deleted then others else others + [name.value];
      return true;
  }

  method PersistBlocks(s: Service, order: seq<Key>, blocks: Bodies, fs: seq<Faults>) returns (ok: bool)
    requires s.Valid() && |fs| == |order| && forall i :: 0 <= i < |order| ==> order[i] in blocks
    modifies s
    ensures s.Valid() && Result(s.Value(), ok) == PersistedAll(old(s.Value()), order, blocks, fs)
  {
    hide Persisted;
    assert order[0..] == order && fs[0..] == fs;
    for i := 0 to |order|
      invariant s.Valid()
      invariant PersistedAll(s.Value(), order[i..], blocks, fs[i..]) == PersistedAll(old(s.Value()), order, blocks, fs)
    {
      assert order[i..][1..] == order[i + 1..] && fs[i..][1..] == fs[i + 1..];
      var done := PersistBlock(s, order[i], blocks[order[i]], fs[i]);
      if !done { return false; }
    }
    return true;
  }

  /** The commit files beside the control plane's state. */
  class Log {
    const service: Service
    var heads: Heads
    var headSha: string
    var lastSha: string
    var commits: map<string, Commit>
    ghost var accepted: seq<Bodies>
    var pending: string
    var recent: seq<string>
    var worker: Option<string>

    constructor (s: Service)
      ensures service == s && heads == map[] && commits == map[] && accepted == [] && pending == "" && recent == [] && worker == None
    {
      service := s;
      heads, headSha, lastSha := map[], "", "";
      commits, accepted, pending, recent, worker := map[], [], "", [], None;
    }

    ghost predicate Valid()
      reads this, service
    {
      service.Valid()
    }

    ghost function Value(): World
      reads this, service
    {
      World(service.Value(), heads, headSha, lastSha, commits, accepted, pending, recent, worker)
    }

    /** handleCommitsPost */
    method Submit(r: Request) returns (ok: bool)
      requires Valid() && RequestOk(r)
      modifies this, service
      ensures Valid() && Posted(Value(), ok) == Post(old(Value()), r)
    {
      hide PersistedAll, BaseMatches, BlocksOk, BodiesOf, Recorded;
      if |r.blocks| == 0 || pending != "" { return false; }
      if r.base.Some? {
        var matches := BaseHolds(r.base.value);
        if !matches { return false; }
      }
      if !BlocksOk(r.blocks) { return false; }
      var blocks := BodiesOf(r.blocks);
      BodiesKeys(r.blocks);
      var stored := PersistBlocks(service, r.order, blocks, r.fs);
      if !stored { return false; }
      ok := Record(r, blocks);
    }

    /** The saves at the end of a post. */
    method Record(r: Request, blocks: Bodies) returns (ok: bool)
      requires Valid()
      modifies this
      ensures Valid() && Posted(Value(), ok) == Recorded(old(Value()), r, blocks)
    {
      hide Updated, Prepended;
      if !r.saves.heads { return false; }
      heads := UpdateHeads(heads, blocks);
      if headSha == "" { headSha := lastSha; }
      if !r.saves.commit { return false; }
      commits := commits[r.id := Commit(Accepted, blocks, service.active)];
      accepted := accepted + [blocks];
      if !r.saves.meta { return false; }
      pending := r.id;
      recent := PrependRecent(recent, r.id, MAX_RECENT);
      worker := Some(r.id);
      return true;
    }

    method BaseHolds(base: Base) returns (ok: bool)
      requires Valid()
      ensures ok == BaseMatches(Value(), base)
    {
      hide BaseMatches, EffectiveSha;
      ghost var w := Value();
      var view := World(Node(service.mode, service.active, service.sets, service.hub), heads, headSha, lastSha, commits, [], pending, recent, worker);
      ok := MatchesBase(view, base);
      SameBase(w, view, base);
    }

    /** runCommitApply */
    method RunApply(order: seq<string>, f: Faults, g: Finish)
      requires Valid()
      modifies this, service
      ensures Valid() && Value() == Apply(old(Value()), order, f, g)
    {
      hide Outcome;
      if worker.None? { return; }
      var id := worker.value;
      worker := None;
      if !g.load || id !in commits { return; }
      var c := commits[id];
      if g.mark {
        commits := commits[id := c.(status := Applying)];
      }
      var ok := ApplyCommit(service, c, order, f);
      Close(id, c, ok, g);
    }

    /** The writes after the outcome is known. */
    method Close(id: string, c: Commit, ok: bool, g: Finish)
      requires id in commits && commits[id] == (if g.mark then c.(status := Applying) else c)
      modifies this`heads, this`headSha, this`lastSha, this`commits, this`pending
      ensures lastSha == if ok then g.sha else old(lastSha)
      ensures headSha == if ok && g.headsSave then g.sha else old(headSha)
      ensures heads == if ok && g.headsSave && !g.headsLoad then map[] else old(heads)
      ensures commits == old(commits)[id :=
        c.(status := if g.commit then (if ok then Applied else Failed) else if g.mark then Applying else c.status)]
      ensures pending == if g.meta && old(pending) == id then "" else old(pending)
    {
      if ok {
        lastSha := g.sha;
        if g.headsSave {
          if !g.headsLoad { heads := map[]; }
          headSha := lastSha;
        }
      }
      if g.commit {
        commits := commits[id := c.(status := if ok then Applied else Failed)];
      }
      assert commits == old(commits)[id := commits[id]];
      if g.meta && pending == id {
        pending := "";
      }
    }
  }

  lemma SameBase(w: World, v: World, base: Base)
    requires w.heads == v.heads && w.headSha == v.headSha && w.lastSha == v.lastSha
    ensures BaseMatches(w, base) == BaseMatches(v, base)
  {
  }
}
