/** The commit log: heads, the pending commit, and its later application (internal/controlplane/commits_http.go). */
module Commits {
  import opened Basics
  import opened Ownership
  import Text

  // ---- blocks ----

  /** What a block id addresses. */
  datatype Key = Demux | Preset(tag: string) | Hub | Other(id: string)

  /** A block's body: the fields that matter here, and the rest. */
  datatype Body = Body(name: string, deleted: bool, enabled: Option<bool>, rest: Document)

  /** The hash of a body; distinct bodies are taken to have distinct hashes. */
  datatype Digest = Digest(of: Body)

  /** A block as posted: its body may be missing, and it may name its own hash. */
  datatype Block = Block(body: Option<Body>, digest: Option<Digest>)

  type Bodies = map<Key, Body>
  type Heads = map<Key, Digest>

  /** What a poster expects: the built configuration (empty for any), and per block its hash or its absence. */
  datatype Base = Base(sha: string, blocks: map<Key, Option<Digest>>)

  datatype Status = Accepted | Applying | Applied | Failed

  predicate Terminal(s: Status) {
    s == Applied || s == Failed
  }

  datatype Commit = Commit(status: Status, blocks: Bodies, prev: seq<string>)

  // ---- the state ----

  /**
   * `accepted` is every commit ever stored, in order.  `worker` is the goroutine
   * that will apply the pending commit; it does not survive a restart.
   */
  datatype World = World(
    node: Node,
    heads: Heads,
    headSha: string,
    lastSha: string,
    commits: map<string, Commit>,
    accepted: seq<Bodies>,
    pending: string,
    recent: seq<string>,
    worker: Option<string>
  )

  // ---- heads ----

  function Updated(heads: Heads, blocks: Bodies): Heads {
    map k | k in heads.Keys + blocks.Keys && !(k in blocks && blocks[k].deleted) ::
      if k in blocks then Digest(blocks[k]) else heads[k]
  }

  /** The heads that result from a list of commits. */
  function Replay(log: seq<Bodies>): Heads {
    if log == [] then map[] else Updated(Replay(log[..|log| - 1]), log[|log| - 1])
  }

  function LastWord(log: seq<Bodies>, k: Key): Option<Body> {
    if log == [] then None
    else if k in log[|log| - 1] then Some(log[|log| - 1][k])
    else LastWord(log[..|log| - 1], k)
  }

  /** A block has a head exactly when the last commit that mentions it keeps it, and then that commit's hash. */
  lemma {:induction false} ReplayIsLastWord(log: seq<Bodies>, k: Key)
    ensures k in Replay(log) <==> LastWord(log, k).Some? && !LastWord(log, k).value.deleted
    ensures k in Replay(log) ==> Replay(log)[k] == Digest(LastWord(log, k).value)
  {
    if log != [] {
      ReplayIsLastWord(log[..|log| - 1], k);
    }
  }

  // ---- recent commits ----

  const MAX_RECENT := 32

  /** prependRecent: newest first, without repetition, at most `max`. */
  function Prepended(recent: seq<string>, id: string, max: nat): seq<string>
    requires max >= 2
  {
    var others := Without(recent, id);
    [id] + (if |others| < max - 1 then others else others[..max - 1])
  }

  ghost predicate Distinct(ids: seq<string>) {
    forall i, j :: 0 <= i < j < |ids| ==> ids[i] != ids[j]
  }

  lemma {:induction false} WithoutDistinct(ids: seq<string>, x: string)
    requires Distinct(ids)
    ensures Distinct(Without(ids, x))
  {
    if ids != [] {
      var init := ids[..|ids| - 1];
      WithoutDistinct(init, x);
      forall i | 0 <= i < |Without(init, x)| ensures Without(init, x)[i] != ids[|ids| - 1] {
        assert Without(init, x)[i] in init;
      }
    }
  }

  lemma PrependedOk(recent: seq<string>, id: string, max: nat)
    requires max >= 2 && Distinct(recent)
    ensures var r := Prepended(recent, id, max);
      r[0] == id && Distinct(r) && |r| <= max && forall x :: x in r ==> x == id || x in recent
  {
    WithoutDistinct(recent, id);
    hide Without;
    var others := Without(recent, id);
    forall i | 0 <= i < |others| ensures others[i] != id {
      assert others[i] in others;
    }
  }

  // ---- posting ----

  function NameOr(body: Body, fallback: string): string {
    if Text.Trim(body.name) != "" then Text.Trim(body.name) else fallback
  }

  /** The name of the set a block stores; a preset's tag is trimmed here. */
  function StoredName(k: Key, body: Body): Option<string> {
    match k
    case Demux => Some(NameOr(body, "cp-client"))
    case Preset(tag) => if Text.Trim(tag) == "" then None else Some(NameOr(body, Text.Trim(tag)))
    case _ => None
  }

  /** persistCommitBlock: `f.load` covers everything that may refuse the block before it is written. */
  function Persisted(n: Node, k: Key, body: Body, f: Faults): Result {
    if !f.load then Result(n, false)
    else if k.Demux? || k.Preset? then
      var name := StoredName(k, body);
      if name.None? || !f.save then Result(n, false)
      else
        var others := Without(n.sets, name.value);
        Result(n.(sets := if body.deleted then others else others + [name.value]), true)
    else if k.Hub? then
      var enabled := if body.enabled.Some? then body.enabled.value else n.hub;
      if enabled && !ClaimOk(n, Controlplane, f.claim) then Result(n, false)
      else
        var c := if enabled then Claimed(n, Controlplane, f.claim, f.clear) else n;
        if !f.save then Result(c, false) else Result(c.(hub := enabled), true)
    else Result(n, f.save)
  }

  /** The blocks in the order the map is walked, up to the first that is refused. */
  function PersistedAll(n: Node, order: seq<Key>, blocks: Bodies, fs: seq<Faults>): Result
    requires |fs| == |order| && forall i :: 0 <= i < |order| ==> order[i] in blocks
    decreases |order|
  {
    if order == [] then Result(n, true)
    else
      var first := Persisted(n, order[0], blocks[order[0]], fs[0]);
      if first.ok then PersistedAll(first.node, order[1..], blocks, fs[1..]) else first
  }

  function EffectiveSha(w: World): string {
    if w.headSha == "" then w.lastSha else w.headSha
  }

  predicate BaseMatches(w: World, base: Base) {
    && (base.sha == "" || EffectiveSha(w) == "" || base.sha == EffectiveSha(w))
    && forall k :: k in base.blocks ==>
         if base.blocks[k].None? then k !in w.heads else k in w.heads && w.heads[k] == base.blocks[k].value
  }

  predicate BlocksOk(blocks: map<Key, Block>) {
    forall k :: k in blocks ==>
      blocks[k].body.Some? && (blocks[k].digest.Some? ==> blocks[k].digest.value == Digest(blocks[k].body.value))
  }

  function BodiesOf(blocks: map<Key, Block>): Bodies
    requires BlocksOk(blocks)
  {
    map k | k in blocks :: blocks[k].body.value
  }

  lemma BodiesKeys(blocks: map<Key, Block>)
    requires BlocksOk(blocks)
    ensures BodiesOf(blocks).Keys == blocks.Keys
  {
  }

  /** The saves at the end of a post. */
  datatype Saves = Saves(heads: bool, commit: bool, meta: bool)

  datatype Request = Request(id: string, blocks: map<Key, Block>, base: Option<Base>, order: seq<Key>, fs: seq<Faults>, saves: Saves)

  predicate RequestOk(r: Request) {
    |r.fs| == |r.order| && (forall k :: k in r.order ==> k in r.blocks) && (forall k :: k in r.blocks ==> k in r.order)
  }

  /** The checks that come before anything is written. */
  predicate Admitted(w: World, r: Request) {
    |r.blocks| > 0 && w.pending == "" && (r.base.Some? ==> BaseMatches(w, r.base.value)) && BlocksOk(r.blocks)
  }

  datatype Posted = Posted(world: World, ok: bool)

  /** The saves at the end of a post, once its blocks are stored. */
  function Recorded(w: World, r: Request, blocks: Bodies): Posted {
    if !r.saves.heads then Posted(w, false)
    else
      var w2 := w.(heads := Updated(w.heads, blocks), headSha := EffectiveSha(w));
      if !r.saves.commit then Posted(w2, false)
      else
        var w3 := w2.(commits := w.commits[r.id := Commit(Accepted, blocks, w.node.active)], accepted := w.accepted + [blocks]);
        if !r.saves.meta then Posted(w3, false)
        else Posted(w3.(pending := r.id, recent := Prepended(w.recent, r.id, MAX_RECENT), worker := Some(r.id)), true)
  }

  function Post(w: World, r: Request): Posted
    requires RequestOk(r)
  {
    if !Admitted(w, r) then Posted(w, false)
    else
      var blocks := BodiesOf(r.blocks);
      var stored := PersistedAll(w.node, r.order, blocks, r.fs);
      var w1 := w.(node := stored.node);
      if stored.ok then Recorded(w1, r, blocks) else Posted(w1, false)
  }

  // ---- applying ----

  /** The set a block activates; a preset's tag is not trimmed here. */
  function ActiveName(k: Key, body: Body): Option<string> {
    match k
    case Demux => Some(NameOr(body, "cp-client"))
    case Preset(tag) => Some(NameOr(body, tag))
    case _ => None
  }

  function Wanted(blocks: Bodies, deleted: bool): set<string> {
    set k | k in blocks && blocks[k].deleted == deleted && ActiveName(k, blocks[k]).Some? :: ActiveName(k, blocks[k]).value
  }

  function Dropped(active: seq<string>, gone: set<string>): (r: seq<string>)
    ensures forall x :: x in r <==> x in active && x !in gone
  {
    if active == [] then []
    else
      var rest := Dropped(active[..|active| - 1], gone);
      if active[|active| - 1] in gone then rest else rest + [active[|active| - 1]]
  }

  function Added(active: seq<string>, names: seq<string>): (r: seq<string>)
    ensures forall x :: x in r <==> x in active || x in names
    ensures names == [] ==> r == active
  {
    if names == [] then active
    else
      var some := Added(active, names[..|names| - 1]);
      if names[|names| - 1] in some then some else some + [names[|names| - 1]]
  }

  /** activateCommitSets; `order` is the walk over the names to activate. */
  function CommitActivated(n: Node, blocks: Bodies, order: seq<string>, f: Faults): Result {
    var on, off := Wanted(blocks, false), Wanted(blocks, true);
    if on == {} && off == {} then Result(n, true)
    else if on != {} && !ClaimOk(n, Controlplane, f.claim) then Result(n, false)
    else
      var c := if on != {} then Claimed(n, Controlplane, f.claim, f.clear) else n;
      if !f.load || !f.save then Result(c, false)
      else
        var m := c.(active := Added(Dropped(c.active, off), order));
        Result(if m.active == [] && !m.hub then Claimed(m, Idle, f.release, f.clear) else m, true)
  }

  /** Which reads and writes of an application succeed: `mark` is the first save of the commit, `commit` the last. */
  datatype Finish = Finish(load: bool, mark: bool, headsLoad: bool, headsSave: bool, commit: bool, meta: bool, sha: string)

  function Outcome(n: Node, c: Commit, order: seq<string>, f: Faults): Result {
    var a := CommitActivated(n, c.blocks, order, f);
    var b := if a.ok then Rebuilt(a.node, f) else a;
    if b.ok then b else Result(Restored(b.node, c.prev, f.restore), false)
  }

  /** runCommitApply for the commit of the worker. */
  function Apply(w: World, order: seq<string>, f: Faults, g: Finish): World {
    if w.worker.None? then w
    else
      var id := w.worker.value;
      var idle := w.(worker := None);
      if !g.load || id !in w.commits then idle
      else
        var c := w.commits[id];
        var done := Outcome(w.node, c, order, f);
        var status := if done.ok then Applied else Failed;
        var kept := c.(status := if g.commit then status else if g.mark then Applying else c.status);
        var noted :=
          if !done.ok || !g.headsSave then idle
          else if g.headsLoad then idle.(headSha := g.sha)
          else idle.(heads := map[], headSha := g.sha);
        noted.(
          node := done.node,
          lastSha := if done.ok then g.sha else w.lastSha,
          commits := w.commits[id := kept],
          pending := if g.meta && w.pending == id then "" else w.pending)
  }

  predicate OrderOk(w: World, order: seq<string>) {
    w.worker.Some? && w.worker.value in w.commits ==>
      var on := Wanted(w.commits[w.worker.value].blocks, false);
      (forall x :: x in order ==> x in on) && (forall x :: x in on ==> x in order)
  }

  // ---- runs ----

  datatype Act =
    | Own(op: Op, sha: string)
    | Submit(request: Request)
    | Finished(order: seq<string>, f: Faults, g: Finish)
    | Restart(f: Faults)

  predicate ActOk(w: World, a: Act) {
    match a
    case Own(op, _) => WellFormed(op) && !op.Boot?
    case Submit(r) => RequestOk(r) && r.id != "" && r.id !in w.commits
    case Finished(order, _, _) => OrderOk(w, order)
    case Restart(_) => true
  }

  function Next(w: World, a: Act): World
    requires ActOk(w, a)
  {
    match a
    case Own(op, sha) => w.(node := Step(w.node, op), lastSha := sha)
    case Submit(r) => Post(w, r).world
    case Finished(order, f, g) => Apply(w, order, f, g)
    case Restart(f) => w.(node := Booted(w.node, f), worker := None)
  }

  /** A run: every act in the world the ones before it left. */
  ghost predicate IsRun(ws: seq<World>, acts: seq<Act>) {
    |ws| == |acts| + 1 && forall i :: 0 <= i < |acts| ==> ActOk(ws[i], acts[i]) && ws[i + 1] == Next(ws[i], acts[i])
  }
}
