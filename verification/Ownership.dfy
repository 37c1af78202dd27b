/**
 * Who writes the configuration, and which sets the control plane has active
 * (internal/configowner/owner.go, internal/controlplane/service.go,
 * demux_groups_http.go, runtime_state.go and wg_http.go).
 */
module Ownership {

  datatype Mode = Idle | Subscribed | Direct | Controlplane

  /** `sets` are the names of the stored sets, `hub` is whether the WireGuard hub is enabled. */
  datatype Node = Node(mode: Mode, active: seq<string>, sets: seq<string>, hub: bool)

  /**
   * What holds of an operation: the binary supports the set (a demux set needs a build
   * tag), and which of its writes succeed: the owner file on a claim and on the
   * claim that undoes it (`release`), the clearing of the active sets on leaving
   * the control plane, loading and saving the state, putting it back, the two
   * scrubs, and the rebuild of the running configuration.
   */
  datatype Faults = Faults(
    build: bool, claim: bool, release: bool, clear: bool, load: bool, save: bool, restore: bool, scrub: bool, rescrub: bool, remat: bool
  )

  /** The set is supported and every write succeeds; the rebuild may still be refused. */
  predicate Persists(f: Faults) {
    f.build && f.claim && f.release && f.clear && f.load && f.save && f.restore && f.scrub && f.rescrub
  }

  datatype Result = Result(node: Node, ok: bool)

  // ---- lists of names ----

  /** The names of `active` that are stored. */
  function Kept(active: seq<string>, sets: seq<string>): (r: seq<string>)
    ensures forall x :: x in r <==> x in active && x in sets
  {
    if active == [] then []
    else
      var rest := Kept(active[..|active| - 1], sets);
      if active[|active| - 1] in sets then rest + [active[|active| - 1]] else rest
  }

  /** removeStr */
  function Without(ss: seq<string>, x: string): (r: seq<string>)
    ensures forall y :: y in r <==> y in ss && y != x
  {
    if ss == [] then []
    else
      var rest := Without(ss[..|ss| - 1], x);
      if ss[|ss| - 1] != x then rest + [ss[|ss| - 1]] else rest
  }

  // ---- claims ----

  /** Registry.Claim with the leave hooks: leaving the control plane clears the active sets. */
  function Claimed(n: Node, mode: Mode, persist: bool, clear: bool): Node {
    if n.mode == mode || !persist then n
    else n.(mode := mode, active := if n.mode == Controlplane && clear then [] else n.active)
  }

  predicate ClaimOk(n: Node, mode: Mode, persist: bool) {
    n.mode == mode || persist
  }

  function Scrubbed(n: Node, ok: bool): Node {
    if ok then n.(active := Kept(n.active, n.sets)) else n
  }

  /** rematerialize does nothing unless the control plane owns the configuration. */
  function Rebuilt(n: Node, f: Faults): Result {
    if n.mode != Controlplane then Result(n, true) else Result(Scrubbed(n, f.rescrub), f.remat)
  }

  /** rollbackFirstActivate */
  function Released(n: Node, wasOwner: bool, prev: seq<string>, f: Faults): Node {
    if wasOwner || prev != [] then n else Claimed(n, Idle, f.release, f.clear)
  }

  function Restored(n: Node, prev: seq<string>, ok: bool): Node {
    if ok then n.(active := prev) else n
  }

  // ---- activation and deactivation ----

  /** Activation from the loading of the (scrubbed) state on. */
  function Grown(c: Node, name: string, owner: bool, f: Faults, rebuild: bool): Result {
    if !f.load then Result(Released(c, owner, [], f), false)
    else if name !in c.active && !f.save then Result(Released(c, owner, c.active, f), false)
    else
      var grown := if name in c.active then c else c.(active := c.active + [name]);
      var built := Rebuilt(grown, f);
      if !rebuild then Result(grown, true)
      else if built.ok then built
      else Result(Released(Restored(built.node, c.active, f.restore), owner, c.active, f), false)
  }

  function Activated(n: Node, name: string, f: Faults, rebuild: bool): Result {
    if name !in n.sets || !f.build || !ClaimOk(n, Controlplane, f.claim) then Result(n, false)
    else Grown(Scrubbed(Claimed(n, Controlplane, f.claim, f.clear), f.scrub), name, n.mode == Controlplane, f, rebuild)
  }

  function Deactivated(n: Node, name: string, f: Faults, rebuild: bool): Result {
    if !f.load then Result(n, false)
    else if name !in n.active then Result(n, true)
    else if !f.save then Result(n, false)
    else
      var less := n.(active := Without(n.active, name));
      if !rebuild then Result(less, true)
      else if less.active == [] && !less.hub then Result(Claimed(less, Idle, f.claim, f.clear), true)
      else
        var built := Rebuilt(less, f);
        if built.ok then built else Result(Restored(built.node, n.active, f.restore), false)
  }

  /** Activations without a rebuild, up to the first that fails; the second part counts the successes. */
  function ActivatedMany(n: Node, names: seq<string>, fs: seq<Faults>): (r: (Node, nat))
    requires |fs| == |names|
    ensures r.1 <= |names|
    decreases |names|
  {
    if names == [] then (n, 0)
    else
      var first := Activated(n, names[0], fs[0], false);
      if !first.ok then (first.node, 0)
      else
        var rest := ActivatedMany(first.node, names[1..], fs[1..]);
        (rest.0, rest.1 + 1)
  }

  function DeactivatedMany(n: Node, names: seq<string>, fs: seq<Faults>): Node
    requires |fs| == |names|
    decreases |names|
  {
    if names == [] then n
    else DeactivatedMany(Deactivated(n, names[0], fs[0], false).node, names[1..], fs[1..])
  }

  /** handleSetsFromPresets with activate: all the names with one rebuild, or none of them. */
  function BatchActivated(n: Node, names: seq<string>, fs: seq<Faults>, undo: seq<Faults>, f: Faults): Result
    requires |fs| == |undo| == |names|
  {
    var many := ActivatedMany(n, names, fs);
    if many.1 < |names| then Result(DeactivatedMany(many.0, names[..many.1], undo[..many.1]), false)
    else
      var built := Rebuilt(many.0, f);
      if built.ok then built else Result(DeactivatedMany(built.node, names, undo), false)
  }

  // ---- the other writers ----

  /** handleWgPut: switching the WireGuard hub on claims the control plane, switching it off may release it. */
  function HubPatched(n: Node, enabled: bool, f: Faults): Result {
    if enabled && !ClaimOk(n, Controlplane, f.claim) then Result(n, false)
    else
      var c := if enabled then Claimed(n, Controlplane, f.claim, f.clear) else n;
      if !f.save then Result(c, false)
      else
        var h := c.(hub := enabled);
        var built := if enabled || n.hub then Rebuilt(h, f) else Result(h, true);
        if !built.ok then built
        else if !enabled && built.node.active == [] then Result(Claimed(built.node, Idle, f.release, f.clear), true)
        else built
  }

  /** handleSetsDelete: an active or unknown set is refused. */
  function SetDeleted(n: Node, name: string, f: Faults): Result {
    if name in n.active || name !in n.sets || !f.load || !f.save then Result(n, false) else Result(n.(sets := Without(n.sets, name)), true)
  }

  /** The list without the first occurrence of a name. */
  function DropFirst(ss: seq<string>, x: string): (r: seq<string>)
    ensures forall y :: y in r ==> y in ss
    ensures forall y :: y in ss && y != x ==> y in r
  {
    if ss == [] then [] else if ss[0] == x then ss[1..] else [ss[0]] + DropFirst(ss[1..], x)
  }

  /** replaceOrConflictSet: an unknown name is none of its business; an active set is deactivated before its file entry goes. */
  function SetReplaced(n: Node, name: string, f: Faults, rebuild: bool, written: bool): Result {
    if name !in n.sets then Result(n, true)
    else if !f.load then Result(n, false)
    else
      var d := if name in n.active then Deactivated(n, name, f, rebuild) else Result(n, true);
      if !d.ok || !written then Result(d.node, false) else Result(d.node.(sets := DropFirst(d.node.sets, name)), true)
  }

  /** reconcileOwnershipOnBoot */
  function Booted(n: Node, f: Faults): Node {
    var c := Scrubbed(n, f.scrub);
    if !f.load then c
    else if c.mode != Controlplane && c.active != [] then c.(active := if f.save then [] else c.active)
    else if c.mode == Controlplane && !Live(c) then Claimed(c, Idle, f.claim, f.clear)
    else if c.mode == Controlplane then Rebuilt(c, f).node
    else c
  }

  /** cpDataplaneLive */
  predicate Live(n: Node) {
    n.active != [] || n.hub
  }

  datatype Op =
    | Activate(name: string, f: Faults)
    | Deactivate(name: string, f: Faults)
    | Batch(names: seq<string>, fs: seq<Faults>, undo: seq<Faults>, f: Faults)
    | ClaimDirect(f: Faults)
    | Subscribe(f: Faults)
    | Unsubscribe(f: Faults)
    | PatchHub(enabled: bool, f: Faults)
    | StoreSet(name: string)
    | DeleteSet(name: string, f: Faults)
    | ReplaceSet(name: string, f: Faults, rebuild: bool, written: bool)
    | Boot(f: Faults)

  predicate WellFormed(op: Op) {
    op.Batch? ==> |op.fs| == |op.undo| == |op.names|
  }

  function Step(n: Node, op: Op): Node
    requires WellFormed(op)
  {
    match op
    case Activate(name, f) => Activated(n, name, f, true).node
    case Deactivate(name, f) => Deactivated(n, name, f, true).node
    case Batch(names, fs, undo, f) => BatchActivated(n, names, fs, undo, f).node
    case ClaimDirect(f) => Claimed(n, Direct, f.claim, f.clear)
    case Subscribe(f) => Claimed(n, Subscribed, f.claim, f.clear)
    case Unsubscribe(f) => if n.mode == Subscribed then Claimed(n, Idle, f.claim, f.clear) else n
    case PatchHub(enabled, f) => HubPatched(n, enabled, f).node
    case StoreSet(name) => n.(sets := n.sets + [name])
    case DeleteSet(name, f) => SetDeleted(n, name, f).node
    case ReplaceSet(name, f, rebuild, written) => SetReplaced(n, name, f, rebuild, written).node
    case Boot(f) => Booted(n, f)
  }

  function Run(n: Node, ops: seq<Op>): Node
    requires forall i :: 0 <= i < |ops| ==> WellFormed(ops[i])
  {
    if ops == [] then n else Step(Run(n, ops[..|ops| - 1]), ops[|ops| - 1])
  }

  // ---- active sets belong to the control plane ----

  /** Active sets exist only while the control plane owns the configuration. */
  predicate Owned(n: Node) {
    n.active != [] ==> n.mode == Controlplane
  }

  /** The hook that clears the active sets works wherever the operation may need it. */
  predicate Clears(op: Op) {
    match op
    case Batch(_, fs, undo, f) => f.clear && (forall i :: 0 <= i < |fs| ==> fs[i].clear) && (forall i :: 0 <= i < |undo| ==> undo[i].clear)
    case StoreSet(_) => true
    case _ => op.f.clear
  }

  lemma ActivateOwned(n: Node, name: string, f: Faults, rebuild: bool)
    requires Owned(n) && f.clear
    ensures Owned(Activated(n, name, f, rebuild).node)
  {
    hide Kept;
  }

  lemma DeactivateOwned(n: Node, name: string, f: Faults, rebuild: bool)
    requires Owned(n) && f.clear
    ensures Owned(Deactivated(n, name, f, rebuild).node)
  {
    hide Kept, Without;
  }

  lemma {:induction false} ActivateManyOwned(n: Node, names: seq<string>, fs: seq<Faults>)
    requires |fs| == |names| && Owned(n) && forall i :: 0 <= i < |fs| ==> fs[i].clear
    ensures Owned(ActivatedMany(n, names, fs).0)
    decreases |names|
  {
    hide Activated, Owned;
    if names != [] {
      ActivateOwned(n, names[0], fs[0], false);
      ActivateManyOwned(Activated(n, names[0], fs[0], false).node, names[1..], fs[1..]);
    }
  }

  lemma {:induction false} DeactivateManyOwned(n: Node, names: seq<string>, fs: seq<Faults>)
    requires |fs| == |names| && Owned(n) && forall i :: 0 <= i < |fs| ==> fs[i].clear
    ensures Owned(DeactivatedMany(n, names, fs))
    decreases |names|
  {
    hide Deactivated, Owned;
    if names != [] {
      DeactivateOwned(n, names[0], fs[0], false);
      DeactivateManyOwned(Deactivated(n, names[0], fs[0], false).node, names[1..], fs[1..]);
    }
  }

  lemma BatchOwned(n: Node, names: seq<string>, fs: seq<Faults>, undo: seq<Faults>, f: Faults)
    requires |fs| == |undo| == |names| && Owned(n)
    requires (forall i :: 0 <= i < |fs| ==> fs[i].clear) && (forall i :: 0 <= i < |undo| ==> undo[i].clear)
    ensures Owned(BatchActivated(n, names, fs, undo, f).node)
  {
    hide ActivatedMany, DeactivatedMany, Kept;
    ActivateManyOwned(n, names, fs);
    var many := ActivatedMany(n, names, fs);
    if many.1 < |names| {
      DeactivateManyOwned(many.0, names[..many.1], undo[..many.1]);
    } else {
      DeactivateManyOwned(Rebuilt(many.0, f).node, names, undo);
    }
  }

  lemma HubOwned(n: Node, enabled: bool, f: Faults)
    requires Owned(n) && f.clear
    ensures Owned(HubPatched(n, enabled, f).node)
  {
    hide Kept;
  }

  lemma BootOwned(n: Node, f: Faults)
    requires Owned(n) && f.clear
    ensures Owned(Booted(n, f))
  {
  }

  /**
   * Every operation keeps active sets with the control plane, whichever of its
   * other writes fail.
   */
  lemma StepOwned(n: Node, op: Op)
    requires WellFormed(op) && Owned(n) && Clears(op)
    ensures Owned(Step(n, op))
  {
    hide Activated, Deactivated, BatchActivated, HubPatched, Booted, Without;
    match op
    case Activate(name, f) => ActivateOwned(n, name, f, true);
    case Deactivate(name, f) => DeactivateOwned(n, name, f, true);
    case Batch(names, fs, undo, f) => BatchOwned(n, names, fs, undo, f);
    case PatchHub(enabled, f) => HubOwned(n, enabled, f);
    case ReplaceSet(name, f, rebuild, _) => DeactivateOwned(n, name, f, rebuild);
    case Boot(f) => BootOwned(n, f);
    case _ =>
  }

  lemma {:induction false} RunOwned(n: Node, ops: seq<Op>)
    requires forall i :: 0 <= i < |ops| ==> WellFormed(ops[i]) && Clears(ops[i])
    requires Owned(n)
    ensures Owned(Run(n, ops))
  {
    hide Step, Owned;
    if ops != [] {
      RunOwned(n, ops[..|ops| - 1]);
      StepOwned(Run(n, ops[..|ops| - 1]), ops[|ops| - 1]);
    }
  }

  /** A claim breaks it exactly when it takes a control plane with active sets and cannot clear them. */
  lemma ClaimBreaksOwnership(n: Node, mode: Mode, persist: bool, clear: bool)
    requires Owned(n)
    ensures !Owned(Claimed(n, mode, persist, clear))
      <==> n.mode == Controlplane && mode != Controlplane && n.active != [] && persist && !clear
  {
  }

  // ---- booting ----

  /** The two ownership findings of ownershipHealth. */
  function Issues(n: Node): seq<string> {
    (if n.mode == Controlplane && !Live(n) then ["controlplane_mode_without_active_sets"] else []) +
    (if n.mode != Controlplane && n.active != [] then ["active_sets_without_controlplane_ownership"] else [])
  }

  lemma {:induction false} KeptTwice(active: seq<string>, sets: seq<string>)
    ensures Kept(Kept(active, sets), sets) == Kept(active, sets)
  {
    if active != [] {
      KeptTwice(active[..|active| - 1], sets);
    }
  }

  lemma {:induction false} KeptAll(active: seq<string>, sets: seq<string>)
    requires forall x :: x in active ==> x in sets
    ensures Kept(active, sets) == active
  {
    if active != [] {
      KeptAll(active[..|active| - 1], sets);
      assert active == active[..|active| - 1] + [active[|active| - 1]];
    }
  }

  /** Whatever was stored, a boot leaves no ownership issue, and only stored sets active. */
  lemma BootReconciles(n: Node, f: Faults)
    requires Persists(f)
    ensures var b := Booted(n, f);
      && Issues(b) == []
      && Owned(b)
      && (b.mode == Controlplane ==> Live(b))
      && (forall x :: x in b.active ==> x in n.sets)
      && (n.mode != Controlplane ==> b.mode == n.mode)
      && (n.mode == Controlplane && Live(Scrubbed(n, true)) ==> b == Scrubbed(n, true))
  {
    KeptTwice(n.active, n.sets);
    hide Kept;
  }

  // ---- what each operation achieves ----

  lemma NoElements(ss: seq<string>)
    ensures (forall x :: x !in ss) ==> ss == []
  {
    if ss != [] {
      assert ss[0] in ss;
    }
  }

  /** An activation ends with the set active under the control plane, */
  lemma ActivateSucceeds(n: Node, name: string, f: Faults)
    requires Persists(f) && Owned(n) && name in n.sets && f.remat
    ensures var r := Activated(n, name, f, true);
      && r.ok && r.node.mode == Controlplane
      && forall x :: x in r.node.active <==> x == name || (x in n.active && x in n.sets)
  {
    hide Kept;
  }

  /** or with the active sets as they were (less those no longer stored), idle if the control plane was not the owner. */
  lemma ActivateFails(n: Node, name: string, f: Faults)
    requires Persists(f) && Owned(n) && name in n.sets && !f.remat
    ensures var r := Activated(n, name, f, true);
      && !r.ok
      && r.node == n.(active := Kept(n.active, n.sets), mode := if n.mode == Controlplane then Controlplane else Idle)
  {
    if n.mode != Controlplane {
      assert Kept(n.active, n.sets) == [];
    }
    hide Kept;
  }

  /**
   * Whatever fails, a failed activation gives the configuration back to its previous
   * owner exactly when the control plane was the owner, when it was refused before the
   * claim or by it, or when the node was idle and the release works.
   */
  lemma FailedActivateKeepsOwner(n: Node, name: string, f: Faults, rebuild: bool)
    requires Owned(n) && f.clear && !Activated(n, name, f, rebuild).ok
    ensures Activated(n, name, f, rebuild).node.mode == n.mode
      <==> n.mode == Controlplane || name !in n.sets || !f.build || !f.claim || (n.mode == Idle && f.release)
  {
    NoElements(Kept([], n.sets));
    hide Kept;
  }

  /** So a node in direct or subscribed mode ends idle. */
  lemma FailedActivateForgetsOwner(n: Node, name: string, f: Faults)
    requires Persists(f) && Owned(n) && n.mode != Controlplane && name in n.sets && !f.remat
    ensures Activated(n, name, f, true).node == n.(mode := Idle)
  {
    assert n.active == [] == Kept([], n.sets);
    hide Kept;
    ActivateFails(n, name, f);
  }

  /** A rebuild keeps mode, sets and hub, takes away at most names that are not stored, and cannot fail without ownership. */
  lemma RebuildOutcome(n: Node, f: Faults)
    ensures var r := Rebuilt(n, f);
      && r.node.mode == n.mode && r.node.sets == n.sets && r.node.hub == n.hub
      && (forall x :: x in r.node.active ==> x in n.active)
      && (forall x :: x in n.active && x in n.sets ==> x in r.node.active)
      && (n.mode != Controlplane ==> r == Result(n, true))
      && (n.mode == Controlplane ==> r.ok == f.remat && (!f.rescrub ==> r.node == n))
      && (n.mode == Controlplane && f.rescrub ==> forall x :: x in r.node.active ==> x in n.sets)
  {
    hide Kept;
  }

  /**
   * The rollback of a first activation ends idle with nothing active exactly when the
   * control plane was not the owner before and nothing is to be kept; otherwise, or
   * when the claim fails, nothing changes.
   */
  lemma ReleaseOutcome(n: Node, wasOwner: bool, prev: seq<string>, f: Faults)
    requires n.mode == Controlplane && f.clear
    ensures var r := Released(n, wasOwner, prev, f);
      && (r.mode == Idle <==> !wasOwner && prev == [] && f.release)
      && (r.mode == Idle ==> r.active == [])
      && (r.mode != Idle ==> r == n)
  {
  }

  /** A deactivation removes the set, going idle after the last one, or changes nothing. */
  lemma DeactivateOutcome(n: Node, name: string, f: Faults)
    requires Persists(f) && Owned(n) && forall x :: x in n.active ==> x in n.sets
    ensures var r := Deactivated(n, name, f, true);
      && (r.ok <==> name !in n.active || f.remat || (Without(n.active, name) == [] && !n.hub))
      && (r.ok ==> name !in r.node.active && forall x :: x != name ==> (x in r.node.active <==> x in n.active))
      && (!r.ok ==> r.node == n)
      && (r.ok && name in n.active ==> (r.node.mode == Controlplane <==> Live(r.node)))
  {
    KeptAll(Without(n.active, name), n.sets);
    hide Kept, Without;
    if name in n.active && Without(n.active, name) == [] && !n.hub {
      assert forall x :: x in n.active ==> x == name by {
        assert forall x :: x !in Without(n.active, name);
      }
    }
  }

  /** Switching the hub on takes the configuration; switching it off with nothing active leaves it idle. */
  lemma HubOutcome(n: Node, enabled: bool, f: Faults)
    requires Persists(f) && Owned(n)
    ensures var r := HubPatched(n, enabled, f);
      && r.node.hub == enabled
      && (r.ok <==> f.remat || (!enabled && (!n.hub || n.mode != Controlplane)))
      && (enabled ==> r.node.mode == Controlplane)
      && (!enabled && r.ok ==> (r.node.active == [] <==> r.node.mode == Idle))
      && (forall x :: x in r.node.active ==> x in n.active)
  {
    NoElements(Kept([], n.sets));
    hide Kept;
  }

  /** Switching the hub off leaves the owner in place exactly when nobody was or sets stay active. */
  lemma HubOffKeepsOwner(n: Node, f: Faults)
    requires Persists(f) && Owned(n) && HubPatched(n, false, f).ok
    ensures HubPatched(n, false, f).node.mode == n.mode <==> n.mode == Idle || HubPatched(n, false, f).node.active != []
  {
    hide Kept;
  }

  /** So a hub that is switched off, even again, ends direct ownership. */
  lemma HubOffDisplacesDirect(n: Node, f: Faults)
    requires Persists(f) && Owned(n) && n.mode == Direct
    ensures HubPatched(n, false, f).node.mode == Idle
  {
    hide Kept;
  }

  // ---- batches ----

  lemma {:induction false} ActivateManyOutcome(n: Node, names: seq<string>, fs: seq<Faults>)
    requires |fs| == |names| && Owned(n)
    requires forall i :: 0 <= i < |fs| ==> Persists(fs[i])
    requires forall i :: 0 <= i < |names| ==> names[i] in n.sets
    ensures var r := ActivatedMany(n, names, fs);
      && r.1 == |names|
      && r.0.sets == n.sets && r.0.hub == n.hub
      && (names != [] ==> r.0.mode == Controlplane)
      && (names != [] ==> forall x :: x in r.0.active <==> x in names || (x in n.active && x in n.sets))
      && (names == [] ==> r.0 == n)
    decreases |names|
  {
    hide Activated, Kept, Persists, Owned;
    if names != [] {
      var one := Activated(n, names[0], fs[0], false).node;
      ActivateOneOutcome(n, names[0], fs[0]);
      assert forall i :: 0 <= i < |names[1..]| ==> names[1..][i] == names[i + 1];
      ActivateManyOutcome(one, names[1..], fs[1..]);
      assert names == [names[0]] + names[1..];
    }
  }

  lemma ActivateOneOutcome(n: Node, name: string, f: Faults)
    requires Persists(f) && name in n.sets
    ensures var r := Activated(n, name, f, false);
      r.ok && r.node.mode == Controlplane && r.node.sets == n.sets && r.node.hub == n.hub && Owned(r.node) &&
      (Owned(n) ==> forall x :: x in r.node.active <==> x == name || (x in n.active && x in n.sets))
  {
  }

  lemma {:induction false} DeactivateManyOutcome(n: Node, names: seq<string>, fs: seq<Faults>)
    requires |fs| == |names| && forall i :: 0 <= i < |fs| ==> fs[i].load && fs[i].save
    ensures var r := DeactivatedMany(n, names, fs);
      && r.mode == n.mode && r.sets == n.sets && r.hub == n.hub
      && forall x :: x in r.active <==> x in n.active && x !in names
    decreases |names|
  {
    if names != [] {
      DeactivateManyOutcome(Deactivated(n, names[0], fs[0], false).node, names[1..], fs[1..]);
      assert names == [names[0]] + names[1..];
    }
  }

  /**
   * A batch activates all its sets or leaves the others active as before; one of its
   * own names that was still active is not put back.  Its rollback does not give the
   * ownership back: a node that was not under control plane ownership ends in that
   * mode with nothing active.
   */
  lemma BatchOutcome(n: Node, names: seq<string>, fs: seq<Faults>, undo: seq<Faults>, f: Faults)
    requires |fs| == |undo| == |names| && names != [] && Owned(n) && Persists(f)
    requires forall i :: 0 <= i < |fs| ==> Persists(fs[i]) && Persists(undo[i])
    requires forall i :: 0 <= i < |names| ==> names[i] in n.sets
    ensures var r := BatchActivated(n, names, fs, undo, f);
      && (r.ok <==> f.remat)
      && r.node.mode == Controlplane
      && (r.ok ==> forall x :: x in r.node.active <==> x in names || (x in n.active && x in n.sets))
      && (!r.ok ==> forall x :: x in r.node.active <==> x in n.active && x in n.sets && x !in names)
      && (!r.ok && n.mode != Controlplane ==> r.node.active == [])
  {
    hide Kept, ActivatedMany, DeactivatedMany, Persists;
    assert forall i :: 0 <= i < |fs| ==> undo[i].load && undo[i].save by { RevealPersists(undo); }
    assert f.rescrub by { assert [f][0] == f; RevealPersists([f]); }
    ActivateManyOutcome(n, names, fs);
    var many := ActivatedMany(n, names, fs).0;
    var built := Rebuilt(many, f).node;
    assert forall x :: x in built.active <==> x in many.active;
    DeactivateManyOutcome(built, names, undo);
    var r := BatchActivated(n, names, fs, undo, f);
    if !r.ok && n.mode != Controlplane {
      assert n.active == [];
      NoElements(r.node.active);
    }
  }

  lemma RevealPersists(fs: seq<Faults>)
    requires forall i :: 0 <= i < |fs| ==> Persists(fs[i])
    ensures forall i :: 0 <= i < |fs| ==> fs[i].load && fs[i].save && fs[i].rescrub
  {
  }
}
