/**
 * What each operation on the node leaves behind, whichever of its writes fail: whether
 * it succeeds, the owner, and for every name whether it is active or stored, all in
 * terms of the node it met.
 */
module OwnershipOutcomes {
  import opened Ownership

  // ---- lists keep their order ----

  lemma {:induction false} WithoutConcat(a: seq<string>, b: seq<string>, x: string)
    ensures Without(a + b, x) == Without(a, x) + Without(b, x)
  {
    if b == [] {
      assert a + b == a;
    } else {
      var init := b[..|b| - 1];
      WithoutConcat(a, init, x);
      assert (a + b)[..|a + b| - 1] == a + init;
    }
  }

  lemma {:induction false} KeptConcat(a: seq<string>, b: seq<string>, sets: seq<string>)
    ensures Kept(a + b, sets) == Kept(a, sets) + Kept(b, sets)
  {
    if b == [] {
      assert a + b == a;
    } else {
      var init := b[..|b| - 1];
      KeptConcat(a, init, sets);
      assert (a + b)[..|a + b| - 1] == a + init;
    }
  }

  /** The list without its first `x`. */
  lemma {:induction false} DropFirstSplits(a: seq<string>, x: string, b: seq<string>)
    requires x !in a
    ensures DropFirst(a + [x] + b, x) == a + b
  {
    hide DropFirst;
    var s := a + [x] + b;
    DropFirstOnce(s, x);
    if a == [] {
      assert s == [x] + b && a + b == b;
    } else {
      DropFirstSplits(a[1..], x, b);
      assert s[1..] == a[1..] + [x] + b;
      assert [a[0]] + (a[1..] + b) == a + b;
    }
  }

  lemma DropFirstOnce(s: seq<string>, x: string)
    requires s != []
    ensures DropFirst(s, x) == if s[0] == x then s[1..] else [s[0]] + DropFirst(s[1..], x)
  {
  }

  lemma Empty(ss: seq<string>)
    ensures ss == [] <==> forall x :: x !in ss
  {
    NoElements(ss);
  }

  // ---- one set ----

  predicate Reaches(n: Node, name: string, f: Faults) {
    name in n.sets && f.build && (n.mode.Controlplane? || f.claim)
  }

  lemma KeptFew(name: string, sets: seq<string>)
    requires name in sets
    ensures Kept([], sets) == [] && [] + [name] == [name] && Kept([name], sets) == [name]
  {
    assert [name][..0] == [];
  }

  /** An activation goes through exactly when the set is stored and supported and every write it needs succeeds. */
  lemma ActivateAnswers(n: Node, name: string, f: Faults, rebuild: bool)
    ensures Activated(n, name, f, rebuild).ok <==>
      && name in n.sets && f.build && (n.mode.Controlplane? || f.claim)
      && f.load && (f.save || name in n.active) && (rebuild ==> f.remat)
  {
    hide Kept;
  }

  /** One that goes through adds its name and takes away at most names that are not stored. */
  lemma ActivateAdds(n: Node, name: string, f: Faults, rebuild: bool)
    requires Activated(n, name, f, rebuild).ok
    ensures var v := Activated(n, name, f, rebuild).node;
      && v.mode.Controlplane? && v.sets == n.sets && v.hub == n.hub
      && forall x :: x in v.active <==>
           x == name || (x in n.active && (x in n.sets || !(f.scrub || (rebuild && f.rescrub))))
  {
    hide Kept;
  }

  /** A set that was not active yet comes last. */
  lemma ActivateAppends(n: Node, name: string, f: Faults, rebuild: bool)
    requires Activated(n, name, f, rebuild).ok && name !in n.active
    ensures var v := Activated(n, name, f, rebuild).node; |v.active| > 0 && v.active[|v.active| - 1] == name
  {
    hide Kept, Released, Restored;
    ActivateAnswers(n, name, f, rebuild);
    var before := Scrubbed(n, f.scrub).active;
    KeptFew(name, n.sets);
    KeptConcat(before, [name], n.sets);
    var after := Activated(n, name, f, rebuild).node.active;
    assert after == before + [name] || after == Kept(before + [name], n.sets);
  }

  /** One that is refused at or before the claim changes nothing. */
  lemma ActivateRefused(n: Node, name: string, f: Faults, rebuild: bool)
    requires !(name in n.sets && f.build && (n.mode.Controlplane? || f.claim))
    ensures Activated(n, name, f, rebuild) == Result(n, false)
  {
    hide Kept;
  }

  /** One that fails later under the control plane leaves its name out, unless the list cannot be put back. */
  lemma ActivateFailsAsOwner(n: Node, name: string, f: Faults, rebuild: bool)
    requires n.mode.Controlplane? && name in n.sets && f.build && !Activated(n, name, f, rebuild).ok
    ensures var v := Activated(n, name, f, rebuild).node;
      var unbuilt := f.load && (f.save || name in n.active) && !f.restore;
      && v.mode.Controlplane? && v.sets == n.sets && v.hub == n.hub
      && forall x :: x in v.active <==>
           if unbuilt then x == name || (x in n.active && (x in n.sets || !(f.scrub || f.rescrub)))
           else x in n.active && (x in n.sets || !f.scrub)
  {
    hide Kept;
  }

  /** One that fails after taking the configuration over ends idle, or under the control plane when the release fails. */
  lemma ActivateFailsAsGuest(n: Node, name: string, f: Faults, rebuild: bool)
    requires Owned(n) && !n.mode.Controlplane? && f.claim && name in n.sets && f.build && !Activated(n, name, f, rebuild).ok
    ensures var v := Activated(n, name, f, rebuild).node;
      var unbuilt := f.load && f.save && !f.restore;
      && v.mode == (if f.release then Idle else Controlplane) && v.sets == n.sets && v.hub == n.hub
      && v.active == if unbuilt && !(f.release && f.clear) then [name] else []
  {
    hide Kept;
    KeptFew(name, n.sets);
  }

  /** A deactivation goes through exactly when the set is not active or every write it needs succeeds. */
  lemma DeactivateAnswers(n: Node, name: string, f: Faults, rebuild: bool)
    ensures Deactivated(n, name, f, rebuild).ok <==>
      f.load && (name in n.active ==>
        f.save && (!rebuild || !n.mode.Controlplane? || f.remat || (!n.hub && forall x :: x in n.active ==> x == name)))
  {
    Empty(Without(n.active, name));
    hide Kept, Without;
  }

  lemma DeactivateLeaves(n: Node, name: string, f: Faults, rebuild: bool)
    ensures var v := Deactivated(n, name, f, rebuild).node;
      var ok := Deactivated(n, name, f, rebuild).ok;
      var removed := f.load && f.save && name in n.active;
      var ends := removed && rebuild && !n.hub && forall x :: x in n.active ==> x == name;
      && v.sets == n.sets && v.hub == n.hub
      && (!removed ==> v == n)
      && (removed && !ok && f.restore ==> v == n)
      && (ends ==> v.active == [] && v.mode == if f.claim then Idle else n.mode)
      && (!ends ==> v.mode == n.mode)
      && (removed && !ends && (ok || !f.restore) ==> forall x :: x in v.active <==>
            x != name && x in n.active && (x in n.sets || !(rebuild && n.mode.Controlplane? && f.rescrub)))
  {
    Empty(Without(n.active, name));
    hide Kept, Without;
  }

  // ---- batches ----

  /** The i-th name of a batch can be activated after the names before it. */
  predicate Accepts(n: Node, names: seq<string>, fs: seq<Faults>, i: nat)
    requires i < |names| == |fs|
  {
    && names[i] in n.sets && fs[i].build && fs[i].load
    && (fs[i].save || names[i] in n.active || names[i] in names[..i])
    && (i > 0 || n.mode.Controlplane? || fs[i].claim)
  }

  /** None of the first `k` activations has cleaned the list. */
  predicate NoScrub(fs: seq<Faults>, k: nat)
    requires k <= |fs|
  {
    forall i :: 0 <= i < k ==> !fs[i].scrub
  }

  lemma ActivateFirst(n: Node, names: seq<string>, fs: seq<Faults>)
    requires |fs| == |names| > 0
    ensures var one := Activated(n, names[0], fs[0], false);
      && one.ok == Accepts(n, names, fs, 0)
      && (one.ok ==> one.node.mode.Controlplane? && one.node.sets == n.sets && one.node.hub == n.hub)
      && (one.ok ==> forall x :: x in one.node.active <==> x == names[0] || (x in n.active && (x in n.sets || !fs[0].scrub)))
  {
    ActivateAnswers(n, names[0], fs[0], false);
    if Activated(n, names[0], fs[0], false).ok {
      ActivateAdds(n, names[0], fs[0], false);
    }
    hide Activated;
  }

  lemma AcceptsLater(n: Node, one: Node, names: seq<string>, fs: seq<Faults>, i: nat)
    requires |fs| == |names| && 0 < i < |names|
    requires one.mode.Controlplane? && one.sets == n.sets
    requires forall x :: x in one.active <==> x == names[0] || (x in n.active && (x in n.sets || !fs[0].scrub))
    ensures Accepts(one, names[1..], fs[1..], i - 1) == Accepts(n, names, fs, i)
  {
    assert names[1..][i - 1] == names[i] && fs[1..][i - 1] == fs[i];
    assert names[..i] == [names[0]] + names[1..][..i - 1];
  }

  /** After the first `k` names, all accepted. */
  lemma {:induction false} ActivatedPrefix(n: Node, names: seq<string>, fs: seq<Faults>, k: nat)
    requires |fs| == |names| && 0 < k <= |names| && forall i: nat :: i < k ==> Accepts(n, names, fs, i)
    ensures var r := ActivatedMany(n, names[..k], fs[..k]);
      && r.1 == k && r.0.mode.Controlplane? && r.0.sets == n.sets && r.0.hub == n.hub
      && forall x :: x in r.0.active <==> x in names[..k] || (x in n.active && (x in n.sets || NoScrub(fs, k)))
    decreases k
  {
    hide Activated, Accepts;
    var one := Activated(n, names[0], fs[0], false).node;
    ActivateFirst(n, names, fs);
    assert names[..k][0] == names[0] && fs[..k][0] == fs[0];
    assert names[..k][1..] == names[1..][..k - 1] && fs[..k][1..] == fs[1..][..k - 1];
    assert names[..k] == [names[0]] + names[1..][..k - 1];
    assert NoScrub(fs, k) <==> !fs[0].scrub && NoScrub(fs[1..], k - 1) by {
      NoScrubSplits(fs, k);
    }
    if k == 1 {
      assert ActivatedMany(one, [], []) == (one, 0);
    } else {
      AcceptedIsStored(n, names, fs, 0);
      forall i: nat | i < k - 1 ensures Accepts(one, names[1..], fs[1..], i) {
        AcceptsLater(n, one, names, fs, i + 1);
      }
      ActivatedPrefix(one, names[1..], fs[1..], k - 1);
    }
  }

  lemma NoScrubSplits(fs: seq<Faults>, k: nat)
    requires 0 < k <= |fs|
    ensures NoScrub(fs, k) <==> !fs[0].scrub && NoScrub(fs[1..], k - 1)
  {
    assert forall i :: 0 < i < k ==> fs[1..][i - 1] == fs[i];
    if !fs[0].scrub && NoScrub(fs[1..], k - 1) {
      forall i | 0 <= i < k ensures !fs[i].scrub {
        if i > 0 { assert fs[1..][i - 1] == fs[i]; }
      }
    } else if NoScrub(fs, k) {
      forall i | 0 <= i < k - 1 ensures !fs[1..][i].scrub {
        assert fs[1..][i] == fs[i + 1];
      }
    }
  }

  /** A batch is a prefix that goes through and, if that is not all of it, the activation that stops it. */
  lemma {:induction false} ActivatedStops(n: Node, names: seq<string>, fs: seq<Faults>, k: nat)
    requires |fs| == |names| && k < |names|
    requires (forall i: nat :: i < k ==> Accepts(n, names, fs, i)) && !Accepts(n, names, fs, k)
    ensures var reached := if k == 0 then n else ActivatedMany(n, names[..k], fs[..k]).0;
      ActivatedMany(n, names, fs) == (Activated(reached, names[k], fs[k], false).node, k)
    decreases k
  {
    hide Activated, Accepts;
    ActivateFirst(n, names, fs);
    if k > 0 {
      var one := Activated(n, names[0], fs[0], false).node;
      assert names[..k][0] == names[0] && fs[..k][0] == fs[0];
      assert names[..k][1..] == names[1..][..k - 1] && fs[..k][1..] == fs[1..][..k - 1];
      forall i: nat | i < k ensures Accepts(one, names[1..], fs[1..], i) == Accepts(n, names, fs, i + 1) {
        AcceptsLater(n, one, names, fs, i + 1);
      }
      ActivatedStops(one, names[1..], fs[1..], k - 1);
      if k == 1 {
        assert ActivatedMany(one, [], []) == (one, 0);
      }
    }
  }

  /** A deactivation in the rollback of `names` that takes `x` away. */
  predicate Undone(names: seq<string>, undo: seq<Faults>, x: string)
    requires |undo| == |names|
  {
    exists i :: 0 <= i < |names| && names[i] == x && undo[i].load && undo[i].save
  }

  lemma UndoneSplits(names: seq<string>, undo: seq<Faults>, x: string)
    requires |undo| == |names| > 0
    ensures Undone(names, undo, x) <==> (names[0] == x && undo[0].load && undo[0].save) || Undone(names[1..], undo[1..], x)
  {
    if Undone(names, undo, x) {
      var i :| 0 <= i < |names| && names[i] == x && undo[i].load && undo[i].save;
      if i > 0 { assert names[1..][i - 1] == x && undo[1..][i - 1] == undo[i]; }
    }
    if Undone(names[1..], undo[1..], x) {
      var i :| 0 <= i < |names| - 1 && names[1..][i] == x && undo[1..][i].load && undo[1..][i].save;
      assert names[i + 1] == x && undo[i + 1] == undo[1..][i];
    }
  }

  /** The rollback takes away exactly the names one of whose deactivations can be saved. */
  lemma {:induction false} RollbackLeaves(n: Node, names: seq<string>, undo: seq<Faults>)
    requires |undo| == |names|
    ensures var v := DeactivatedMany(n, names, undo);
      && v.mode == n.mode && v.sets == n.sets && v.hub == n.hub
      && forall x :: x in v.active <==> x in n.active && !Undone(names, undo, x)
    decreases |names|
  {
    hide Deactivated;
    if names != [] {
      DeactivateLeaves(n, names[0], undo[0], false);
      var one := Deactivated(n, names[0], undo[0], false).node;
      assert forall x :: x in one.active <==> x in n.active && !(names[0] == x && undo[0].load && undo[0].save) by {
        hide Deactivated;
        DeactivateAnswers(n, names[0], undo[0], false);
      }
      RollbackLeaves(one, names[1..], undo[1..]);
      forall x ensures Undone(names, undo, x) <==> (names[0] == x && undo[0].load && undo[0].save) || Undone(names[1..], undo[1..], x) {
        UndoneSplits(names, undo, x);
      }
    }
  }

  /** The k-th activation, the first to fail, gets as far as cleaning the list. */
  predicate ScrubsAt(n: Node, names: seq<string>, fs: seq<Faults>, k: nat)
    requires k < |names| == |fs|
  {
    names[k] in n.sets && fs[k].build && (k > 0 || n.mode.Controlplane? || fs[k].claim) && fs[k].scrub
  }

  /** The node after the activations of a batch that stops at `k`. */
  lemma StoppedNode(n: Node, names: seq<string>, fs: seq<Faults>, k: nat)
    requires |fs| == |names| && k < |names| && Owned(n)
    requires (forall i: nat :: i < k ==> Accepts(n, names, fs, i)) && !Accepts(n, names, fs, k)
    ensures var r := ActivatedMany(n, names, fs);
      && r.1 == k && r.0.sets == n.sets && r.0.hub == n.hub
      && r.0.mode == StoppedMode(n, names, fs, k)
      && forall x :: x in r.0.active <==>
           x in names[..k] || (x in n.active && (x in n.sets || (NoScrub(fs, k) && !ScrubsAt(n, names, fs, k))))
  {
    ActivatedStops(n, names, fs, k);
    if k > 0 {
      ActivatedPrefix(n, names, fs, k);
      var reached := ActivatedMany(n, names[..k], fs[..k]).0;
      StoppedAsOwner(n, reached, names, fs, k);
    } else if n.mode.Controlplane? {
      StoppedAsOwner(n, n, names, fs, 0);
    } else {
      hide Activated, ActivatedMany;
      ActivateAnswers(n, names[0], fs[0], false);
      if Reaches(n, names[0], fs[0]) {
        ActivateFailsAsGuest(n, names[0], fs[0], false);
      } else {
        ActivateRefused(n, names[0], fs[0], false);
      }
    }
  }

  /** The owner after a batch that stops at `k`: the control plane once a set was activated, else what the failed one left. */
  function StoppedMode(n: Node, names: seq<string>, fs: seq<Faults>, k: nat): Mode
    requires k < |names| == |fs|
  {
    if k > 0 || n.mode.Controlplane? then Controlplane
    else if !(names[0] in n.sets && fs[0].build && fs[0].claim) then n.mode
    else if fs[0].release then Idle
    else Controlplane
  }

  lemma StoppedAsOwner(n: Node, reached: Node, names: seq<string>, fs: seq<Faults>, k: nat)
    requires |fs| == |names| && k < |names| && !Accepts(n, names, fs, k)
    requires reached.mode.Controlplane? && reached.sets == n.sets && (k == 0 ==> n.mode.Controlplane?)
    requires forall x :: x in reached.active <==> x in names[..k] || (x in n.active && (x in n.sets || NoScrub(fs, k)))
    requires forall i: nat :: i < k ==> Accepts(n, names, fs, i)
    ensures var v := Activated(reached, names[k], fs[k], false).node;
      && v.mode.Controlplane? && v.sets == reached.sets && v.hub == reached.hub
      && forall x :: x in v.active <==>
           x in names[..k] || (x in n.active && (x in n.sets || (NoScrub(fs, k) && !ScrubsAt(n, names, fs, k))))
  {
    hide Activated, NoScrub;
    forall x | x in names[..k] ensures x in n.sets {
      var i: nat :| i < k && names[..k][i] == x;
      AcceptedIsStored(n, names, fs, i);
    }
    ActivateAnswers(reached, names[k], fs[k], false);
    if names[k] in n.sets && fs[k].build {
      ActivateFailsAsOwner(reached, names[k], fs[k], false);
    } else {
      ActivateRefused(reached, names[k], fs[k], false);
    }
  }

  /**
   * A batch that stops at its k-th name, for every k: it is refused; of every name it
   * had activated none stays active whose deactivation can be saved, and every other
   * name is active as it was, less names that are not stored when the list was cleaned.
   */
  lemma BatchStops(n: Node, names: seq<string>, fs: seq<Faults>, undo: seq<Faults>, f: Faults, k: nat)
    requires |fs| == |undo| == |names| && k < |names| && Owned(n)
    requires (forall i: nat :: i < k ==> Accepts(n, names, fs, i)) && !Accepts(n, names, fs, k)
    ensures var r := BatchActivated(n, names, fs, undo, f);
      && !r.ok && r.node.sets == n.sets && r.node.hub == n.hub
      && r.node.mode == StoppedMode(n, names, fs, k)
      && forall x :: x in r.node.active <==>
           && !Undone(names[..k], undo[..k], x)
           && (x in names[..k] || (x in n.active && (x in n.sets || (NoScrub(fs, k) && !ScrubsAt(n, names, fs, k)))))
  {
    hide ActivatedMany, DeactivatedMany, Accepts, NoScrub, ScrubsAt, Undone, Owned;
    StoppedNode(n, names, fs, k);
    RollbackLeaves(ActivatedMany(n, names, fs).0, names[..k], undo[..k]);
  }

  /** With the rollback saved, nothing of what the batch activated is left. */
  lemma StoppedBatchLeavesNothing(n: Node, names: seq<string>, fs: seq<Faults>, undo: seq<Faults>, f: Faults, k: nat)
    requires |fs| == |undo| == |names| && k < |names| && Owned(n)
    requires (forall i: nat :: i < k ==> Accepts(n, names, fs, i)) && !Accepts(n, names, fs, k)
    requires forall i :: 0 <= i < k ==> undo[i].load && undo[i].save
    ensures var r := BatchActivated(n, names, fs, undo, f);
      && !r.ok
      && r.node.mode == (
           if k > 0 || n.mode.Controlplane? then Controlplane
           else if !(names[0] in n.sets && fs[0].build && fs[0].claim) then n.mode
           else if fs[0].release then Idle
           else Controlplane)
      && (forall x :: x in names[..k] ==> x !in r.node.active)
      && (forall x :: x in n.sets && x !in names[..k] ==> (x in r.node.active <==> x in n.active))
      && (forall x :: x in r.node.active ==> x in n.active)
      && (!n.mode.Controlplane? ==> r.node.active == [])
  {
    hide Accepts, NoScrub, ScrubsAt, BatchActivated;
    BatchStops(n, names, fs, undo, f, k);
    forall x | x in names[..k] ensures Undone(names[..k], undo[..k], x) {
      var i :| 0 <= i < k && names[..k][i] == x;
      assert undo[..k][i] == undo[i];
    }
    forall x | x !in names[..k] ensures !Undone(names[..k], undo[..k], x) {
    }
    if !n.mode.Controlplane? {
      NoElements(BatchActivated(n, names, fs, undo, f).node.active);
    }
  }

  /** A batch all of whose names are accepted: it stands or falls with the one rebuild. */
  lemma BatchEnds(n: Node, names: seq<string>, fs: seq<Faults>, undo: seq<Faults>, f: Faults)
    requires |fs| == |undo| == |names| > 0
    requires forall i: nat :: i < |names| ==> Accepts(n, names, fs, i)
    ensures var r := BatchActivated(n, names, fs, undo, f);
      && r.ok == f.remat && r.node.mode.Controlplane? && r.node.sets == n.sets && r.node.hub == n.hub
      && forall x :: x in r.node.active <==>
           && (r.ok || !Undone(names, undo, x))
           && (x in names || (x in n.active && (x in n.sets || (NoScrub(fs, |fs|) && !f.rescrub))))
  {
    hide ActivatedMany, DeactivatedMany, Accepts, NoScrub, Undone, Kept;
    assert names[..|names|] == names && fs[..|fs|] == fs;
    ActivatedPrefix(n, names, fs, |names|);
    assert forall x :: x in names ==> x in n.sets by {
      forall x | x in names ensures x in n.sets {
        var i: nat :| i < |names| && names[i] == x;
        assert Accepts(n, names, fs, i);
        AcceptedIsStored(n, names, fs, i);
      }
    }
    RollbackLeaves(Rebuilt(ActivatedMany(n, names, fs).0, f).node, names, undo);
  }

  lemma AcceptedIsStored(n: Node, names: seq<string>, fs: seq<Faults>, i: nat)
    requires i < |names| == |fs| && Accepts(n, names, fs, i)
    ensures names[i] in n.sets
  {
  }

  // ---- the other writers ----

  /** Switching the hub: refused by a failing claim, save or rebuild; the switch is stored before the rebuild. */
  lemma HubAnswers(n: Node, enabled: bool, f: Faults)
    ensures var r := HubPatched(n, enabled, f);
      var stored := (enabled && !n.mode.Controlplane? ==> f.claim) && f.save;
      var rebuilt := stored && (enabled || (n.hub && n.mode.Controlplane?));
      && (r.ok <==> stored && (rebuilt ==> f.remat))
      && r.node.hub == (if stored then enabled else n.hub) && r.node.sets == n.sets
      && (forall x :: x in r.node.active <==> x in n.active && (x in n.sets || !(rebuilt && f.rescrub)))
      && (enabled ==> r.node.mode == if f.claim then Controlplane else n.mode)
      && (!enabled ==> r.node.mode == if r.ok && r.node.active == [] && f.release then Idle else n.mode)
  {
    hide Kept;
  }

  /** A boot, whichever of its writes fail. */
  lemma BootLeaves(n: Node, f: Faults)
    ensures var v := Booted(n, f);
      var alive := n.hub || exists x :: x in n.active && (x in n.sets || !f.scrub);
      && v.sets == n.sets && v.hub == n.hub
      && v.mode == (if n.mode.Controlplane? && f.load && !alive && f.claim then Idle else n.mode)
      && forall x :: x in v.active <==>
           && x in n.active && (x in n.sets || !(f.scrub || (n.mode.Controlplane? && f.load && f.rescrub)))
           && (n.mode.Controlplane? || !f.load || !f.save)
  {
    Empty(Scrubbed(n, f.scrub).active);
    hide Kept;
  }

  /** The ownership findings. */
  lemma IssuesTell(n: Node)
    ensures Issues(n) == [] <==> (if n.mode.Controlplane? then n.active != [] || n.hub else n.active == [])
    ensures |Issues(n)| <= 1
  {
  }

  /** Taking a stored set away needs it inactive; replacing it deactivates it first. */
  lemma SetsGo(n: Node, name: string, f: Faults, rebuild: bool, written: bool)
    ensures var r := SetDeleted(n, name, f);
      && (r.ok <==> name in n.sets && name !in n.active && f.load && f.save)
      && r.node.mode == n.mode && r.node.active == n.active && r.node.hub == n.hub
      && forall x :: x in r.node.sets <==> x in n.sets && !(r.ok && x == name)
    ensures var r := SetReplaced(n, name, f, rebuild, written);
      && (r.ok && name in n.sets ==> written && f.load && name !in r.node.active && r.node.sets == DropFirst(n.sets, name))
      && (!r.ok ==> r.node.sets == n.sets)
      && (name !in n.sets ==> r == Result(n, true))
      && (name in n.sets && name !in n.active && f.load ==> r.ok == written && r.node == n.(sets := r.node.sets))
  {
    DeactivateAnswers(n, name, f, rebuild);
    DeactivateLeaves(n, name, f, rebuild);
    hide Deactivated, DropFirst, Without;
  }

  /** Storing a set touches neither owner nor active sets. */
  lemma SetComes(n: Node, name: string)
    ensures var v := Step(n, StoreSet(name));
      v.mode == n.mode && v.active == n.active && v.hub == n.hub && forall x :: x in v.sets <==> x in n.sets || x == name
  {
  }

  /** Direct, subscribed and unsubscribed: the owner changes when the file is written, and leaving the control plane clears its sets. */
  lemma ClaimsLeave(n: Node, op: Op)
    requires op.ClaimDirect? || op.Subscribe? || op.Unsubscribe?
    ensures var to := if op.ClaimDirect? then Direct else if op.Subscribe? then Subscribed else Idle;
      var moves := n.mode != to && op.f.claim && (op.Unsubscribe? ==> n.mode.Subscribed?);
      && Step(n, op).mode == (if moves then to else n.mode)
      && Step(n, op).active == (if moves && n.mode.Controlplane? && op.f.clear then [] else n.active)
      && Step(n, op).sets == n.sets && Step(n, op).hub == n.hub
  {
  }
}
