/** The handlers that change ownership and the active sets, write by write, against the functions of Ownership. */
module OwnershipService {
  import opened Ownership

  method Contains(ss: seq<string>, x: string) returns (found: bool)
    ensures found <==> x in ss
  {
    for i := 0 to |ss|
      invariant x !in ss[..i]
    {
      if ss[i] == x { return true; }
    }
    return false;
  }

  method RemoveStr(ss: seq<string>, x: string) returns (out: seq<string>)
    ensures out == Without(ss, x)
  {
    out := [];
    for i := 0 to |ss|
      invariant out == Without(ss[..i], x)
    {
      assert ss[..i + 1][..i] == ss[..i];
      if ss[i] != x { out := out + [ss[i]]; }
    }
    assert ss[..|ss|] == ss;
  }

  method Clean(active: seq<string>, sets: seq<string>) returns (cleaned: seq<string>, changed: bool)
    ensures cleaned == Kept(active, sets)
    ensures !changed ==> cleaned == active
  {
    cleaned, changed := [], false;
    for i := 0 to |active|
      invariant cleaned == Kept(active[..i], sets)
      invariant !changed ==> cleaned == active[..i]
    {
      assert active[..i + 1][..i] == active[..i];
      var found := Contains(sets, active[i]);
      if found {
        cleaned := cleaned + [active[i]];
      } else {
        changed := true;
      }
    }
    assert active[..|active|] == active;
  }

  /** The registry's mode in memory and on disk, and the control plane's stored state. */
  class Service {
    var mode: Mode
    var storedMode: Mode
    var active: seq<string>
    var sets: seq<string>
    var hub: bool

    /** Memory and the owner file never disagree between operations. */
    ghost predicate Valid()
      reads this
    {
      storedMode == mode
    }

    ghost function Value(): Node
      reads this
    {
      Node(mode, active, sets, hub)
    }

    method Claim(to: Mode, persist: bool, clear: bool) returns (ok: bool)
      requires Valid()
      modifies this
      ensures Valid() && Value() == Claimed(old(Value()), to, persist, clear)
      ensures ok == ClaimOk(old(Value()), to, persist)
      ensures ok <==> old(mode) == to || persist
      ensures mode == (if ok then to else old(mode)) && sets == old(sets) && hub == old(hub)
      ensures active == if ok && old(mode) == Controlplane && to != Controlplane && clear then [] else old(active)
    {
      var prev := mode;
      if prev == to { return true; }
      mode := to;
      if !persist {
        mode := prev;
        return false;
      }
      storedMode := mode;
      if prev == Controlplane && clear {
        active := [];
      }
      return true;
    }

    method Scrub(ok: bool)
      requires Valid()
      modifies this
      ensures Valid() && Value() == Scrubbed(old(Value()), ok)
    {
      var cleaned, changed := Clean(active, sets);
      if changed && ok {
        active := cleaned;
      }
    }

    method Rebuild(f: Faults) returns (ok: bool)
      requires Valid()
      modifies this
      ensures Valid() && Result(Value(), ok) == Rebuilt(old(Value()), f)
    {
      if mode != Controlplane { return true; }
      Scrub(f.rescrub);
      return f.remat;
    }

    method ReleaseFirst(wasOwner: bool, prev: seq<string>, f: Faults)
      requires Valid()
      modifies this
      ensures Valid() && Value() == Released(old(Value()), wasOwner, prev, f)
    {
      if wasOwner || |prev| > 0 { return; }
      var claimed := Claim(Idle, f.release, f.clear);
    }

    method Activate(name: string, f: Faults, rebuild: bool) returns (ok: bool)
      requires Valid()
      modifies this
      ensures Valid() && Result(Value(), ok) == Activated(old(Value()), name, f, rebuild)
    {
      hide Kept, Released, Claimed, Grown;
      var known := Contains(sets, name);
      if !known || !f.build { return false; }
      var wasOwner := mode == Controlplane;
      var claimed := Claim(Controlplane, f.claim, f.clear);
      if !claimed {
        RefusedClaim(old(Value()), Controlplane, f);
        return false;
      }
      Scrub(f.scrub);
      ok := Grow(name, wasOwner, f, rebuild);
    }

    /** An activation from the loading of the state on. */
    method Grow(name: string, wasOwner: bool, f: Faults, rebuild: bool) returns (ok: bool)
      requires Valid()
      modifies this
      ensures Valid() && Result(Value(), ok) == Grown(old(Value()), name, wasOwner, f, rebuild)
    {
      hide Kept, Released;
      if !f.load {
        ReleaseFirst(wasOwner, [], f);
        return false;
      }
      var prev := active;
      var present := Contains(active, name);
      if !present {
        if !f.save {
          ReleaseFirst(wasOwner, prev, f);
          return false;
        }
        active := active + [name];
      }
      if !rebuild { return true; }
      ok := Rebuild(f);
      if !ok {
        if f.restore { active := prev; }
        ReleaseFirst(wasOwner, prev, f);
      }
    }

    method Deactivate(name: string, f: Faults, rebuild: bool) returns (ok: bool)
      requires Valid()
      modifies this
      ensures Valid() && Result(Value(), ok) == Deactivated(old(Value()), name, f, rebuild)
    {
      hide Kept, Claimed, Without;
      if !f.load { return false; }
      var present := Contains(active, name);
      if !present { return true; }
      var prev := active;
      if !f.save { return false; }
      active := RemoveStr(active, name);
      if !rebuild { return true; }
      if |active| == 0 && !hub {
        var claimed := Claim(Idle, f.claim, f.clear);
        return true;
      }
      ok := Rebuild(f);
      if !ok && f.restore { active := prev; }
    }

    /** The rollback loop: errors are ignored. */
    method DeactivateAll(names: seq<string>, undo: seq<Faults>)
      requires Valid() && |undo| == |names|
      modifies this
      ensures Valid() && Value() == DeactivatedMany(old(Value()), names, undo)
    {
      hide Deactivated;
      assert names[0..] == names && undo[0..] == undo;
      for i := 0 to |names|
        invariant Valid() && DeactivatedMany(Value(), names[i..], undo[i..]) == DeactivatedMany(old(Value()), names, undo)
      {
        assert names[i..][1..] == names[i + 1..] && undo[i..][1..] == undo[i + 1..];
        var done := Deactivate(names[i], undo[i], false);
      }
    }

    method ActivateBatch(names: seq<string>, fs: seq<Faults>, undo: seq<Faults>, f: Faults) returns (ok: bool)
      requires Valid() && |fs| == |undo| == |names|
      modifies this
      ensures Valid() && Result(Value(), ok) == BatchActivated(old(Value()), names, fs, undo, f)
    {
      hide Activated, DeactivatedMany, Rebuilt;
      ghost var n := Value();
      assert names[0..] == names && fs[0..] == fs;
      for i := 0 to |names|
        invariant Valid()
        invariant var rest := ActivatedMany(Value(), names[i..], fs[i..]);
          ActivatedMany(n, names, fs) == (rest.0, rest.1 + i)
      {
        assert names[i..][1..] == names[i + 1..] && fs[i..][1..] == fs[i + 1..];
        var done := Activate(names[i], fs[i], false);
        if !done {
          DeactivateAll(names[..i], undo[..i]);
          return false;
        }
      }
      ok := Rebuild(f);
      if !ok {
        DeactivateAll(names, undo);
      }
    }

    method PatchHub(enabled: bool, f: Faults) returns (ok: bool)
      requires Valid()
      modifies this
      ensures Valid() && Result(Value(), ok) == HubPatched(old(Value()), enabled, f)
    {
      hide Kept, Claimed;
      var prevEnabled := hub;
      if enabled {
        var claimed := Claim(Controlplane, f.claim, f.clear);
        if !claimed {
          assert Value() == old(Value()) by { RefusedClaim(old(Value()), Controlplane, f); }
          return false;
        }
      }
      if !f.save { return false; }
      hub := enabled;
      if enabled || prevEnabled {
        var built := Rebuild(f);
        if !built { return false; }
      }
      if !enabled && |active| == 0 {
        var claimed := Claim(Idle, f.release, f.clear);
      }
      return true;
    }

    method Boot(f: Faults)
      requires Valid()
      modifies this
      ensures Valid() && Value() == Booted(old(Value()), f)
    {
      hide Kept, Claimed;
      Scrub(f.scrub);
      if !f.load { return; }
      if mode != Controlplane && |active| > 0 {
        if f.save { active := []; }
        return;
      }
      var live := |active| > 0 || hub;
      if mode == Controlplane && !live {
        var claimed := Claim(Idle, f.claim, f.clear);
        return;
      }
      if mode == Controlplane && live {
        var built := Rebuild(f);
      }
    }
  }

  lemma RefusedClaim(n: Node, mode: Mode, f: Faults)
    requires !ClaimOk(n, mode, f.claim)
    ensures Claimed(n, mode, f.claim, f.clear) == n
  {
  }
}
