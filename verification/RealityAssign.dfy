/** ensureRealityAssignments: its three loops, uniqueness and convergence. */
module RealityAssign {
  import opened Basics
  import opened Text
  import opened Reality

  // ---- what a set of assignments should look like ----

  function Name(a: Assignment): string {
    Lower(a.sni)
  }

  ghost function PoolNames(pool: seq<Endpoint>): set<string> {
    set i | 0 <= i < |pool| :: Lower(pool[i].sni)
  }

  ghost function Keys(items: seq<Need>): set<string> {
    set i | 0 <= i < |items| :: items[i].key
  }

  ghost predicate DistinctKeys(items: seq<Need>) {
    forall i, j :: 0 <= i < j < |items| ==> items[i].key != items[j].key
  }

  /** All fields of a stored assignment are there. */
  ghost predicate Complete(a: Assignment) {
    a.sni != "" && Trim(a.server) != "" && a.port != 0 && a.priv != "" && a.pub != "" && a.shortId != ""
  }

  ghost predicate InPool(a: Assignment, pool: seq<Endpoint>) {
    EndpointOf(a) in pool
  }

  /** Names in the pool are already lower-case. */
  ghost predicate LowerPool(pool: seq<Endpoint>) {
    forall ep :: ep in pool ==> Lower(ep.sni) == ep.sni && ep.sni != "" && Trim(ep.server) != "" && ep.port != 0
  }

  /**
   * The needed assignments that exist are complete, have pairwise different names,
   * and one whose endpoint left the pool has a name the pool no longer offers.
   */
  ghost predicate Sound(A: Assignments, needed: set<string>, pool: seq<Endpoint>) {
    && (forall k :: k in needed && k in A ==> Complete(A[k]) && (InPool(A[k], pool) || Name(A[k]) !in PoolNames(pool)))
    && (forall k, l :: k in needed && k in A && l in needed && l in A && k != l ==> Name(A[k]) != Name(A[l]))
  }

  /** `used` is exactly the inverse of the assignments that are in the pool. */
  ghost predicate Marks(A: Assignments, needed: set<string>, pool: seq<Endpoint>, used: map<string, string>) {
    && (forall s :: s in used ==> used[s] in needed && used[s] in A && InPool(A[used[s]], pool) && Name(A[used[s]]) == s)
    && (forall k :: k in needed && k in A && InPool(A[k], pool) ==> Name(A[k]) in used && used[Name(A[k])] == k)
  }

  /** Every needed key has a complete assignment from the pool, no two share a name, and nothing else is kept. */
  ghost predicate Good(A: Assignments, needed: set<string>, pool: seq<Endpoint>) {
    A.Keys == needed && Sound(A, needed, pool) && forall k :: k in needed ==> InPool(A[k], pool)
  }

  ghost predicate Roomy(needed: set<string>, pool: seq<Endpoint>) {
    |needed| <= |PoolNames(pool)|
  }

  lemma InPoolName(a: Assignment, pool: seq<Endpoint>)
    requires InPool(a, pool)
    ensures Name(a) in PoolNames(pool)
    ensures LowerPool(pool) ==> Name(a) == a.sni
  {
    var i :| 0 <= i < |pool| && pool[i] == EndpointOf(a);
    assert Lower(pool[i].sni) in PoolNames(pool);
  }

  // ---- pigeonhole ----

  lemma {:induction false} InjectionBound(m: map<string, string>, target: set<string>)
    requires forall s :: s in m ==> m[s] in target
    requires forall s, t :: s in m && t in m && s != t ==> m[s] != m[t]
    ensures |m.Keys| <= |target|
    decreases |m.Keys|
  {
    if m.Keys != {} {
      var s :| s in m.Keys;
      var m' := m - {s};
      assert m'.Keys == m.Keys - {s};
      InjectionBound(m', target - {m[s]});
    }
  }

  lemma SmallerLacks(a: set<string>, b: set<string>) returns (x: string)
    requires |a| < |b|
    ensures x in b && x !in a
  {
    if b <= a {
      SubsetSize(b, a);
      assert false;
    }
    x :| x in b && x !in a;
  }

  /** A needed key without a usable endpoint always finds a free name. */
  lemma FreeNameExists(A: Assignments, needed: set<string>, pool: seq<Endpoint>, used: map<string, string>, key: string)
    returns (ep: Endpoint)
    requires Sound(A, needed, pool) && Marks(A, needed, pool, used) && Roomy(needed, pool)
    requires key in needed && (key in A ==> !InPool(A[key], pool))
    ensures ep in pool && Lower(ep.sni) !in used
  {
    forall s | s in used ensures used[s] in needed - {key} {
    }
    InjectionBound(used, needed - {key});
    var name := SmallerLacks(used.Keys, PoolNames(pool));
    var i :| 0 <= i < |pool| && Lower(pool[i].sni) == name;
    ep := pool[i];
  }

  // ---- the two ways an assignment changes ----

  lemma ReassignSound(A: Assignments, needed: set<string>, pool: seq<Endpoint>, used: map<string, string>, key: string, a: Assignment)
    requires Sound(A, needed, pool) && Marks(A, needed, pool, used) && key in needed
    requires Complete(a) && InPool(a, pool) && MayUse(used, Name(a), key)
    ensures Sound(A[key := a], needed, pool)
    ensures forall l :: l in needed && l in A && l != key ==> Name(A[l]) != Name(a)
  {
    hide Name, Complete, InPool, PoolNames;
    NameInPool(a, pool);
    forall l | l in needed && l in A && l != key ensures Name(A[l]) != Name(a) {
      if InPool(A[l], pool) {
        assert used[Name(A[l])] == l;
      }
    }
  }

  lemma NameInPool(a: Assignment, pool: seq<Endpoint>)
    requires InPool(a, pool)
    ensures Name(a) in PoolNames(pool)
  {
    InPoolName(a, pool);
  }

  /** The marks after `key` moves: its old name is released, its new one taken. */
  function Remark(A: Assignments, used: map<string, string>, key: string, a: Assignment): map<string, string> {
    (if key in A then used - {Name(A[key])} else used)[Name(a) := key]
  }

  lemma ReassignMarks(A: Assignments, needed: set<string>, pool: seq<Endpoint>, used: map<string, string>, key: string, a: Assignment)
    requires Sound(A, needed, pool) && Marks(A, needed, pool, used) && key in needed
    requires Complete(a) && InPool(a, pool) && MayUse(used, Name(a), key)
    ensures Marks(A[key := a], needed, pool, Remark(A, used, key, a))
  {
    hide Name, Complete, InPool, PoolNames;
    ReassignSound(A, needed, pool, used, key, a);
  }

  // ---- the loops ----

  /** The defaults filled into a stored assignment without server or port. */
  function FillDefaults(a: Assignment): Assignment {
    var server := if Trim(a.server) == "" then a.sni else a.server;
    a.(server := server, port := if a.port == 0 then 443 else a.port)
  }

  ghost predicate Pinned(items: seq<Need>) {
    forall i :: 0 <= i < |items| ==> Canon(items[i].prefer) == items[i].prefer
  }

  /** First loop: complete stored assignments and reserve the names in use. */
  method Reserve(stored: Assignments, items: seq<Need>, pool: seq<Endpoint>)
    returns (A: Assignments, used: map<string, string>, changed: bool)
    ensures A.Keys == stored.Keys && (A != stored ==> changed)
    ensures Filled(stored, A, Keys(items))
    ensures Sound(stored, Keys(items), pool) && LowerPool(pool) && DistinctKeys(items) ==>
      A == stored && !changed && Marks(A, Keys(items), pool, used)
  {
    hide Filled, FillDefaults, Usable, Trim, Lower;
    A, used, changed := stored, map[], false;
    NothingFilled(stored);
    assert items[..0] == [];
    ghost var calm := Sound(stored, Keys(items), pool) && LowerPool(pool) && DistinctKeys(items);
    for n := 0 to |items|
      invariant A.Keys == stored.Keys && (A != stored ==> changed)
      invariant Filled(stored, A, Keys(items[..n]))
      invariant calm ==> A == stored && !changed && Marks(A, Keys(items[..n]), pool, used)
    {
      ghost var before, was := used, A;
      var key := items[n].key;
      if key in A && A[key].sni != "" {
        var a := A[key];
        if Trim(a.server) == "" || a.port == 0 {
          a := FillDefaults(a);
          A := A[key := a];
          changed := true;
        }
        if Usable(a, pool) {
          var sni := Lower(a.sni);
          if MayUse(used, sni, key) {
            used := used[sni := key];
          }
        }
      }
      KeysGrow(items, n);
      FillStep(stored, was, A, Keys(items[..n]), key);
      if calm {
        if key in stored { SoundIsFilled(stored, items, pool, n); }
        ReserveStep(stored, items, pool, before, used, n);
      }
    }
    assert items[..|items|] == items;
  }

  /** A needed assignment gets its name for a missing server and 443 for a missing port; nothing else is touched. */
  ghost predicate FilledFrom(was: Assignment, a: Assignment, needed: bool) {
    && a.sni == was.sni && a.priv == was.priv && a.pub == was.pub && a.shortId == was.shortId
    && a.server == (if needed && was.sni != "" && Trim(was.server) == "" then was.sni else was.server)
    && a.port == (if needed && was.sni != "" && was.port == 0 then 443 else was.port)
  }

  ghost predicate Filled(stored: Assignments, A: Assignments, keys: set<string>) {
    A.Keys == stored.Keys && forall k :: k in stored ==> FilledFrom(stored[k], A[k], k in keys)
  }

  lemma NothingFilled(stored: Assignments)
    ensures Filled(stored, stored, Keys([]))
  {
  }

  lemma FillStep(stored: Assignments, A: Assignments, A2: Assignments, keys: set<string>, key: string)
    requires Filled(stored, A, keys)
    requires A2 ==
      if key in A && A[key].sni != "" && (Trim(A[key].server) == "" || A[key].port == 0) then A[key := FillDefaults(A[key])] else A
    ensures Filled(stored, A2, keys + {key})
  {
    hide Trim;
  }

  /** A sound assignment has nothing to fill in, and is usable exactly when its endpoint is offered. */
  lemma SoundIsFilled(A: Assignments, items: seq<Need>, pool: seq<Endpoint>, n: nat)
    requires n < |items| && Sound(A, Keys(items), pool) && items[n].key in A
    ensures var a := A[items[n].key]; a.sni != "" && Trim(a.server) != "" && a.port != 0 && (Usable(a, pool) <==> InPool(a, pool))
  {
    hide Trim;
    assert items[n].key in Keys(items);
  }

  lemma KeysGrow(items: seq<Need>, n: nat)
    requires n < |items|
    ensures Keys(items[..n + 1]) == Keys(items[..n]) + {items[n].key}
  {
    assert items[..n + 1] == items[..n] + [items[n]];
    forall k | k in Keys(items[..n]) + {items[n].key} ensures k in Keys(items[..n + 1]) {
      if k == items[n].key {
        assert items[..n + 1][n].key == k;
      } else {
        var i :| 0 <= i < n && items[..n][i].key == k;
        assert items[..n + 1][i].key == k;
      }
    }
  }

  lemma ReserveStep(A: Assignments, items: seq<Need>, pool: seq<Endpoint>, used: map<string, string>, used2: map<string, string>, n: nat)
    requires n < |items| && DistinctKeys(items) && Sound(A, Keys(items), pool) && Marks(A, Keys(items[..n]), pool, used)
    requires var key := items[n].key;
      used2 == if key in A && InPool(A[key], pool) && MayUse(used, Name(A[key]), key) then used[Name(A[key]) := key] else used
    ensures Marks(A, Keys(items[..n + 1]), pool, used2)
  {
    hide Name, Complete, InPool, PoolNames, LowerPool;
    var key := items[n].key;
    assert key in Keys(items);
    KeysGrow(items, n);
    forall k | k in Keys(items[..n]) ensures k in Keys(items) && k != key {
      var i :| 0 <= i < n && items[..n][i].key == k;
      assert items[i].key == k;
    }
  }

  function Repin(a: Assignment, ep: Endpoint): Assignment {
    a.(sni := ep.sni, server := ep.server, port := ep.port)
  }

  /** No other needed inbound is on this name. */
  ghost predicate NameFree(A: Assignments, needed: set<string>, name: string, key: string) {
    forall l :: l in needed && l in A && l != key ==> Name(A[l]) != name
  }

  /** What happens to a usable assignment: it moves to its pinned name if that is offered and free. */
  ghost function Move(A: Assignments, needed: set<string>, it: Need, pool: seq<Endpoint>): Assignments
    requires it.key in A
  {
    var found := FindBySNI(pool, it.prefer);
    if it.prefer != "" && Name(A[it.key]) != it.prefer && found.Some? && NameFree(A, needed, it.prefer, it.key) then
      A[it.key := Repin(A[it.key], found.value)]
    else A
  }

  /** In the pool's terms a name is free for a key when no mark of another key is on it. */
  lemma MarkedOrFree(A: Assignments, needed: set<string>, pool: seq<Endpoint>, used: map<string, string>, key: string, name: string)
    requires Sound(A, needed, pool) && Marks(A, needed, pool, used) && name in PoolNames(pool)
    ensures MayUse(used, name, key) <==> NameFree(A, needed, name, key)
  {
    hide Name, Complete, InPool, PoolNames;
    if !NameFree(A, needed, name, key) {
      var l :| l in needed && l in A && l != key && Name(A[l]) == name;
      assert InPool(A[l], pool);
    } else if name in used {
      assert Name(A[used[name]]) == name;
    }
  }

  /** Everything the second loop relies on. */
  ghost predicate Ordered(A: Assignments, needed: set<string>, pool: seq<Endpoint>, used: map<string, string>, isIP: string -> bool) {
    && Sound(A, needed, pool) && Marks(A, needed, pool, used) && LowerPool(pool) && Roomy(needed, pool)
    && forall ep :: ep in pool ==> Normal(ep, isIP)
  }

  lemma FoundEndpoint(pool: seq<Endpoint>, prefer: string, ep: Endpoint)
    requires LowerPool(pool) && FindBySNI(pool, prefer) == Some(ep) && Canon(prefer) == prefer
    ensures ep in pool && ep.sni == prefer && Lower(prefer) == prefer && prefer in PoolNames(pool)
  {
    var i :| 0 <= i < |pool| && pool[i] == ep;
    assert Lower(pool[i].sni) == prefer;
  }

  lemma RepinFits(a: Assignment, ep: Endpoint, pool: seq<Endpoint>)
    requires LowerPool(pool) && ep in pool && Complete(a)
    ensures Complete(Repin(a, ep)) && InPool(Repin(a, ep), pool) && Name(Repin(a, ep)) == ep.sni
  {
  }

  function Minted(ep: Endpoint, s: Secrets): Assignment {
    Assignment(ep.sni, ep.server, ep.port, s.priv, s.pub, s.shortId)
  }

  lemma MintedFits(ep: Endpoint, s: Secrets, pool: seq<Endpoint>)
    requires LowerPool(pool) && ep in pool
    ensures Complete(Minted(ep, s)) && InPool(Minted(ep, s), pool) && Name(Minted(ep, s)) == ep.sni
  {
  }

  /** The guard of the move, in the code's terms and in Move's. */
  lemma MoveGuard(A: Assignments, needed: set<string>, pool: seq<Endpoint>, used: map<string, string>, isIP: string -> bool, it: Need)
    requires Ordered(A, needed, pool, used, isIP) && it.key in A && it.key in needed && Canon(it.prefer) == it.prefer
    ensures var found := FindBySNI(pool, it.prefer);
      found.Some? ==>
        (found.value.sni == it.prefer && found.value in pool
         && (MayUse(used, it.prefer, it.key) <==> NameFree(A, needed, it.prefer, it.key)))
  {
    hide Canon, Lower, Name, Complete, InPool, PoolNames, Normal;
    var found := FindBySNI(pool, it.prefer);
    if found.Some? {
      FoundEndpoint(pool, it.prefer, found.value);
      MarkedOrFree(A, needed, pool, used, it.key, it.prefer);
    }
  }

  lemma MoveOrdered(A: Assignments, needed: set<string>, pool: seq<Endpoint>, used: map<string, string>, isIP: string -> bool,
                    key: string, ep: Endpoint)
    requires Ordered(A, needed, pool, used, isIP) && key in A && key in needed
    requires ep in pool && MayUse(used, ep.sni, key) && Name(A[key]) != ep.sni
    ensures var a := Repin(A[key], ep);
      a != A[key] && Name(a) == ep.sni && Ordered(A[key := a], needed, pool, Remark(A, used, key, a), isIP)
  {
    var a := Repin(A[key], ep);
    RepinFits(A[key], ep, pool);
    hide Canon, Lower, Name, Complete, InPool, PoolNames, Normal;
    ReassignSound(A, needed, pool, used, key, a);
    ReassignMarks(A, needed, pool, used, key, a);
  }

  /**
   * Body of the second loop for a stored assignment that is still usable.  `done`
   * says that it needs no new endpoint.
   */
  method Keep(A: Assignments, used: map<string, string>, it: Need, pool: seq<Endpoint>, ghost needed: set<string>, isIP: string -> bool)
    returns (done: bool, A2: Assignments, used2: map<string, string>, changed: bool)
    requires it.key in A && Usable(A[it.key], pool)
    ensures !done ==> A2 == A && used2 == used && !changed
    ensures A2.Keys == A.Keys && SameBut(A, A2, it.key)
    ensures Usable(A2[it.key], pool)
    ensures A2[it.key].priv == A[it.key].priv && A2[it.key].pub == A[it.key].pub && A2[it.key].shortId == A[it.key].shortId
    ensures Ordered(A, needed, pool, used, isIP) && it.key in needed && Canon(it.prefer) == it.prefer ==>
      (done && A2 == Move(A, needed, it, pool) && (changed <==> A2 != A) && Ordered(A2, needed, pool, used2, isIP))
  {
    hide Ordered, Canon, Lower, NameFree;
    var key, a := it.key, A[it.key];
    var cur := Lower(a.sni);
    done, A2, used2, changed := false, A, used, false;
    ghost var calm := Ordered(A, needed, pool, used, isIP) && it.key in needed && Canon(it.prefer) == it.prefer;
    if calm {
      MoveGuard(A, needed, pool, used, isIP, it);
      UsableMarked(A, needed, pool, used, isIP, key);
    }
    if it.prefer != "" && cur != it.prefer {
      var found := FindBySNI(pool, it.prefer);
      if found.Some? && MayUse(used, it.prefer, key) {
        A2 := A[key := Repin(a, found.value)];
        used2 := (used - {cur})[it.prefer := key];
        if calm {
          MoveOrdered(A, needed, pool, used, isIP, key, found.value);
        }
        return true, A2, used2, true;
      }
    }
    if MayUse(used, cur, key) {
      used2 := used[cur := key];
      done := true;
      assert calm ==> used2 == used;
    }
  }

  /** Only the assignment of `key` may differ. */
  ghost predicate SameBut(A: Assignments, A2: Assignments, key: string) {
    forall k :: k in A && k != key ==> k in A2 && A2[k] == A[k]
  }

  lemma UsableMarked(A: Assignments, needed: set<string>, pool: seq<Endpoint>, used: map<string, string>, isIP: string -> bool, key: string)
    requires Ordered(A, needed, pool, used, isIP) && key in A && key in needed && Usable(A[key], pool)
    ensures Lower(A[key].sni) in used && used[Lower(A[key].sni)] == key
  {
    assert InPool(A[key], pool);
  }

  lemma NormalizeNormal(ep: Endpoint, isIP: string -> bool)
    requires Normal(ep, isIP)
    ensures Normalize(ep, isIP) == Some(ep)
  {
  }

  lemma DrawOrdered(A: Assignments, needed: set<string>, pool: seq<Endpoint>, used: map<string, string>, isIP: string -> bool,
                    key: string, ep: Endpoint, secrets: Secrets)
    requires Ordered(A, needed, pool, used, isIP) && key in needed && (key in A ==> !InPool(A[key], pool))
    requires ep in pool && MayUse(used, Lower(ep.sni), key)
    ensures var a := Minted(ep, secrets);
            Ordered(A[key := a], needed, pool, Remark(A, used, key, a), isIP) && InPool(a, pool)
            && (key in A ==> A[key].sni != "")
  {
    var a := Minted(ep, secrets);
    assert key in A ==> Complete(A[key]);
    assert Lower(ep.sni) == ep.sni;
    MintedFits(ep, secrets, pool);
    hide Normal, Lower, Complete, InPool, PoolNames, Name;
    ReassignSound(A, needed, pool, used, key, a);
    ReassignMarks(A, needed, pool, used, key, a);
  }

  /** Body of the second loop for everything else: a new endpoint and new secrets. */
  method Draw(A: Assignments, used: map<string, string>, it: Need, pool: seq<Endpoint>, ghost needed: set<string>, isIP: string -> bool,
              random: nat, secrets: Secrets)
    returns (ok: bool, A2: Assignments, used2: map<string, string>)
    ensures ok ==> A2.Keys == A.Keys + {it.key} && SameBut(A, A2, it.key)
    ensures ok ==> A2[it.key].priv == secrets.priv && A2[it.key].pub == secrets.pub && A2[it.key].shortId == secrets.shortId
    ensures pool != [] && (forall ep :: ep in pool ==> Normal(ep, isIP)) ==> ok && Usable(A2[it.key], pool)
    ensures Ordered(A, needed, pool, used, isIP) && it.key in needed && (it.key in A ==> !InPool(A[it.key], pool)) ==>
      (&& ok && Ordered(A2, needed, pool, used2, isIP)
       && it.key in A2 && InPool(A2[it.key], pool)
       && (forall k :: k in A && k != it.key ==> k in A2 && A2[k] == A[k]))
  {
    hide Normal, Normalize, Lower, Canon, Complete, PoolNames, Sound, Marks, Roomy, InPool, LowerPool;
    ghost var calm := Ordered(A, needed, pool, used, isIP) && it.key in needed && (it.key in A ==> !InPool(A[it.key], pool));
    ok, A2, used2 := false, A, used;
    var key := it.key;
    var picked := Pick(pool, it.prefer, used, key, random);
    if calm {
      var free := FreeNameExists(A, needed, pool, used, key);
      assert MayUse(used, Lower(free.sni), key);
      NormalizeNormal(picked.value, isIP);
      DrawOrdered(A, needed, pool, used, isIP, key, picked.value, secrets);
    }
    if picked.None? { return; }
    if forall e :: e in pool ==> Normal(e, isIP) {
      NormalizeNormal(picked.value, isIP);
    }
    var ep := Normalize(picked.value, isIP);
    if ep.None? { return; }
    if key in A && A[key].sni != "" {
      used2 := used2 - {Lower(A[key].sni)};
    }
    A2 := A[key := Minted(ep.value, secrets)];
    used2 := used2[Lower(ep.value.sni) := key];
    ok := true;
  }

  lemma NormalIsLower(ep: Endpoint, isIP: string -> bool)
    requires Normal(ep, isIP)
    ensures Lower(ep.sni) == ep.sni && ep.sni != "" && Trim(ep.server) != "" && ep.port != 0
  {
    LowerTwice(Trim(ep.sni));
    CanonTwice(ep.server);
    TrimIsTrimmed(ep.server);
    TrimIsTrimmed(ep.sni);
    LowerTwice(Trim(ep.server));
    TrimIsTrimmed(Lower(Trim(ep.server)));
    LowerTwice(ep.sni);
  }

  lemma NormalPoolIsLower(pool: seq<Endpoint>, isIP: string -> bool)
    requires NormalPool(pool, isIP)
    ensures LowerPool(pool) && forall ep :: ep in pool ==> Normal(ep, isIP)
  {
    hide Normal, Lower, Trim;
    forall ep | ep in pool ensures Lower(ep.sni) == ep.sni && ep.sni != "" && Trim(ep.server) != "" && ep.port != 0 && Normal(ep, isIP) {
      NormalIsLower(ep, isIP);
    }
  }

  /** What the callers provide: distinct keys, a normal pool with room, and stored assignments in order. */
  ghost predicate Ready(stored: Assignments, items: seq<Need>, pool: seq<Endpoint>, isIP: string -> bool) {
    && DistinctKeys(items) && Pinned(items) && NormalPool(pool, isIP)
    && Sound(stored, Keys(items), pool) && Roomy(Keys(items), pool)
  }

  /** The inbounds that sit on their pinned name. */
  ghost function Satisfied(A: Assignments, items: seq<Need>): set<string> {
    set i | 0 <= i < |items| && items[i].key in A && Name(A[items[i].key]) == items[i].prefer :: items[i].key
  }

  /** The outcome on a good stored state: every inbound in turn moves to its pinned name if it can. */
  ghost function Settled(A: Assignments, items: seq<Need>, pool: seq<Endpoint>, n: nat): (r: Assignments)
    requires n <= |items| && Keys(items) <= A.Keys
    ensures r.Keys == A.Keys
  {
    if n == 0 then A
    else
      assert items[n - 1].key in Keys(items);
      Move(Settled(A, items, pool, n - 1), Keys(items), items[n - 1], pool)
  }

  /** A move changes one inbound, keeps its secrets, and puts it on its pinned name. */
  lemma MoveProgress(A: Assignments, items: seq<Need>, pool: seq<Endpoint>, n: nat)
    requires n < |items| && DistinctKeys(items) && Pinned(items) && LowerPool(pool) && Keys(items) <= A.Keys
    requires items[n].key in A
    ensures var B := Move(A, Keys(items), items[n], pool);
            && (forall k :: k in A && k != items[n].key ==> B[k] == A[k])
            && SameSecrets(A, B)
            && (InPool(A[items[n].key], pool) ==> InPool(B[items[n].key], pool))
            && (Name(A[items[n].key]) == items[n].prefer ==> B == A)
            && (B != A ==> Name(B[items[n].key]) == items[n].prefer)
  {
    hide Canon, Lower, LowerPool, NameFree, Keys;
    var it := items[n];
    var B := Move(A, Keys(items), it, pool);
    if B != A {
      FoundEndpoint(pool, it.prefer, FindBySNI(pool, it.prefer).value);
    }
  }

  ghost predicate SameSecrets(A: Assignments, B: Assignments) {
    A.Keys == B.Keys && forall k :: k in A ==> A[k].priv == B[k].priv && A[k].pub == B[k].pub && A[k].shortId == B[k].shortId
  }

  lemma MoveSatisfies(A: Assignments, items: seq<Need>, pool: seq<Endpoint>, n: nat)
    requires n < |items| && DistinctKeys(items) && Pinned(items) && LowerPool(pool) && Keys(items) <= A.Keys
    requires items[n].key in A
    ensures var B := Move(A, Keys(items), items[n], pool);
            Satisfied(A, items) <= Satisfied(B, items) && (B != A ==> Satisfied(A, items) < Satisfied(B, items))
  {
    var B := Move(A, Keys(items), items[n], pool);
    MoveProgress(A, items, pool, n);
    hide Move, Name;
    forall k | k in Satisfied(A, items) ensures k in Satisfied(B, items) {
      var i :| 0 <= i < |items| && items[i].key in A && Name(A[items[i].key]) == items[i].prefer && items[i].key == k;
      assert B[k] == A[k];
    }
    if B != A {
      assert items[n].key in Satisfied(B, items);
    }
  }

  // ---- the whole call ----

  /** Progress of the second loop after `n` items. */
  ghost predicate Processed(stored: Assignments, A: Assignments, items: seq<Need>, pool: seq<Endpoint>, n: nat) {
    && (forall i :: 0 <= i < n && i < |items| ==> items[i].key in A && InPool(A[items[i].key], pool))
    && A.Keys <= stored.Keys + Keys(items)
  }

  /** On a good stored state the second loop follows Settled, and its flag says whether anything moved. */
  ghost predicate Following(stored: Assignments, A: Assignments, items: seq<Need>, pool: seq<Endpoint>, n: nat, changed: bool)
    requires n <= |items|
  {
    && Keys(items) <= stored.Keys && A == Settled(stored, items, pool, n)
    && (forall k :: k in Keys(items) ==> InPool(A[k], pool))
    && (!changed ==> A == stored)
    && Satisfied(stored, items) <= Satisfied(A, items)
    && (changed ==> Satisfied(stored, items) < Satisfied(A, items))
  }

  lemma FollowStep(stored: Assignments, A: Assignments, items: seq<Need>, pool: seq<Endpoint>, n: nat, changed: bool)
    requires n < |items| && DistinctKeys(items) && Pinned(items) && LowerPool(pool)
    requires Following(stored, A, items, pool, n, changed)
    ensures items[n].key in A
    ensures var B := Move(A, Keys(items), items[n], pool); Following(stored, B, items, pool, n + 1, changed || B != A)
  {
    hide Move, Satisfied, InPool;
    assert items[n].key in Keys(items);
    MoveProgress(A, items, pool, n);
    MoveSatisfies(A, items, pool, n);
  }

  lemma AssignStart(stored: Assignments, items: seq<Need>, pool: seq<Endpoint>)
    ensures Processed(stored, stored, items, pool, 0)
    ensures Good(stored, Keys(items), pool) ==> Following(stored, stored, items, pool, 0, false)
  {
  }

  /** What an iteration knows about its item. */
  lemma StepInputs(A: Assignments, items: seq<Need>, pool: seq<Endpoint>, used: map<string, string>, isIP: string -> bool, n: nat)
    requires n < |items| && Pinned(items) && Ordered(A, Keys(items), pool, used, isIP)
    ensures items[n].key in Keys(items) && Canon(items[n].prefer) == items[n].prefer
    ensures items[n].key in A ==> (Usable(A[items[n].key], pool) <==> InPool(A[items[n].key], pool))
  {
    hide Canon, Marks, Roomy, Normal;
  }

  lemma FollowInputs(stored: Assignments, A: Assignments, items: seq<Need>, pool: seq<Endpoint>, n: nat, changed: bool)
    requires n < |items| && Following(stored, A, items, pool, n, changed)
    ensures items[n].key in A && InPool(A[items[n].key], pool)
  {
    assert items[n].key in Keys(items);
  }

  lemma KeepProcessed(stored: Assignments, A: Assignments, items: seq<Need>, pool: seq<Endpoint>, n: nat)
    requires n < |items| && Processed(stored, A, items, pool, n) && items[n].key in A && InPool(A[items[n].key], pool)
    ensures Processed(stored, Move(A, Keys(items), items[n], pool), items, pool, n + 1)
  {
    var B := Move(A, Keys(items), items[n], pool);
    MoveInPool(A, Keys(items), items[n], pool);
    hide Move, InPool;
    assert B.Keys == A.Keys;
  }

  lemma MoveInPool(A: Assignments, needed: set<string>, it: Need, pool: seq<Endpoint>)
    requires it.key in A
    ensures var B := Move(A, needed, it, pool);
            B.Keys == A.Keys && forall k :: k in A && InPool(A[k], pool) ==> InPool(B[k], pool)
  {
    hide NameFree, Name, Canon;
  }

  lemma DrawProcessed(stored: Assignments, A: Assignments, A2: Assignments, items: seq<Need>, pool: seq<Endpoint>, n: nat)
    requires n < |items| && DistinctKeys(items) && Processed(stored, A, items, pool, n)
    requires A2.Keys == A.Keys + {items[n].key} && InPool(A2[items[n].key], pool)
    requires forall k :: k in A && k != items[n].key ==> A2[k] == A[k]
    ensures Processed(stored, A2, items, pool, n + 1)
  {
    hide InPool;
    assert items[n].key in Keys(items);
  }

  lemma OrderedParts(A: Assignments, needed: set<string>, pool: seq<Endpoint>, used: map<string, string>, isIP: string -> bool)
    requires Ordered(A, needed, pool, used, isIP)
    ensures Sound(A, needed, pool) && LowerPool(pool)
  {
  }

  /** All these inbounds have an assignment with key material and an endpoint that is offered. */
  ghost predicate Served(A: Assignments, keys: set<string>, pool: seq<Endpoint>) {
    forall k :: k in keys ==> k in A && Usable(A[k], pool)
  }

  lemma ServesOneMore(A: Assignments, A2: Assignments, keys: set<string>, key: string, pool: seq<Endpoint>)
    requires Served(A, keys, pool) && SameBut(A, A2, key) && key in A2 && Usable(A2[key], pool)
    ensures Served(A2, keys + {key}, pool)
  {
    hide Usable;
  }

  lemma NobodyServed(A: Assignments, pool: seq<Endpoint>)
    ensures Served(A, Keys([]), pool)
  {
  }

  lemma NoKeys()
    ensures Keys([]) == {}
  {
  }

  /** Second loop; `already` is the changed flag the first loop left. */
  method AssignAll(stored: Assignments, start: map<string, string>, already: bool, items: seq<Need>, pool: seq<Endpoint>,
                   isIP: string -> bool, random: nat -> nat, mint: nat -> Secrets)
    returns (r: Option<Assignments>, changed: bool)
    ensures r.Some? ==> r.value.Keys == stored.Keys + Keys(items)
    ensures pool != [] && (forall ep :: ep in pool ==> Normal(ep, isIP)) ==> r.Some? && Served(r.value, Keys(items), pool)
    ensures DistinctKeys(items) && Pinned(items) && Ordered(stored, Keys(items), pool, start, isIP) ==>
      (r.Some? && Sound(r.value, Keys(items), pool) && Processed(stored, r.value, items, pool, |items|))
    ensures DistinctKeys(items) && Pinned(items) && Ordered(stored, Keys(items), pool, start, isIP)
              && Good(stored, Keys(items), pool) && !already ==>
      (r.Some? && Following(stored, r.value, items, pool, |items|, changed))
  {
    hide Ordered, Processed, Following, Canon, Usable, InPool, Move, DistinctKeys, Pinned, Good, Sound, Keys, LowerPool, Served, SameBut, Normal;
    var A, used := stored, start;
    changed := already;
    ghost var needed := Keys(items);
    ghost var calm := DistinctKeys(items) && Pinned(items) && Ordered(stored, needed, pool, start, isIP);
    ghost var good := calm && Good(stored, needed, pool) && !already;
    ghost var normal := pool != [] && forall ep :: ep in pool ==> Normal(ep, isIP);
    if calm { AssignStart(stored, items, pool); }
    assert items[..0] == [];
    NobodyServed(stored, pool);
    NoKeys();
    for n := 0 to |items|
      invariant A.Keys == stored.Keys + Keys(items[..n])
      invariant normal ==> Served(A, Keys(items[..n]), pool)
      invariant calm ==> Ordered(A, needed, pool, used, isIP) && Processed(stored, A, items, pool, n)
      invariant good ==> Following(stored, A, items, pool, n, changed)
    {
      var it := items[n];
      var done, moved := false, false;
      ghost var before, was := A, changed;
      if calm {
        StepInputs(A, items, pool, used, isIP, n);
        OrderedParts(A, needed, pool, used, isIP);
      }
      if good { FollowInputs(stored, A, items, pool, n, changed); }
      if it.key in A && Usable(A[it.key], pool) {
        done, A, used, moved := Keep(A, used, it, pool, needed, isIP);
        changed := changed || moved;
        if calm { KeepProcessed(stored, before, items, pool, n); }
        if good { FollowStep(stored, before, items, pool, n, was); }
      }
      if !done {
        var ok: bool;
        ok, A, used := Draw(A, used, it, pool, needed, isIP, random(n), mint(n));
        if !ok { return None, false; }
        changed := true;
        if calm { DrawProcessed(stored, before, A, items, pool, n); }
      }
      KeysGrow(items, n);
      if normal { ServesOneMore(before, A, Keys(items[..n]), it.key, pool); }
    }
    assert items[..|items|] == items;
    if calm { OrderedParts(A, needed, pool, used, isIP); }
    r := Some(A);
  }

  /** Third loop: assignments of inbounds that are gone are dropped. */
  method Prune(A: Assignments, items: seq<Need>, already: bool) returns (B: Assignments, changed: bool)
    ensures B == map k | k in A && k in Keys(items) :: A[k]
    ensures changed <==> already || B != A
  {
    var needed: set<string> := {};
    for i := 0 to |items|
      invariant needed == set j | 0 <= j < i :: items[j].key
    {
      needed := needed + {items[i].key};
    }
    assert needed == Keys(items);
    B, changed := A, already;
    var todo := A.Keys;
    while todo != {}
      invariant todo <= A.Keys
      invariant B.Keys == A.Keys - (set k | k in A.Keys - todo && k !in needed)
      invariant forall k :: k in B ==> B[k] == A[k]
      invariant changed <==> already || exists k :: k in A && k !in todo && k !in needed
    {
      var key :| key in todo;
      todo := todo - {key};
      if key !in needed {
        B := B - {key};
        changed := true;
      }
    }
    assert B != A ==> exists k :: k in A && k !in B;
  }

  /**
   * ensureRealityAssignments.  Whatever the random picks: from stored assignments in
   * order, and with room in the pool, the result has exactly the needed keys, all
   * complete, from the pool and with pairwise different names.  On an already good
   * state nothing is random any more: the result is Settled, and the changed flag
   * tells exactly whether it differs from what was stored.
   */
  method EnsureAssignments(stored: Assignments, items: seq<Need>, pool: seq<Endpoint>, isIP: string -> bool,
                           random: nat -> nat, mint: nat -> Secrets)
    returns (r: Option<Assignments>, changed: bool)
    ensures pool == [] ==> r == Some(stored) && !changed
    ensures pool != [] && r.Some? ==> r.value.Keys == Keys(items)
    ensures pool != [] && NormalPool(pool, isIP) ==> r.Some? && Served(r.value, Keys(items), pool)
    ensures pool != [] && Ready(stored, items, pool, isIP) ==> r.Some? && Good(r.value, Keys(items), pool)
    ensures pool != [] && Ready(stored, items, pool, isIP) && Good(stored, Keys(items), pool) ==>
      (r == Some(Settled(stored, items, pool, |items|)) && (changed <==> r.value != stored))
  {
    hide Normal, NormalPool, Canon, Lower, Satisfied, PoolNames, LowerPool, DistinctKeys, Pinned, Roomy, Served, Filled;
    if |pool| == 0 { return Some(stored), false; }
    ghost var ready := Ready(stored, items, pool, isIP);
    if NormalPool(pool, isIP) { NormalPoolIsLower(pool, isIP); }
    var A, used, filled := Reserve(stored, items, pool);
    var placed, moved := AssignAll(A, used, filled, items, pool, isIP, random, mint);
    if placed.None? { return None, false; }
    PrunedIsServed(placed.value, items, pool);
    var B: Assignments;
    B, changed := Prune(placed.value, items, moved);
    if ready {
      PrunedIsGood(stored, placed.value, items, pool);
    }
    r := Some(B);
  }

  lemma PrunedIsServed(A: Assignments, items: seq<Need>, pool: seq<Endpoint>)
    requires Keys(items) <= A.Keys
    ensures var B := map k | k in A && k in Keys(items) :: A[k];
      B.Keys == Keys(items) && (Served(A, Keys(items), pool) ==> Served(B, Keys(items), pool))
  {
    hide Usable;
  }

  lemma PrunedIsGood(stored: Assignments, A: Assignments, items: seq<Need>, pool: seq<Endpoint>)
    requires Sound(A, Keys(items), pool) && Processed(stored, A, items, pool, |items|)
    ensures Good(map k | k in A && k in Keys(items) :: A[k], Keys(items), pool)
    ensures A.Keys == Keys(items) ==> (map k | k in A && k in Keys(items) :: A[k]) == A
  {
    hide InPool, Complete, Name, PoolNames;
  }

  // ---- convergence ----

  /** An inbound that can still move: it has a pinned name other than its own that is offered and that no other has. */
  ghost predicate CanMove(A: Assignments, items: seq<Need>, pool: seq<Endpoint>, n: nat)
    requires n < |items| && items[n].key in A
  {
    && items[n].prefer != "" && Lower(A[items[n].key].sni) != items[n].prefer
    && (exists i :: 0 <= i < |pool| && Lower(pool[i].sni) == items[n].prefer)
    && forall k :: k in Keys(items) && k in A && k != items[n].key ==> Lower(A[k].sni) != items[n].prefer
  }

  lemma MovesWhenItCan(A: Assignments, items: seq<Need>, pool: seq<Endpoint>, n: nat)
    requires n < |items| && DistinctKeys(items) && Pinned(items) && LowerPool(pool) && Keys(items) <= A.Keys && items[n].key in A
    ensures Move(A, Keys(items), items[n], pool) != A <==> CanMove(A, items, pool, n)
  {
    hide Canon, Lower, DistinctKeys, LowerPool;
    ItemInputs(items, n);
    var found := FindBySNI(pool, items[n].prefer);
    if found.Some? && items[n].prefer != "" && Name(A[items[n].key]) != items[n].prefer {
      FoundEndpoint(pool, items[n].prefer, found.value);
      assert Lower(found.value.sni) == items[n].prefer;
      assert Lower(Repin(A[items[n].key], found.value).sni) != Lower(A[items[n].key].sni);
    }
  }

  /** If a call changes nothing, no inbound has moved at any point of it. */
  lemma {:induction false} NothingMoved(A: Assignments, items: seq<Need>, pool: seq<Endpoint>, n: nat, m: nat)
    requires n <= m <= |items| && DistinctKeys(items) && Pinned(items) && LowerPool(pool) && Keys(items) <= A.Keys
    requires Settled(A, items, pool, m) == A
    ensures Settled(A, items, pool, n) == A
    decreases m - n
  {
    hide Move, Settled, Satisfied, Pinned, LowerPool, DistinctKeys;
    if n < m {
      var B := Settled(A, items, pool, m - 1);
      SettledKeeps(A, items, pool, m - 1);
      assert items[m - 1].key in Keys(items);
      MoveSatisfies(B, items, pool, m - 1);
      SettledLast(A, items, pool, m);
      NothingMoved(A, items, pool, n, m - 1);
    }
  }

  /** A further call changes nothing exactly when no inbound can move. */
  lemma {:induction false} StableWhenNobodyCanMove(A: Assignments, items: seq<Need>, pool: seq<Endpoint>)
    requires DistinctKeys(items) && Pinned(items) && LowerPool(pool) && Keys(items) <= A.Keys
    ensures Again(A, items, pool) == A <==> forall n: nat :: n < |items| && items[n].key in A ==> !CanMove(A, items, pool, n)
  {
    hide Move, Settled, Pinned, LowerPool, DistinctKeys, CanMove;
    if Again(A, items, pool) == A {
      forall n: nat | n < |items| && items[n].key in A ensures !CanMove(A, items, pool, n) {
        NothingMoved(A, items, pool, n, |items|);
        NothingMoved(A, items, pool, n + 1, |items|);
        SettledLast(A, items, pool, n + 1);
        MovesWhenItCan(A, items, pool, n);
      }
    } else if forall n: nat :: n < |items| && items[n].key in A ==> !CanMove(A, items, pool, n) {
      NobodyMoves(A, items, pool, |items|);
    }
  }

  lemma {:induction false} NobodyMoves(A: Assignments, items: seq<Need>, pool: seq<Endpoint>, n: nat)
    requires n <= |items| && DistinctKeys(items) && Pinned(items) && LowerPool(pool) && Keys(items) <= A.Keys
    requires forall k: nat :: k < |items| && items[k].key in A ==> !CanMove(A, items, pool, k)
    ensures Settled(A, items, pool, n) == A
  {
    hide Move, Settled, Pinned, LowerPool, DistinctKeys, CanMove;
    if n == 0 {
      SettledZero(A, items, pool);
    } else {
      NobodyMoves(A, items, pool, n - 1);
      assert items[n - 1].key in Keys(items);
      SettledLast(A, items, pool, n);
      MovesWhenItCan(A, items, pool, n - 1);
    }
  }

  lemma {:induction false} SettledKeeps(A: Assignments, items: seq<Need>, pool: seq<Endpoint>, n: nat)
    requires n <= |items| && DistinctKeys(items) && Pinned(items) && LowerPool(pool) && Keys(items) <= A.Keys
    ensures SameSecrets(A, Settled(A, items, pool, n))
    ensures forall i :: 0 <= i < |items| && items[i].key in A && Name(A[items[i].key]) == items[i].prefer ==>
      Settled(A, items, pool, n)[items[i].key] == A[items[i].key]
    ensures Satisfied(A, items) <= Satisfied(Settled(A, items, pool, n), items)
    ensures Settled(A, items, pool, n) != A ==> Satisfied(A, items) < Satisfied(Settled(A, items, pool, n), items)
  {
    hide Move, Name, Settled, Satisfied, Pinned, LowerPool, DistinctKeys;
    if n == 0 {
      SettledZero(A, items, pool);
    } else {
      var B := Settled(A, items, pool, n - 1);
      SettledKeeps(A, items, pool, n - 1);
      assert items[n - 1].key in Keys(items);
      MoveProgress(B, items, pool, n - 1);
      MoveSatisfies(B, items, pool, n - 1);
      SettledLast(A, items, pool, n);
      forall i | 0 <= i < |items| && items[i].key in A && Name(A[items[i].key]) == items[i].prefer
        ensures Settled(A, items, pool, n)[items[i].key] == A[items[i].key]
      {
        assert B[items[i].key] == A[items[i].key];
        SameKeySameItem(items, i, n - 1);
      }
    }
  }

  lemma SameKeySameItem(items: seq<Need>, i: nat, j: nat)
    requires DistinctKeys(items) && i < |items| && j < |items|
    ensures items[i].key == items[j].key ==> i == j
  {
  }

  lemma SettledZero(A: Assignments, items: seq<Need>, pool: seq<Endpoint>)
    requires Keys(items) <= A.Keys
    ensures Settled(A, items, pool, 0) == A
  {
  }

  lemma SettledLast(A: Assignments, items: seq<Need>, pool: seq<Endpoint>, n: nat)
    requires 0 < n <= |items| && Keys(items) <= A.Keys && items[n - 1].key in A
    ensures Settled(A, items, pool, n) == Move(Settled(A, items, pool, n - 1), Keys(items), items[n - 1], pool)
  {
  }

  /** A move keeps the order that the marks describe. */
  lemma MoveKeepsOrder(A: Assignments, needed: set<string>, pool: seq<Endpoint>, used: map<string, string>, isIP: string -> bool, it: Need)
    returns (used2: map<string, string>)
    requires Ordered(A, needed, pool, used, isIP) && it.key in A && it.key in needed && Canon(it.prefer) == it.prefer
    ensures Ordered(Move(A, needed, it, pool), needed, pool, used2, isIP)
  {
    hide Ordered, Canon, NameFree, Lower;
    MoveGuard(A, needed, pool, used, isIP, it);
    used2 := used;
    var B := Move(A, needed, it, pool);
    if B != A {
      var found := FindBySNI(pool, it.prefer);
      MoveOrdered(A, needed, pool, used, isIP, it.key, found.value);
      used2 := Remark(A, used, it.key, B[it.key]);
    }
  }

  ghost predicate HasName(A: Assignments, needed: set<string>, k: string, name: string) {
    k in needed && k in A && Name(A[k]) == name
  }

  ghost function KeyOf(A: Assignments, needed: set<string>, name: string): string
    requires exists k :: HasName(A, needed, k, name)
  {
    var k :| HasName(A, needed, k, name);
    k
  }

  ghost function Inverse(A: Assignments, needed: set<string>): map<string, string>
    requires needed <= A.Keys
  {
    map name | name in (set k | k in needed :: Name(A[k])) && (exists k :: HasName(A, needed, k, name)) :: KeyOf(A, needed, name)
  }

  lemma InverseMarks(A: Assignments, needed: set<string>, pool: seq<Endpoint>)
    requires Good(A, needed, pool)
    ensures Marks(A, needed, pool, Inverse(A, needed))
  {
    hide Name, InPool, Complete, PoolNames;
    forall k | k in needed ensures Name(A[k]) in Inverse(A, needed) && Inverse(A, needed)[Name(A[k])] == k {
      assert HasName(A, needed, k, Name(A[k]));
    }
  }

  lemma ItemInputs(items: seq<Need>, n: nat)
    requires n < |items| && Pinned(items)
    ensures items[n].key in Keys(items) && Canon(items[n].prefer) == items[n].prefer
  {
    hide Canon;
  }

  lemma {:induction false} SettledOrdered(A: Assignments, items: seq<Need>, pool: seq<Endpoint>, start: map<string, string>,
                                          isIP: string -> bool, n: nat)
    returns (used: map<string, string>)
    requires n <= |items| && Pinned(items) && Keys(items) <= A.Keys && Ordered(A, Keys(items), pool, start, isIP)
    ensures Ordered(Settled(A, items, pool, n), Keys(items), pool, used, isIP)
  {
    hide Ordered, Settled, Move, Canon, Pinned, Keys;
    if n == 0 {
      SettledZero(A, items, pool);
      used := start;
    } else {
      used := SettledOrdered(A, items, pool, start, isIP, n - 1);
      ItemInputs(items, n - 1);
      SettledLast(A, items, pool, n);
      used := MoveKeepsOrder(Settled(A, items, pool, n - 1), Keys(items), pool, used, isIP, items[n - 1]);
    }
  }

  lemma MakeOrdered(A: Assignments, needed: set<string>, pool: seq<Endpoint>, used: map<string, string>, isIP: string -> bool)
    requires Sound(A, needed, pool) && Marks(A, needed, pool, used) && LowerPool(pool) && Roomy(needed, pool)
    requires forall ep :: ep in pool ==> Normal(ep, isIP)
    ensures Ordered(A, needed, pool, used, isIP)
  {
  }

  lemma {:induction false} SettledInPool(A: Assignments, items: seq<Need>, pool: seq<Endpoint>, n: nat)
    requires n <= |items| && Keys(items) <= A.Keys && forall k :: k in A ==> InPool(A[k], pool)
    ensures forall k :: k in A ==> InPool(Settled(A, items, pool, n)[k], pool)
  {
    hide Settled, Move, InPool;
    if n == 0 {
      SettledZero(A, items, pool);
    } else {
      SettledInPool(A, items, pool, n - 1);
      assert items[n - 1].key in Keys(items);
      SettledLast(A, items, pool, n);
      MoveInPool(Settled(A, items, pool, n - 1), Keys(items), items[n - 1], pool);
    }
  }

  /** A good state stays good under further calls, so EachCallConverges applies to all of them. */
  lemma GoodStaysGood(A: Assignments, items: seq<Need>, pool: seq<Endpoint>, isIP: string -> bool)
    requires Ready(A, items, pool, isIP) && Good(A, Keys(items), pool)
    ensures Good(Again(A, items, pool), Keys(items), pool) && Ready(Again(A, items, pool), items, pool, isIP)
  {
    NormalPoolIsLower(pool, isIP);
    InverseMarks(A, Keys(items), pool);
    MakeOrdered(A, Keys(items), pool, Inverse(A, Keys(items)), isIP);
    var used := SettledOrdered(A, items, pool, Inverse(A, Keys(items)), isIP, |items|);
    SettledInPool(A, items, pool, |items|);
    OrderedParts(Again(A, items, pool), Keys(items), pool, used, isIP);
    hide InPool, Sound, NormalPool, Settled, Pinned, DistinctKeys, Roomy, Inverse, Ordered, LowerPool, Normal;
  }

  /** One call on a good state, sets and pool unchanged. */
  ghost function Again(A: Assignments, items: seq<Need>, pool: seq<Endpoint>): Assignments
    requires Keys(items) <= A.Keys
  {
    Settled(A, items, pool, |items|)
  }

  /** The state after `c` further calls. */
  ghost function After(A: Assignments, items: seq<Need>, pool: seq<Endpoint>, c: nat): (r: Assignments)
    requires Keys(items) <= A.Keys
    ensures r.Keys == A.Keys
  {
    if c == 0 then A else Again(After(A, items, pool, c - 1), items, pool)
  }

  /** How many of the next `c` calls report a change. */
  ghost function Changes(A: Assignments, items: seq<Need>, pool: seq<Endpoint>, c: nat): nat
    requires Keys(items) <= A.Keys
  {
    if c == 0 then 0
    else Changes(A, items, pool, c - 1) + if After(A, items, pool, c) != After(A, items, pool, c - 1) then 1 else 0
  }

  /**
   * Each further call either changes nothing or puts at least one more inbound on its
   * pinned name; a satisfied inbound never moves, and no inbound ever gets new secrets.
   */
  lemma EachCallConverges(A: Assignments, items: seq<Need>, pool: seq<Endpoint>)
    requires DistinctKeys(items) && Pinned(items) && LowerPool(pool) && Keys(items) <= A.Keys
    ensures var B := Again(A, items, pool);
            && SameSecrets(A, B)
            && (forall i :: 0 <= i < |items| && items[i].key in A && Name(A[items[i].key]) == items[i].prefer ==> B[items[i].key] == A[items[i].key])
            && (B == A || Satisfied(A, items) < Satisfied(B, items))
  {
    SettledKeeps(A, items, pool, |items|);
  }

  lemma ProperSubsetSize(a: set<string>, b: set<string>)
    requires a < b
    ensures |a| < |b|
  {
    assert b == a + (b - a);
  }

  lemma {:induction false} ChangesBound(A: Assignments, items: seq<Need>, pool: seq<Endpoint>, c: nat)
    requires DistinctKeys(items) && Pinned(items) && LowerPool(pool) && Keys(items) <= A.Keys
    ensures Changes(A, items, pool, c) <= |Satisfied(After(A, items, pool, c), items)|
  {
    hide Satisfied, Again, DistinctKeys, Pinned, LowerPool;
    if c > 0 {
      var B := After(A, items, pool, c - 1);
      ChangesBound(A, items, pool, c - 1);
      EachCallConverges(B, items, pool);
      if Again(B, items, pool) != B {
        ProperSubsetSize(Satisfied(B, items), Satisfied(Again(B, items, pool), items));
      }
    }
  }

  lemma {:induction false} KeyCount(items: seq<Need>)
    ensures |Keys(items)| <= |items|
  {
    if items != [] {
      var n := |items| - 1;
      KeyCount(items[..n]);
      assert Keys(items) == Keys(items[..n]) + {items[n].key} by {
        assert items == items[..n] + [items[n]];
        forall k | k in Keys(items[..n]) + {items[n].key} ensures k in Keys(items) {
          if k != items[n].key {
            var i :| 0 <= i < n && items[..n][i].key == k;
            assert items[i].key == k;
          }
        }
      }
    }
  }

  /** However often the call is repeated, at most as many calls as there are inbounds change anything. */
  lemma AtMostOneChangePerInbound(A: Assignments, items: seq<Need>, pool: seq<Endpoint>, c: nat)
    requires DistinctKeys(items) && Pinned(items) && LowerPool(pool) && Keys(items) <= A.Keys
    ensures Changes(A, items, pool, c) <= |items|
  {
    ChangesBound(A, items, pool, c);
    var B := After(A, items, pool, c);
    assert Satisfied(B, items) <= Keys(items);
    SubsetSize(Satisfied(B, items), Keys(items));
    KeyCount(items);
  }
}
