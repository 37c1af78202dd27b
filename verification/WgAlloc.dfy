/** Sticky WireGuard host indices and credentials (internal/controlplane/wg.go). */
module WgAlloc {
  import opened Basics

  const MIN_INDEX := 2
  const MAX_INDEX := 254

  /** A stored wg_host_index as decoded from JSON. */
  datatype RawIndex = Absent | Number(n: int) | Fraction | Text(parsed: Option<int>)

  /** hostIndexFromAny */
  function HostIndex(v: RawIndex): Option<int> {
    match v
    case Number(n) => Some(n)
    case Text(p) => p
    case _ => None
  }

  /** The effective WireGuard credentials of a user; "" is an empty field, `mirrored` that every alias has them. */
  datatype User = User(
    name: string,
    index: RawIndex,
    priv: string,
    pub: string,
    address: string,
    pathology: string,
    mirrored: bool
  )

  /**
   * The calls that leave this file: key normalisation and derivation (None is their
   * error), random keys, the tunnel address of an index, and the hub's PSK.
   */
  datatype Env = Env(
    norm: string -> Option<string>,
    derive: string -> Option<string>,
    randomKey: nat -> string,
    address: int -> Option<string>,
    hostOnly: string -> string,
    hubKey: string
  )

  /** Normalising is idempotent, generated and derived keys are normal, and a bare address stays bare. */
  ghost predicate Sane(env: Env) {
    && (forall k :: env.norm(k).Some? ==> env.norm(env.norm(k).value) == env.norm(k) && env.norm(k).value != "")
    && (forall n :: env.randomKey(n) != "" && env.norm(env.randomKey(n)) == Some(env.randomKey(n)))
    && (forall k :: env.derive(k).Some? ==> env.derive(k).value != "" && env.norm(env.derive(k).value) == env.derive(k))
    && (forall i :: env.address(i).Some? ==> env.hostOnly(env.address(i).value) == env.address(i).value)
  }

  datatype Failure = OutOfRange | PeerConflict | BadKey | PoolExhausted

  datatype Result = Done(users: seq<User>, changed: bool) | Failed(why: Failure)

  // ---- free indices ----

  predicate InRange(i: int) {
    MIN_INDEX <= i <= MAX_INDEX
  }

  /** The indices from `lo` up that are not taken, in ascending order. */
  function FreeFrom(used: set<int>, lo: int): seq<int>
    requires MIN_INDEX <= lo
    decreases MAX_INDEX + 1 - lo
  {
    if lo > MAX_INDEX then []
    else if lo in used then FreeFrom(used, lo + 1)
    else [lo] + FreeFrom(used, lo + 1)
  }

  function Free(used: set<int>): seq<int> {
    FreeFrom(used, MIN_INDEX)
  }

  /** It lists exactly the untaken indices, each once, in ascending order. */
  lemma {:induction false} FreeFromLists(used: set<int>, lo: int)
    requires MIN_INDEX <= lo
    ensures forall x :: x in FreeFrom(used, lo) <==> lo <= x <= MAX_INDEX && x !in used
    ensures forall i, j :: 0 <= i < j < |FreeFrom(used, lo)| ==> FreeFrom(used, lo)[i] < FreeFrom(used, lo)[j]
    decreases MAX_INDEX + 1 - lo
  {
    if lo <= MAX_INDEX {
      FreeFromLists(used, lo + 1);
      var rest := FreeFrom(used, lo + 1);
      if lo !in used {
        var all := [lo] + rest;
        assert FreeFrom(used, lo) == all;
        forall i, j | 0 <= i < j < |all| ensures all[i] < all[j] {
          assert all[j] == rest[j - 1] && rest[j - 1] in rest;
        }
      }
    }
  }

  lemma {:induction false} FreeFromSkips(used: set<int>, lo: int, taken: int)
    requires MIN_INDEX <= lo && taken < lo
    ensures FreeFrom(used + {taken}, lo) == FreeFrom(used, lo)
    decreases MAX_INDEX + 1 - lo
  {
    if lo <= MAX_INDEX {
      FreeFromSkips(used, lo + 1, taken);
      assert lo in used + {taken} <==> lo in used;
    }
  }

  /** Taking the smallest free index leaves the others in their order. */
  lemma {:induction false} TakeSmallest(used: set<int>, lo: int)
    requires MIN_INDEX <= lo && FreeFrom(used, lo) != []
    ensures FreeFrom(used + {FreeFrom(used, lo)[0]}, lo) == FreeFrom(used, lo)[1..]
    decreases MAX_INDEX + 1 - lo
  {
    if lo in used {
      TakeSmallest(used, lo + 1);
      var x := FreeFrom(used, lo + 1)[0];
      assert lo in used + {x};
    } else {
      FreeFromSkips(used, lo + 1, lo);
      assert FreeFrom(used, lo) == [lo] + FreeFrom(used, lo + 1);
      assert lo in used + {lo};
    }
  }

  /** allocWgHostIndex: the smallest index not in use. */
  method Allocate(used: map<int, string>) returns (r: Option<int>)
    ensures r == if Free(used.Keys) == [] then None else Some(Free(used.Keys)[0])
    ensures r.None? <==> forall i :: 2 <= i <= 254 ==> i in used
    ensures r.Some? ==> 2 <= r.value <= 254 && r.value !in used && forall i :: 2 <= i < r.value ==> i in used
  {
    hide FreeFrom;
    var i := MIN_INDEX;
    while i <= MAX_INDEX
      invariant MIN_INDEX <= i <= MAX_INDEX + 1
      invariant Free(used.Keys) == FreeFrom(used.Keys, i)
      invariant forall j :: 2 <= j < i ==> j in used
    {
      FreeFromHead(used.Keys, i);
      if i !in used { return Some(i); }
      i := i + 1;
    }
    FreeFromEnd(used.Keys, i);
    return None;
  }

  lemma FreeFromHead(used: set<int>, lo: int)
    requires MIN_INDEX <= lo <= MAX_INDEX
    ensures lo in used ==> FreeFrom(used, lo) == FreeFrom(used, lo + 1)
    ensures lo !in used ==> FreeFrom(used, lo) != [] && FreeFrom(used, lo)[0] == lo
  {
  }

  lemma FreeFromEnd(used: set<int>, lo: int)
    requires lo > MAX_INDEX
    ensures FreeFrom(used, lo) == []
  {
  }

  // ---- first pass: reserve what is stored ----

  function Indices(users: seq<User>): set<int> {
    set i | 0 <= i < |users| && HostIndex(users[i].index).Some? :: HostIndex(users[i].index).value
  }

  ghost predicate StoredInRange(users: seq<User>) {
    forall i :: 0 <= i < |users| && HostIndex(users[i].index).Some? ==> InRange(HostIndex(users[i].index).value)
  }

  ghost predicate StoredDistinct(users: seq<User>) {
    forall i, j :: 0 <= i < j < |users| && HostIndex(users[i].index).Some? ==> HostIndex(users[i].index) != HostIndex(users[j].index)
  }

  method Reserve(users: seq<User>) returns (used: map<int, string>, err: Option<Failure>)
    ensures err.None? <==> StoredInRange(users) && StoredDistinct(users)
    ensures err.None? ==> used.Keys == Indices(users)
    ensures err.Some? ==> (err.value == OutOfRange && !StoredInRange(users)) || (err.value == PeerConflict && !StoredDistinct(users))
  {
    used, err := map[], None;
    for n := 0 to |users|
      invariant err.None? && used.Keys == Indices(users[..n])
      invariant StoredInRange(users[..n]) && StoredDistinct(users[..n])
    {
      var v := HostIndex(users[n].index);
      assert users[..n + 1] == users[..n] + [users[n]];
      if v.Some? {
        if !InRange(v.value) {
          assert !StoredInRange(users);
          return used, Some(OutOfRange);
        }
        if v.value in used {
          var j :| 0 <= j < n && HostIndex(users[..n][j].index) == v;
          assert HostIndex(users[j].index) == HostIndex(users[n].index);
          return used, Some(PeerConflict);
        }
        used := used[v.value := users[n].name];
      }
      IndicesGrow(users, n);
    }
    assert users[..|users|] == users;
  }

  lemma IndicesGrow(users: seq<User>, n: nat)
    requires n < |users|
    ensures Indices(users[..n + 1]) ==
      Indices(users[..n]) + if HostIndex(users[n].index).Some? then {HostIndex(users[n].index).value} else {}
  {
    var a, b := users[..n], users[..n + 1];
    assert b[n] == users[n] && forall i :: 0 <= i < n ==> a[i] == b[i];
    forall x | x in Indices(a) ensures x in Indices(b) {
      var i :| 0 <= i < |a| && HostIndex(a[i].index) == Some(x);
      assert HostIndex(b[i].index) == Some(x);
    }
    if HostIndex(users[n].index).Some? {
      assert HostIndex(b[n].index).value in Indices(b);
    }
  }

  // ---- second pass ----

  /** The keys a user ends up with; None when they cannot be normalised or derived. */
  function EnsureKeys(u: User, env: Env, salt: nat): Option<(string, string)> {
    var priv := if u.priv == "" then Some(env.randomKey(salt)) else env.norm(u.priv);
    if priv.None? then None
    else
      var pub := if priv.value != u.priv then "" else u.pub;
      if pub != "" && env.norm(pub).Some? then Some((priv.value, env.norm(pub).value))
      else
        var d := env.derive(priv.value);
        if d.None? then None else Some((priv.value, d.value))
  }

  function EnsureAddress(u: User, env: Env, idx: int): string {
    match env.address(idx)
    case Some(want) => if env.hostOnly(u.address) != want then want else u.address
    case None => u.address
  }

  /** The user after one iteration, on index `idx`. */
  function Ensured(u: User, env: Env, idx: int, keys: (string, string)): User {
    User(
      u.name,
      if HostIndex(u.index).Some? then u.index else Number(idx),
      keys.0,
      keys.1,
      EnsureAddress(u, env, idx),
      if u.pathology == "" then env.hubKey else u.pathology,
      true
    )
  }

  /** One iteration changed nothing worth saving. */
  predicate Untouched(u: User, env: Env, keys: (string, string)) {
    HostIndex(u.index).Some? && u.mirrored && keys == (u.priv, u.pub)
    && EnsureAddress(u, env, HostIndex(u.index).value) == u.address
    && (u.pathology == "" ==> env.hubKey == "")
  }

  /** The iteration on `u` can ensure its keys and changes nothing. */
  predicate Stays(u: User, env: Env, salt: nat) {
    EnsureKeys(u, env, salt).Some? && Untouched(u, env, EnsureKeys(u, env, salt).value)
  }

  /** How many of the first `n` users have no index yet. */
  function Missing(users: seq<User>, n: nat): nat
    requires n <= |users|
  {
    if n == 0 then 0 else Missing(users, n - 1) + if HostIndex(users[n - 1].index).None? then 1 else 0
  }

  lemma {:induction false} MissingMonotone(users: seq<User>, m: nat, n: nat)
    requires m <= n <= |users|
    ensures Missing(users, m) <= Missing(users, n)
  {
    if m < n {
      MissingMonotone(users, m, n - 1);
    }
  }

  /** The index user `n` must get: its own, or the one of the free indices whose turn it is in list order. */
  function IndexFor(users: seq<User>, n: nat, free: seq<int>): int
    requires n < |users| && Missing(users, n + 1) <= |free|
  {
    if HostIndex(users[n].index).Some? then HostIndex(users[n].index).value
    else free[Missing(users, n)]
  }

  ghost predicate KeysFine(users: seq<User>, env: Env) {
    forall i :: 0 <= i < |users| ==> EnsureKeys(users[i], env, i).Some?
  }

  /** The whole result on users whose stored indices are in order and whose keys can be ensured. */
  ghost predicate Allocated(users: seq<User>, out: seq<User>, env: Env, n: nat, free: seq<int>)
    requires n <= |users|
  {
    |out| == n && forall i :: 0 <= i < n ==> Served(users, out[i], env, i, free)
  }

  /** What user `i` becomes. */
  ghost predicate Served(users: seq<User>, v: User, env: Env, i: nat, free: seq<int>)
    requires i < |users|
  {
    Missing(users, i + 1) <= |free| && EnsureKeys(users[i], env, i).Some? &&
    v == Ensured(users[i], env, IndexFor(users, i, free), EnsureKeys(users[i], env, i).value)
  }

  lemma NothingAllocated(users: seq<User>, env: Env, free: seq<int>)
    ensures Allocated(users, [], env, 0, free)
  {
  }

  lemma AllocatedGrows(users: seq<User>, out: seq<User>, env: Env, n: nat, free: seq<int>, idx: int, keys: (string, string))
    requires n < |users| && Missing(users, n + 1) <= |free| && Allocated(users, out, env, n, free)
    requires EnsureKeys(users[n], env, n) == Some(keys) && idx == IndexFor(users, n, free)
    ensures Allocated(users, out + [Ensured(users[n], env, idx, keys)], env, n + 1, free)
  {
    var v := Ensured(users[n], env, idx, keys);
    assert Served(users, v, env, n, free);
    hide Served;
  }

  lemma FreeDrop(used: set<int>, base: set<int>, m: nat)
    requires m < |Free(base)| && Free(used) == Free(base)[m..]
    ensures Free(used) != [] && Free(used)[0] == Free(base)[m]
    ensures Free(used + {Free(base)[m]}) == Free(base)[m + 1..]
  {
    hide FreeFrom;
    TakeSmallest(used, MIN_INDEX);
  }

  /**
   * ensureWgUserCreds.  It fails for the stored indices exactly when they are out of
   * range or shared; otherwise, when no key is bad, it fails exactly when the free
   * indices are fewer than the users without one, and else every such user gets, in
   * list order, the next smallest free index.
   */
  method EnsureWgUsers(users: seq<User>, env: Env) returns (r: Result)
    ensures r == Failed(OutOfRange) || r == Failed(PeerConflict) <==> !(StoredInRange(users) && StoredDistinct(users))
    ensures (r == Failed(OutOfRange) ==> !StoredInRange(users)) && (r == Failed(PeerConflict) ==> !StoredDistinct(users))
    ensures r == Failed(PoolExhausted) ==> StoredInRange(users) && StoredDistinct(users) && |Free(Indices(users))| < Missing(users, |users|)
    ensures StoredInRange(users) && StoredDistinct(users) && KeysFine(users, env) ==>
      (if |Free(Indices(users))| < Missing(users, |users|) then r == Failed(PoolExhausted) else r.Done?)
    ensures r == Failed(BadKey) ==> !KeysFine(users, env)
    ensures r.Done? ==> Missing(users, |users|) <= |Free(Indices(users))| && Allocated(users, r.users, env, |users|, Free(Indices(users)))
    ensures r.Done? ==>
      (r.changed <==> exists i :: 0 <= i < |users| && !Stays(users[i], env, i))
    ensures r.Done? ==> (r.changed <==> r.users != users)
  {
    hide Free, EnsureKeys, Ensured, Untouched, Indices, Allocated;
    var used, err := Reserve(users);
    if err.Some? { return Failed(err.value); }
    ghost var base := Indices(users);
    NothingAllocated(users, env, Free(base));
    var out: seq<User>, changed := [], false;
    for n := 0 to |users|
      invariant Missing(users, n) <= |Free(base)|
      invariant Free(used.Keys) == Free(base)[Missing(users, n)..]
      invariant Allocated(users, out, env, n, Free(base))
      invariant changed <==> exists i :: 0 <= i < n && !Stays(users[i], env, i)
    {
      var u := users[n];
      var keys := EnsureKeys(u, env, n);
      if keys.None? { return Failed(BadKey); }
      var idx := HostIndex(u.index);
      if idx.None? {
        idx := Allocate(used);
        MissingMonotone(users, n + 1, |users|);
        if idx.None? { return Failed(PoolExhausted); }
        FreeDrop(used.Keys, base, Missing(users, n));
        assert used[idx.value := u.name].Keys == used.Keys + {idx.value};
        used := used[idx.value := u.name];
      }
      AllocatedGrows(users, out, env, n, Free(base), idx.value, keys.value);
      out := out + [Ensured(u, env, idx.value, keys.value)];
      if !Untouched(u, env, keys.value) {
        changed := true;
      }
    }
    r := Done(out, changed);
    ChangedMeansDifferent(users, out, env, Free(base));
  }

  // ---- what an allocation means ----

  /** The change flag of an iteration tells whether the user differs afterwards. */
  lemma StaysMeansSame(users: seq<User>, v: User, env: Env, i: nat, free: seq<int>)
    requires i < |users| && Served(users, v, env, i, free)
    ensures Stays(users[i], env, i) <==> v == users[i]
  {
    hide EnsureKeys, EnsureAddress, Missing;
  }

  lemma ChangedMeansDifferent(users: seq<User>, out: seq<User>, env: Env, free: seq<int>)
    requires Allocated(users, out, env, |users|, free)
    ensures out != users <==> exists i :: 0 <= i < |users| && !Stays(users[i], env, i)
  {
    hide Served, Stays;
    forall i: nat | i < |users| ensures Stays(users[i], env, i) <==> out[i] == users[i] {
      assert Served(users, out[i], env, i, free);
      StaysMeansSame(users, out[i], env, i, free);
    }
    if out != users {
      var i: nat :| i < |users| && out[i] != users[i];
      assert !Stays(users[i], env, i);
    }
  }

  /**
   * What a user ends up with: its stored index, or the one whose turn it is; its private
   * key in normal form, or a new one; its public key only while it still belongs to
   * the private one, else the derived one; and the tunnel address of its index.
   */
  lemma ServedUser(users: seq<User>, v: User, env: Env, i: nat, free: seq<int>)
    requires i < |users| && Served(users, v, env, i, free)
    ensures var u := users[i];
      && v.name == u.name && v.mirrored && v.pathology == (if u.pathology == "" then env.hubKey else u.pathology)
      && (u.index.Number? || (u.index.Text? && u.index.parsed.Some?) ==> v.index == u.index)
      && (u.index.Absent? || u.index.Fraction? || u.index == Text(None) ==> v.index == Number(free[Missing(users, i)]))
      && (u.priv != "" ==> Some(v.priv) == env.norm(u.priv)) && (u.priv == "" ==> v.priv == env.randomKey(i))
      && (v.priv == u.priv && u.pub != "" && env.norm(u.pub).Some? ==> Some(v.pub) == env.norm(u.pub))
      && (!(v.priv == u.priv && u.pub != "" && env.norm(u.pub).Some?) ==> Some(v.pub) == env.derive(v.priv))
    ensures var u := users[i];
      var idx := if u.index.Number? then u.index.n else if u.index.Text? && u.index.parsed.Some? then u.index.parsed.value else free[Missing(users, i)];
      v.address == if env.address(idx).Some? && env.hostOnly(u.address) != env.address(idx).value then env.address(idx).value else u.address
  {
    hide Missing;
  }

  /** A user's keys cannot be ensured exactly when its private key is malformed, or none can be derived where one is needed. */
  lemma BadKeys(u: User, env: Env, salt: nat)
    ensures EnsureKeys(u, env, salt).None? <==>
      if u.priv != "" && env.norm(u.priv).None? then true
      else
        var priv := if u.priv == "" then env.randomKey(salt) else env.norm(u.priv).value;
        (priv != u.priv || u.pub == "" || env.norm(u.pub).None?) && env.derive(priv).None?
  {
  }

  /** The turn of a user: how many users before it have no index. */
  lemma {:induction false} MissingCounts(users: seq<User>, n: nat)
    requires n <= |users|
    ensures Missing(users, n) == |set i | 0 <= i < n && HostIndex(users[i].index).None?|
  {
    if n > 0 {
      MissingCounts(users, n - 1);
      var before := set i | 0 <= i < n - 1 && HostIndex(users[i].index).None?;
      var all := set i | 0 <= i < n && HostIndex(users[i].index).None?;
      assert all == before + if HostIndex(users[n - 1].index).None? then {n - 1} else {};
    }
  }

  ghost predicate DistinctInRange(out: seq<User>) {
    && (forall i :: 0 <= i < |out| ==> HostIndex(out[i].index).Some? && InRange(HostIndex(out[i].index).value))
    && (forall i, j :: 0 <= i < j < |out| ==> HostIndex(out[i].index) != HostIndex(out[j].index))
  }

  lemma IndexForRange(users: seq<User>, n: nat, free: seq<int>)
    requires StoredInRange(users) && n < |users| && free == Free(Indices(users)) && Missing(users, n + 1) <= |free|
    ensures InRange(IndexFor(users, n, free))
    ensures HostIndex(users[n].index).Some? ==> IndexFor(users, n, free) in Indices(users)
    ensures HostIndex(users[n].index).None? ==> IndexFor(users, n, free) !in Indices(users)
  {
    FreeFromLists(Indices(users), MIN_INDEX);
    if HostIndex(users[n].index).None? {
      assert free[Missing(users, n)] in free;
    }
  }

  lemma Ascending(used: set<int>, i: nat, j: nat)
    requires i < j < |Free(used)|
    ensures Free(used)[i] < Free(used)[j]
  {
    FreeFromLists(used, MIN_INDEX);
  }

  lemma IndexForDistinct(users: seq<User>, i: nat, j: nat, free: seq<int>)
    requires StoredInRange(users) && StoredDistinct(users) && free == Free(Indices(users))
    requires i < j < |users| && Missing(users, j + 1) <= |free|
    ensures Missing(users, i + 1) <= |free| && IndexFor(users, i, free) != IndexFor(users, j, free)
  {
    hide Indices, Free;
    MissingMonotone(users, i + 1, j);
    MissingMonotone(users, i + 1, j + 1);
    IndexForRange(users, i, free);
    IndexForRange(users, j, free);
    if HostIndex(users[i].index).None? && HostIndex(users[j].index).None? {
      Ascending(Indices(users), Missing(users, i), Missing(users, j));
    }
  }

  /**
   * After a successful call all indices are in range and pairwise distinct, and every
   * index that was stored is kept.
   */
  lemma AllocationIsDistinct(users: seq<User>, out: seq<User>, env: Env)
    requires StoredInRange(users) && StoredDistinct(users)
    requires Missing(users, |users|) <= |Free(Indices(users))| && Allocated(users, out, env, |users|, Free(Indices(users)))
    ensures DistinctInRange(out) && forall i :: 0 <= i < |out| ==> 2 <= HostIndex(out[i].index).value <= 254
    ensures forall i :: 0 <= i < |users| && HostIndex(users[i].index).Some? ==> HostIndex(out[i].index) == HostIndex(users[i].index)
  {
    hide Indices, Free, EnsureKeys, EnsureAddress, Missing, StoredInRange, StoredDistinct;
    var free := Free(Indices(users));
    forall i | 0 <= i < |out|
      ensures HostIndex(out[i].index) == Some(IndexFor(users, i, free)) && InRange(HostIndex(out[i].index).value)
      ensures HostIndex(users[i].index).Some? ==> HostIndex(out[i].index) == HostIndex(users[i].index)
    {
      assert Served(users, out[i], env, i, free);
      IndexForRange(users, i, free);
    }
    forall i, j | 0 <= i < j < |out| ensures HostIndex(out[i].index) != HostIndex(out[j].index) {
      assert Served(users, out[j], env, j, free);
      IndexForDistinct(users, i, j, free);
    }
  }

  lemma KeysSettle(u: User, env: Env, salt: nat, salt2: nat, idx: int)
    requires Sane(env) && EnsureKeys(u, env, salt).Some?
    ensures var k := EnsureKeys(u, env, salt).value;
            EnsureKeys(Ensured(u, env, idx, k), env, salt2) == Some(k)
  {
  }

  lemma UserSettles(u: User, env: Env, salt: nat, salt2: nat, idx: int)
    requires Sane(env) && EnsureKeys(u, env, salt).Some? && (HostIndex(u.index).Some? ==> HostIndex(u.index).value == idx)
    ensures var v := Ensured(u, env, idx, EnsureKeys(u, env, salt).value);
            Stays(v, env, salt2)
  {
    KeysSettle(u, env, salt, salt2, idx);
    hide EnsureKeys;
  }

  /** An immediate second call succeeds and reports no change. */
  method SecondCall(users: seq<User>, env: Env) returns (first: Result, second: Result)
    requires Sane(env)
    ensures first.Done? ==> second.Done? && !second.changed
  {
    hide Untouched, EnsureKeys, Indices, Free, Ensured;
    first := EnsureWgUsers(users, env);
    if first.Failed? { return first, first; }
    AllocationIsDistinct(users, first.users, env);
    SettledAfterFirst(users, first.users, env);
    second := EnsureWgUsers(first.users, env);
  }

  lemma {:induction false} NoneMissing(out: seq<User>, n: nat)
    requires n <= |out| && DistinctInRange(out)
    ensures Missing(out, n) == 0
  {
    if n > 0 {
      NoneMissing(out, n - 1);
    }
  }

  lemma SettledAfterFirst(users: seq<User>, out: seq<User>, env: Env)
    requires Sane(env) && DistinctInRange(out)
    requires Allocated(users, out, env, |users|, Free(Indices(users)))
    ensures StoredInRange(out) && StoredDistinct(out) && KeysFine(out, env) && Missing(out, |out|) == 0
    ensures forall i :: 0 <= i < |out| ==> Stays(out[i], env, i)
  {
    hide Untouched, EnsureKeys, Indices, Free, Ensured, Sane;
    NoneMissing(out, |out|);
    forall i | 0 <= i < |out| ensures Stays(out[i], env, i) {
      assert Served(users, out[i], env, i, Free(Indices(users)));
      UserSettles(users[i], env, i, i, IndexFor(users, i, Free(Indices(users))));
    }
  }
}
