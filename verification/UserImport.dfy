/** The user import loop and its two index maps (internal/controlplane/users_sync.go). */
module UserImport {
  import opened Basics
  import Decimal

  /** The profile fields an import may set and that play no part in matching. */
  type Profile = nat

  datatype User = User(
    name: string,
    syncId: string,
    revision: nat,
    deletedAt: Option<nat>,
    enabled: bool,
    profile: Profile
  )

  datatype Stamp = NoStamp | BadStamp | At(time: nat)

  /** One record of the batch, its strings trimmed; `local` is its resolved sync mode being local. */
  datatype Record = Record(syncId: string, name: string, revision: nat, deletedAt: Stamp, local: bool, enabled: Option<bool>, profile: Profile)

  datatype OnConflict = Reject | Rename | Unknown

  /**
   * The parts of an import that are not in the loop: the policies, the profile
   * merge and the creation of a profile (None is their error), and the random
   * tokens, which differ from everything in use.
   */
  datatype Env = Env(
    onConflict: OnConflict,
    applyTombstones: bool,
    reserved: string,
    merge: (Profile, Record) -> Option<Profile>,
    create: Record -> Option<Profile>,
    tokenName: set<string> -> string,
    tokenSync: set<string> -> string
  )

  ghost predicate FreshTokens(env: Env) {
    && (forall used :: env.tokenName(used) !in used)
    && (forall used :: env.tokenSync(used) !in used && env.tokenSync(used) != "")
  }

  datatype Counts = Counts(created: nat, updated: nat, skipped: nat, tombstoned: nat)

  datatype State = State(users: seq<User>, bySync: map<string, nat>, byName: map<string, nat>, counts: Counts)

  // ---- names ----

  function Suffixed(base: string, i: nat): string {
    base + " " + Decimal.Render(i)
  }

  lemma SuffixedInjective(base: string, i: nat, j: nat)
    requires Suffixed(base, i) == Suffixed(base, j)
    ensures i == j
  {
    assert Suffixed(base, i)[|base| + 1..] == Decimal.Render(i);
    assert Suffixed(base, j)[|base| + 1..] == Decimal.Render(j);
    Decimal.RenderInjective(i, j);
  }

  /** As many taken suffixes as have been tried. */
  lemma {:induction false} TriedBound(base: string, taken: set<string>, k: nat)
    requires forall j :: 2 <= j < k + 2 ==> Suffixed(base, j) in taken
    ensures k <= |taken|
    decreases k
  {
    if k > 0 {
      var last := Suffixed(base, k + 1);
      forall j | 2 <= j < k + 1 ensures Suffixed(base, j) in taken - {last} {
        if Suffixed(base, j) == last {
          SuffixedInjective(base, j, k + 1);
        }
      }
      TriedBound(base, taken - {last}, k - 1);
    }
  }

  ghost predicate FirstFree(base: string, taken: set<string>, k: nat) {
    2 <= k && Suffixed(base, k) !in taken && forall j :: 2 <= j < k ==> Suffixed(base, j) in taken
  }

  lemma FirstFreeUnique(base: string, taken: set<string>, j: nat, k: nat)
    requires FirstFree(base, taken, j) && FirstFree(base, taken, k)
    ensures j == k
  {
  }

  lemma {:induction false} FirstFreeExists(base: string, taken: set<string>, tried: nat) returns (k: nat)
    requires 2 <= tried && forall j :: 2 <= j < tried ==> Suffixed(base, j) in taken
    ensures FirstFree(base, taken, k)
    decreases |taken| + 3 - tried
  {
    TriedBound(base, taken, tried - 2);
    if Suffixed(base, tried) !in taken {
      k := tried;
    } else {
      TriedBound(base, taken, tried - 1);
      k := FirstFreeExists(base, taken, tried + 1);
    }
  }

  lemma SomeFree(base: string, taken: set<string>)
    ensures exists k :: FirstFree(base, taken, k)
  {
    var k := FirstFreeExists(base, taken, 2);
  }

  ghost function UniqueName(base: string, taken: set<string>): (name: string)
    ensures name !in taken
  {
    SomeFree(base, taken);
    var k :| FirstFree(base, taken, k);
    Suffixed(base, k)
  }

  /** uniqueImportName: the smallest free suffix from 2 on, found within |byName|+1 tries. */
  method UniqueImportName(base: string, byName: map<string, nat>) returns (name: string)
    ensures name == UniqueName(base, byName.Keys)
    ensures name !in byName
    ensures exists i :: 2 <= i <= |byName.Keys| + 2 && name == base + " " + Decimal.Render(i) == Suffixed(base, i)
  {
    var i := 2;
    while Suffixed(base, i) in byName
      invariant 2 <= i && forall j :: 2 <= j < i ==> Suffixed(base, j) in byName.Keys
      decreases |byName.Keys| + 3 - i
    {
      TriedBound(base, byName.Keys, i - 1);
      i := i + 1;
    }
    TriedBound(base, byName.Keys, i - 2);
    name := Suffixed(base, i);
    assert name == base + " " + Decimal.Render(i);
    assert FirstFree(base, byName.Keys, i);
    forall k | FirstFree(base, byName.Keys, k) ensures k == i {
      FirstFreeUnique(base, byName.Keys, i, k);
    }
  }

  // ---- one record ----

  /** What the loop does with a record whose sync id is known. */
  datatype Verdict = Skip | Tombstone(at: nat) | Update

  function Judge(u: User, r: Record, env: Env): Verdict {
    if r.revision > 0 && r.revision <= u.revision && r.deletedAt.NoStamp? then Skip
    else if r.deletedAt.At? && env.applyTombstones then Tombstone(r.deletedAt.time)
    else Update
  }

  function Bumped(u: User, r: Record): nat {
    if r.revision > u.revision then r.revision else u.revision + 1
  }

  function Matched(st: State, r: Record): bool {
    r.syncId != "" && r.syncId in st.bySync && st.bySync[r.syncId] < |st.users|
  }

  /** The name an update asks for, before conflicts are looked at. */
  function Wanted(u: User, r: Record): string {
    if r.name == "" then u.name else r.name
  }

  predicate Taken(byName: map<string, nat>, name: string, idx: nat) {
    name in byName && byName[name] != idx
  }

  /** The name an update ends up with; None when the conflict policy refuses. */
  ghost function UpdateName(st: State, idx: nat, r: Record, env: Env): Option<string>
    requires idx < |st.users|
  {
    var want := Wanted(st.users[idx], r);
    if want != "" && Taken(st.byName, want, idx) then
      if env.onConflict == Rename then Some(UniqueName(want, st.byName.Keys)) else None
    else Some(want)
  }

  /** The index without the entry of `idx` under `name`, if it has one. */
  function Forget(byName: map<string, nat>, name: string, idx: nat): map<string, nat> {
    if name in byName && byName[name] == idx then byName - {name} else byName
  }

  function Tombstoned(st: State, idx: nat, r: Record, at: nat): State
    requires idx < |st.users|
  {
    var u := st.users[idx];
    State(
      st.users[idx := u.(deletedAt := Some(at), enabled := false, revision := Bumped(u, r))],
      st.bySync,
      if u.deletedAt.None? then Forget(st.byName, u.name, idx) else st.byName,
      st.counts.(tombstoned := st.counts.tombstoned + 1)
    )
  }

  /** applyImportProfile and the re-indexing after it. */
  function Updated(st: State, idx: nat, r: Record, name: string, profile: Profile): State
    requires idx < |st.users|
  {
    var u := st.users[idx];
    State(
      st.users[idx := u.(name := name, syncId := r.syncId, deletedAt := None, revision := Bumped(u, r),
                           enabled := if r.enabled.Some? then r.enabled.value else u.enabled, profile := profile)],
      st.bySync,
      if u.name != name then Forget(st.byName, u.name, idx)[name := idx] else st.byName,
      st.counts.(updated := st.counts.updated + 1)
    )
  }

  /** The name of a new user: unique when it collides, drawn when there is none. */
  ghost function CreateName(st: State, r: Record, env: Env): Option<string> {
    if r.name == "" then Some(env.tokenName(st.byName.Keys))
    else if r.name in st.byName then
      if env.onConflict == Rename then Some(UniqueName(r.name, st.byName.Keys)) else None
    else Some(r.name)
  }

  function CreateSync(st: State, r: Record, env: Env): string {
    if r.syncId == "" && !r.local then env.tokenSync(st.bySync.Keys) else r.syncId
  }

  function Created(st: State, r: Record, env: Env, name: string, profile: Profile): State {
    var sync := CreateSync(st, r, env);
    var dead := r.deletedAt.At? && env.applyTombstones;
    var n := |st.users|;
    State(
      st.users + [User(name, sync, if r.revision > 0 then r.revision else 1, if dead then Some(r.deletedAt.time) else None,
                        !dead && (r.enabled.Some? ==> r.enabled.value), profile)],
      st.bySync[sync := n],
      if dead then st.byName else st.byName[name := n],
      st.counts.(created := st.counts.created + 1)
    )
  }

  /** One iteration of the loop; None when the whole import is refused. */
  ghost function ImportOne(st: State, r: Record, env: Env): Option<State> {
    if r.name == "" && r.syncId == "" then Some(st.(counts := st.counts.(skipped := st.counts.skipped + 1)))
    else if r.name == env.reserved || r.deletedAt.BadStamp? then None
    else if Matched(st, r) then
      var idx := st.bySync[r.syncId];
      var u := st.users[idx];
      match Judge(u, r, env)
      case Skip => Some(st.(counts := st.counts.(skipped := st.counts.skipped + 1)))
      case Tombstone(at) => Some(Tombstoned(st, idx, r, at))
      case Update =>
        var name := UpdateName(st, idx, r, env);
        var profile := env.merge(u.profile, r);
        if name.None? || profile.None? then None else Some(Updated(st, idx, r, name.value, profile.value))
    else
      var name := CreateName(st, r, env);
      var profile := env.create(r);
      if name.None? || profile.None? then None else Some(Created(st, r, env, name.value, profile.value))
  }

  /** The whole loop. */
  ghost function ImportAll(st: State, batch: seq<Record>, env: Env): Option<State> {
    if batch == [] then Some(st)
    else
      var mid := ImportAll(st, batch[..|batch| - 1], env);
      if mid.None? then None else ImportOne(mid.value, batch[|batch| - 1], env)
  }

  // ---- building the indexes ----

  function SyncIndex(users: seq<User>): map<string, nat> {
    if users == [] then map[]
    else
      var n := |users| - 1;
      var m := SyncIndex(users[..n]);
      if users[n].syncId != "" then m[users[n].syncId := n] else m
  }

  function NameIndex(users: seq<User>): map<string, nat> {
    if users == [] then map[]
    else
      var n := |users| - 1;
      var m := NameIndex(users[..n]);
      if users[n].deletedAt.None? then m[users[n].name := n] else m
  }

  ghost function Start(users: seq<User>): State {
    State(users, SyncIndex(users), NameIndex(users), Counts(0, 0, 0, 0))
  }

  // ---- what the indexes mean ----

  /** `bySync` gives, for every non-empty sync id in use, the last user that carries it. */
  ghost predicate SyncExact(users: seq<User>, bySync: map<string, nat>) {
    && (forall s :: s in bySync && s != "" ==>
          bySync[s] < |users| && users[bySync[s]].syncId == s && forall j :: bySync[s] < j < |users| ==> users[j].syncId != s)
    && (forall i :: 0 <= i < |users| && users[i].syncId != "" ==> users[i].syncId in bySync)
  }

  /** `byName` holds exactly the live names, each with its one live user. */
  ghost predicate NamesExact(users: seq<User>, byName: map<string, nat>) {
    && (forall n :: n in byName ==> byName[n] < |users| && users[byName[n]].name == n && users[byName[n]].deletedAt.None?)
    && (forall i :: 0 <= i < |users| && users[i].deletedAt.None? ==> users[i].name in byName && byName[users[i].name] == i)
  }

  ghost predicate DistinctSyncs(users: seq<User>) {
    forall i, j :: 0 <= i < j < |users| && users[i].syncId != "" ==> users[i].syncId != users[j].syncId
  }

  ghost predicate DistinctLiveNames(users: seq<User>) {
    forall i, j :: 0 <= i < j < |users| && users[i].deletedAt.None? && users[j].deletedAt.None? ==> users[i].name != users[j].name
  }

  lemma {:induction false} SyncIndexExact(users: seq<User>)
    ensures SyncExact(users, SyncIndex(users)) && "" !in SyncIndex(users)
  {
    if users != [] {
      var n := |users| - 1;
      SyncIndexExact(users[..n]);
      assert forall i :: 0 <= i < n ==> users[..n][i] == users[i];
    }
  }

  lemma {:induction false} NameIndexExact(users: seq<User>)
    requires DistinctLiveNames(users)
    ensures NamesExact(users, NameIndex(users))
  {
    if users != [] {
      var n := |users| - 1;
      NameIndexExact(users[..n]);
      assert forall i :: 0 <= i < n ==> users[..n][i] == users[i];
    }
  }

  lemma NamesExactDistinct(users: seq<User>, byName: map<string, nat>)
    requires NamesExact(users, byName)
    ensures DistinctLiveNames(users)
  {
  }

  // ---- the guard: a deleted user brought back under its own name is not re-indexed ----

  /** A record that brings a tombstoned user back without changing its name. */
  ghost predicate RevivesInPlace(st: State, r: Record, env: Env) {
    && Matched(st, r) && Judge(st.users[st.bySync[r.syncId]], r, env).Update?
    && var idx := st.bySync[r.syncId];
       st.users[idx].deletedAt.Some? && UpdateName(st, idx, r, env) == Some(st.users[idx].name)
  }

  lemma TombstoneNames(st: State, idx: nat, r: Record, at: nat)
    requires idx < |st.users| && NamesExact(st.users, st.byName)
    ensures var st2 := Tombstoned(st, idx, r, at); NamesExact(st2.users, st2.byName)
  {
  }

  lemma UpdateNames(st: State, idx: nat, r: Record, env: Env, name: string, profile: Profile)
    requires idx < |st.users| && NamesExact(st.users, st.byName)
    requires UpdateName(st, idx, r, env) == Some(name)
    ensures var st2 := Updated(st, idx, r, name, profile);
            NamesExact(st2.users, st2.byName) <==> !(st.users[idx].deletedAt.Some? && name == st.users[idx].name)
  {
    var st2 := Updated(st, idx, r, name, profile);
    var u := st.users[idx];
    if u.deletedAt.Some? && name == u.name {
      assert st2.users[idx].deletedAt.None? && st2.users[idx].name == name;
      assert name in st.byName ==> st.byName[name] != idx;
    } else {
      assert name != "" ==> !Taken(st.byName, name, idx);
      assert u.deletedAt.None? ==> st.byName[u.name] == idx;
      assert name in st.byName ==> st.byName[name] == idx && u.name == name;
    }
  }

  lemma CreateNames(st: State, r: Record, env: Env, name: string, profile: Profile)
    requires NamesExact(st.users, st.byName) && name !in st.byName
    ensures var st2 := Created(st, r, env, name, profile); NamesExact(st2.users, st2.byName)
  {
  }

  /**
   * `byName` stays exact through an iteration if and only if the record does not
   * bring a tombstoned user back under the name it had.
   */
  lemma StepNames(st: State, r: Record, env: Env)
    requires FreshTokens(env) && NamesExact(st.users, st.byName) && ImportOne(st, r, env).Some?
    ensures var st2 := ImportOne(st, r, env).value;
            NamesExact(st2.users, st2.byName) <==> !RevivesInPlace(st, r, env)
  {
    hide NamesExact;
    if r.name == "" && r.syncId == "" {
    } else if Matched(st, r) {
      var idx := st.bySync[r.syncId];
      match Judge(st.users[idx], r, env)
      case Skip =>
      case Tombstone(at) => TombstoneNames(st, idx, r, at);
      case Update =>
        UpdateNames(st, idx, r, env, UpdateName(st, idx, r, env).value, env.merge(st.users[idx].profile, r).value);
    } else {
      CreateNames(st, r, env, CreateName(st, r, env).value, env.create(r).value);
    }
  }

  lemma CreateSyncs(st: State, r: Record, env: Env, name: string, profile: Profile)
    requires FreshTokens(env) && SyncExact(st.users, st.bySync) && !Matched(st, r)
    ensures var st2 := Created(st, r, env, name, profile);
            SyncExact(st2.users, st2.bySync) && (DistinctSyncs(st.users) ==> DistinctSyncs(st2.users))
  {
    var s := CreateSync(st, r, env);
    assert s != "" ==> s !in st.bySync;
  }

  lemma SameSyncs(users: seq<User>, users2: seq<User>, bySync: map<string, nat>)
    requires |users2| == |users| && forall i :: 0 <= i < |users| ==> users2[i].syncId == users[i].syncId
    requires SyncExact(users, bySync)
    ensures SyncExact(users2, bySync) && (DistinctSyncs(users) ==> DistinctSyncs(users2))
  {
    assert forall i :: 0 <= i < |users| && users2[i].syncId != "" ==> users[i].syncId in bySync;
  }

  /** `bySync` stays exact through every iteration, and distinct sync ids stay distinct. */
  lemma StepSyncs(st: State, r: Record, env: Env)
    requires FreshTokens(env) && SyncExact(st.users, st.bySync) && ImportOne(st, r, env).Some?
    ensures var st2 := ImportOne(st, r, env).value;
            SyncExact(st2.users, st2.bySync) && (DistinctSyncs(st.users) ==> DistinctSyncs(st2.users))
  {
    var st2 := ImportOne(st, r, env).value;
    if r.name == "" && r.syncId == "" {
    } else if Matched(st, r) {
      SameSyncs(st.users, st2.users, st.bySync);
    } else {
      hide SyncExact, DistinctSyncs;
      CreateSyncs(st, r, env, CreateName(st, r, env).value, env.create(r).value);
    }
  }

  /** No user is dropped or reordered, no sync id changes, and no revision falls. */
  ghost predicate Grown(a: seq<User>, b: seq<User>) {
    |a| <= |b| && forall i :: 0 <= i < |a| ==> b[i].syncId == a[i].syncId && a[i].revision <= b[i].revision
  }

  /** A matched user's revision grows strictly with every update and tombstone, and reaches the record's. */
  lemma StepGrows(st: State, r: Record, env: Env)
    requires SyncExact(st.users, st.bySync) && ImportOne(st, r, env).Some?
    ensures var st2 := ImportOne(st, r, env).value;
            && Grown(st.users, st2.users)
            && (Matched(st, r) && !Judge(st.users[st.bySync[r.syncId]], r, env).Skip? ==>
                  st.users[st.bySync[r.syncId]].revision < st2.users[st.bySync[r.syncId]].revision)
            && (r.syncId != "" ==> Matched(st2, r) && r.revision <= st2.users[st2.bySync[r.syncId]].revision)
  {
  }

  // ---- whole batches ----

  lemma LastOf(st: State, batch: seq<Record>, env: Env)
    requires batch != [] && ImportAll(st, batch, env).Some?
    ensures ImportAll(st, batch[..|batch| - 1], env).Some?
    ensures ImportOne(ImportAll(st, batch[..|batch| - 1], env).value, batch[|batch| - 1], env) == ImportAll(st, batch, env)
  {
  }

  /** The batch, taken record by record from `st`, never brings a tombstoned user back in place. */
  ghost predicate RevivesNone(st: State, batch: seq<Record>, env: Env) {
    forall n :: 0 <= n < |batch| && ImportAll(st, batch[..n], env).Some? ==>
      !RevivesInPlace(ImportAll(st, batch[..n], env).value, batch[n], env)
  }

  lemma RevivesNonePrefix(st: State, batch: seq<Record>, env: Env)
    requires batch != [] && RevivesNone(st, batch, env)
    ensures RevivesNone(st, batch[..|batch| - 1], env)
  {
    hide RevivesInPlace, ImportAll;
    var p := batch[..|batch| - 1];
    forall n | 0 <= n < |p| && ImportAll(st, p[..n], env).Some? ensures !RevivesInPlace(ImportAll(st, p[..n], env).value, p[n], env) {
      assert p[..n] == batch[..n] && p[n] == batch[n];
    }
  }

  /**
   * Through the whole loop both indexes stay exact, so distinct live names and
   * distinct sync ids stay distinct, for every batch that revives nobody in place.
   */
  lemma {:induction false} IndexesStayExact(users: seq<User>, batch: seq<Record>, env: Env)
    requires FreshTokens(env) && DistinctLiveNames(users)
    requires RevivesNone(Start(users), batch, env) && ImportAll(Start(users), batch, env).Some?
    ensures var st := ImportAll(Start(users), batch, env).value;
            && SyncExact(st.users, st.bySync) && NamesExact(st.users, st.byName)
            && DistinctLiveNames(st.users) && (DistinctSyncs(users) ==> DistinctSyncs(st.users))
  {
    hide ImportOne, RevivesInPlace, SyncExact, NamesExact, DistinctSyncs, DistinctLiveNames, FreshTokens;
    if batch == [] {
      SyncIndexExact(users);
      NameIndexExact(users);
    } else {
      var n := |batch| - 1;
      LastOf(Start(users), batch, env);
      RevivesNonePrefix(Start(users), batch, env);
      IndexesStayExact(users, batch[..n], env);
      var mid := ImportAll(Start(users), batch[..n], env).value;
      StepSyncs(mid, batch[n], env);
      StepNames(mid, batch[n], env);
      NamesExactDistinct(ImportOne(mid, batch[n], env).value.users, ImportOne(mid, batch[n], env).value.byName);
    }
  }

  lemma {:induction false} SyncsStayExact(users: seq<User>, batch: seq<Record>, env: Env)
    requires FreshTokens(env) && ImportAll(Start(users), batch, env).Some?
    ensures var st := ImportAll(Start(users), batch, env).value; SyncExact(st.users, st.bySync)
  {
    hide ImportOne, SyncExact, FreshTokens;
    if batch == [] {
      SyncIndexExact(users);
    } else {
      LastOf(Start(users), batch, env);
      SyncsStayExact(users, batch[..|batch| - 1], env);
      StepSyncs(ImportAll(Start(users), batch[..|batch| - 1], env).value, batch[|batch| - 1], env);
    }
  }

  /** Over a whole batch no revision falls and no user is lost. */
  lemma {:induction false} BatchGrows(users: seq<User>, batch: seq<Record>, env: Env)
    requires FreshTokens(env) && ImportAll(Start(users), batch, env).Some?
    ensures Grown(users, ImportAll(Start(users), batch, env).value.users)
  {
    hide ImportOne, SyncExact, FreshTokens;
    if batch != [] {
      LastOf(Start(users), batch, env);
      SyncsStayExact(users, batch[..|batch| - 1], env);
      BatchGrows(users, batch[..|batch| - 1], env);
      StepGrows(ImportAll(Start(users), batch[..|batch| - 1], env).value, batch[|batch| - 1], env);
    }
  }

  // ---- replay ----

  ghost predicate Replayable(batch: seq<Record>) {
    forall i :: 0 <= i < |batch| ==> batch[i].syncId != "" && batch[i].revision > 0 && batch[i].deletedAt.NoStamp?
  }

  /** The record's user is there and at least at the record's revision. */
  ghost predicate Absorbed(users: seq<User>, bySync: map<string, nat>, r: Record) {
    r.syncId in bySync && bySync[r.syncId] < |users| && r.revision <= users[bySync[r.syncId]].revision
  }

  lemma AbsorbedStays(st: State, r: Record, env: Env, earlier: Record)
    requires FreshTokens(env) && SyncExact(st.users, st.bySync) && ImportOne(st, r, env).Some?
    requires earlier.syncId != "" && Absorbed(st.users, st.bySync, earlier)
    ensures var st2 := ImportOne(st, r, env).value; Absorbed(st2.users, st2.bySync, earlier)
  {
  }

  lemma {:induction false} BatchAbsorbed(users: seq<User>, batch: seq<Record>, env: Env, i: nat)
    requires FreshTokens(env) && Replayable(batch) && i < |batch| && ImportAll(Start(users), batch, env).Some?
    ensures var st := ImportAll(Start(users), batch, env).value; Absorbed(st.users, st.bySync, batch[i]) && batch[i].name != env.reserved
  {
    var n := |batch| - 1;
    LastOf(Start(users), batch, env);
    SyncsStayExact(users, batch[..n], env);
    var mid := ImportAll(Start(users), batch[..n], env).value;
    if i == n {
      StepGrows(mid, batch[n], env);
      assert ImportOne(mid, batch[n], env).Some?;
    } else {
      BatchAbsorbed(users, batch[..n], env, i);
      AbsorbedStays(mid, batch[n], env, batch[i]);
    }
  }

  /** The index rebuilt from the saved users finds the same users. */
  lemma RebuiltIndex(users: seq<User>, bySync: map<string, nat>, r: Record)
    requires SyncExact(users, bySync) && r.syncId != "" && Absorbed(users, bySync, r)
    ensures Absorbed(users, SyncIndex(users), r)
  {
    SyncIndexExact(users);
    var m := SyncIndex(users);
    assert users[bySync[r.syncId]].syncId in m;
    assert m[r.syncId] == bySync[r.syncId];
  }

  ghost function Skipping(users: seq<User>, n: nat): State {
    Start(users).(counts := Counts(0, 0, n, 0))
  }

  lemma {:induction false} AbsorbedBatchSkips(users: seq<User>, batch: seq<Record>, env: Env)
    requires Replayable(batch)
    requires forall i :: 0 <= i < |batch| ==> Absorbed(users, SyncIndex(users), batch[i]) && batch[i].name != env.reserved
    ensures ImportAll(Start(users), batch, env) == Some(Skipping(users, |batch|))
  {
    hide SyncIndex, NameIndex;
    if batch != [] {
      var n := |batch| - 1;
      AbsorbedBatchSkips(users, batch[..n], env);
      assert Absorbed(users, SyncIndex(users), batch[n]);
    }
  }

  /**
   * Importing a batch of live records with sync ids and positive revisions a second
   * time changes no user: every record is skipped.
   */
  lemma ReplaySkipsAll(users: seq<User>, batch: seq<Record>, env: Env)
    requires FreshTokens(env) && Replayable(batch) && ImportAll(Start(users), batch, env).Some?
    ensures var saved := ImportAll(Start(users), batch, env).value.users;
            ImportAll(Start(saved), batch, env) == Some(Skipping(saved, |batch|))
  {
    var st := ImportAll(Start(users), batch, env).value;
    SyncsStayExact(users, batch, env);
    forall i | 0 <= i < |batch| ensures Absorbed(st.users, SyncIndex(st.users), batch[i]) && batch[i].name != env.reserved {
      BatchAbsorbed(users, batch, env, i);
      RebuiltIndex(st.users, st.bySync, batch[i]);
    }
    AbsorbedBatchSkips(st.users, batch, env);
  }

  // ---- the loop itself ----

  /** A store of users: an import replaces it as a whole or not at all. */
  class UserStore {
    var users: seq<User>

    /** The first loop: both indexes of the stored users. */
    method BuildIndexes() returns (bySync: map<string, nat>, byName: map<string, nat>)
      ensures bySync == SyncIndex(users) && byName == NameIndex(users)
    {
      bySync, byName := map[], map[];
      for i := 0 to |users|
        invariant bySync == SyncIndex(users[..i]) && byName == NameIndex(users[..i])
      {
        assert users[..i + 1][..i] == users[..i];
        if users[i].syncId != "" {
          bySync := bySync[users[i].syncId := i];
        }
        if users[i].deletedAt.None? {
          byName := byName[users[i].name := i];
        }
      }
      assert users[..|users|] == users;
    }

    /** One iteration on a matched user. */
    method ApplyMatched(st: State, r: Record, env: Env) returns (next: Option<State>)
      requires Matched(st, r) && !(r.name == "" && r.syncId == "") && r.name != env.reserved && !r.deletedAt.BadStamp?
      ensures next == ImportOne(st, r, env)
    {
      var idx := st.bySync[r.syncId];
      var u := st.users[idx];
      var byName := st.byName;
      if r.revision > 0 && r.revision <= u.revision && r.deletedAt.NoStamp? {
        return Some(st.(counts := st.counts.(skipped := st.counts.skipped + 1)));
      }
      if r.deletedAt.At? && env.applyTombstones {
        if u.deletedAt.None? && u.name in byName && byName[u.name] == idx {
          byName := byName - {u.name};
        }
        u := u.(deletedAt := Some(r.deletedAt.time), enabled := false, revision := Bumped(u, r));
        return Some(State(st.users[idx := u], st.bySync, byName, st.counts.(tombstoned := st.counts.tombstoned + 1)));
      }
      var want := if r.name == "" then u.name else r.name;
      if want != "" && want in byName && byName[want] != idx {
        if env.onConflict != Rename { return None; }
        want := UniqueImportName(want, byName);
      }
      var profile := env.merge(u.profile, r);
      if profile.None? { return None; }
      if u.name != want {
        if u.name in byName && byName[u.name] == idx {
          byName := byName - {u.name};
        }
        byName := byName[want := idx];
      }
      u := u.(name := want, syncId := r.syncId, deletedAt := None, revision := Bumped(u, r),
              enabled := if r.enabled.Some? then r.enabled.value else u.enabled, profile := profile.value);
      return Some(State(st.users[idx := u], st.bySync, byName, st.counts.(updated := st.counts.updated + 1)));
    }

    /** One iteration that appends a user. */
    method AppendNew(st: State, r: Record, env: Env) returns (next: Option<State>)
      requires !Matched(st, r) && !(r.name == "" && r.syncId == "") && r.name != env.reserved && !r.deletedAt.BadStamp?
      ensures next == ImportOne(st, r, env)
    {
      var name := r.name;
      if name != "" && name in st.byName {
        if env.onConflict != Rename { return None; }
        name := UniqueImportName(name, st.byName);
      }
      if r.name == "" {
        name := env.tokenName(st.byName.Keys);
      }
      var profile := env.create(r);
      if profile.None? { return None; }
      var sync := r.syncId;
      if sync == "" && !r.local {
        sync := env.tokenSync(st.bySync.Keys);
      }
      var u := User(name, sync, if r.revision > 0 then r.revision else 1, None, r.enabled.Some? ==> r.enabled.value, profile.value);
      if r.deletedAt.At? && env.applyTombstones {
        u := u.(deletedAt := Some(r.deletedAt.time), enabled := false);
      }
      var idx := |st.users|;
      var byName := st.byName;
      if u.deletedAt.None? {
        byName := byName[name := idx];
      }
      return Some(State(st.users + [u], st.bySync[sync := idx], byName, st.counts.(created := st.counts.created + 1)));
    }

    /**
     * handleUsersImport.  Refusing any record, or a failing save, refuses the batch and
     * leaves the stored users alone; otherwise the outcome is the record-by-record import.
     */
    method Import(batch: seq<Record>, env: Env, saved: bool) returns (done: Option<Counts>)
      modifies this
      ensures var r := ImportAll(Start(old(users)), batch, env);
              if r.Some? && saved then users == r.value.users && done == Some(r.value.counts)
              else users == old(users) && done.None?
    {
      var bySync, byName := BuildIndexes();
      var st := State(users, bySync, byName, Counts(0, 0, 0, 0));
      for n := 0 to |batch|
        invariant users == old(users)
        invariant ImportAll(Start(old(users)), batch[..n], env) == Some(st)
      {
        var r := batch[n];
        var next: Option<State>;
        assert batch[..n + 1][..n] == batch[..n];
        if r.name == "" && r.syncId == "" {
          next := Some(st.(counts := st.counts.(skipped := st.counts.skipped + 1)));
        } else if r.name == env.reserved || r.deletedAt.BadStamp? {
          next := None;
        } else if Matched(st, r) {
          next := ApplyMatched(st, r, env);
        } else {
          next := AppendNew(st, r, env);
        }
        assert ImportAll(Start(old(users)), batch[..n + 1], env) == next;
        if next.None? {
          RefusalSticks(Start(old(users)), batch, env, n + 1);
          return None;
        }
        st := next.value;
      }
      assert batch[..|batch|] == batch;
      if !saved { return None; }
      users := st.users;
      done := Some(st.counts);
    }
  }

  lemma {:induction false} RefusalSticks(st: State, batch: seq<Record>, env: Env, n: nat)
    requires n <= |batch| && ImportAll(st, batch[..n], env).None?
    ensures ImportAll(st, batch, env).None?
    decreases |batch|
  {
    if n == |batch| {
      assert batch[..n] == batch;
    } else {
      var p := batch[..|batch| - 1];
      assert p[..n] == batch[..n];
      RefusalSticks(st, p, env, n);
    }
  }

  /** The guard is needed: a user revived under its own name can be shadowed by the next record. */
  lemma RevivedNameCollides(env: Env)
    requires env.reserved != "a" && env.merge(0, Record("s", "a", 5, NoStamp, false, None, 0)) == Some(0)
    requires env.create(Record("t", "a", 1, NoStamp, false, None, 0)) == Some(0)
    ensures var users := [User("a", "s", 1, Some(0), false, 0)];
            var batch := [Record("s", "a", 5, NoStamp, false, None, 0), Record("t", "a", 1, NoStamp, false, None, 0)];
            && DistinctLiveNames(users) && ImportAll(Start(users), batch, env).Some?
            && !DistinctLiveNames(ImportAll(Start(users), batch, env).value.users)
  {
    var users := [User("a", "s", 1, Some(0), false, 0)];
    var r1, r2 := Record("s", "a", 5, NoStamp, false, None, 0), Record("t", "a", 1, NoStamp, false, None, 0);
    var st0 := State(users, map["s" := 0], map[], Counts(0, 0, 0, 0));
    var st1 := State([User("a", "s", 5, None, false, 0)], map["s" := 0], map[], Counts(0, 1, 0, 0));
    assert Start(users) == st0 by {
      assert users[..0] == [];
      assert SyncIndex(users[..0]) == map[] && NameIndex(users[..0]) == map[];
    }
    assert ImportOne(st0, r1, env) == Some(st1) by {
      assert Matched(st0, r1) && Judge(users[0], r1, env).Update?;
      assert UpdateName(st0, 0, r1, env) == Some("a");
      assert Updated(st0, 0, r1, "a", 0).users == st1.users;
    }
    assert ImportOne(st1, r2, env) == Some(Created(st1, r2, env, "a", 0));
    assert [r1, r2][..1] == [r1] && [r1][..0] == [];
    assert ImportAll(st0, [r1][..0], env) == Some(st0);
    assert ImportAll(st0, [r1], env) == Some(st1);
    assert ImportAll(st0, [r1, r2], env) == Some(Created(st1, r2, env, "a", 0));
    var end := Created(st1, r2, env, "a", 0).users;
    assert end[0].name == end[1].name == "a" && end[0].deletedAt.None? && end[1].deletedAt.None?;
  }
}
