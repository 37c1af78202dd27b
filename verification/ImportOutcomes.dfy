/** What one record of an import does to the stored users, field by field. */
module ImportOutcomes {
  import opened Basics
  import opened UserImport
  import Decimal

  /** The record's sync id is known; the user it stands for is then at `bySync[r.syncId]`. */
  predicate Known(st: State, r: Record) {
    r.syncId != "" && r.syncId in st.bySync && st.bySync[r.syncId] < |st.users|
  }

  /** The record is for a known user, brings nothing new and does not delete. */
  predicate Stale(st: State, r: Record) {
    Known(st, r) && 0 < r.revision <= st.users[st.bySync[r.syncId]].revision && r.deletedAt.NoStamp?
  }

  predicate Deletes(r: Record, env: Env) {
    r.deletedAt.At? && env.applyTombstones
  }

  /** The base name a record asks for. */
  function Asked(st: State, r: Record): string {
    if r.name == "" && Known(st, r) then st.users[st.bySync[r.syncId]].name else r.name
  }

  /** That name stands for another live user. */
  predicate Collides(st: State, r: Record) {
    var name := Asked(st, r);
    name != "" && name in st.byName && !(Known(st, r) && st.byName[name] == st.bySync[r.syncId])
  }

  /** The name is the one asked for, with the smallest free number behind it when it collides. */
  ghost predicate Settles(st: State, r: Record, name: string) {
    if Collides(st, r) then
      exists k: nat :: k >= 2 && name == Asked(st, r) + " " + Decimal.Render(k) && name !in st.byName &&
        forall j: nat :: 2 <= j < k ==> Asked(st, r) + " " + Decimal.Render(j) in st.byName
    else name == Asked(st, r)
  }

  lemma UniqueSettles(base: string, taken: set<string>) returns (k: nat)
    ensures k >= 2 && UniqueName(base, taken) == base + " " + Decimal.Render(k)
    ensures forall j: nat :: 2 <= j < k ==> base + " " + Decimal.Render(j) in taken
  {
    SomeFree(base, taken);
    var name := UniqueName(base, taken);
    k :| FirstFree(base, taken, k) && name == Suffixed(base, k);
    forall j: nat | 2 <= j < k ensures base + " " + Decimal.Render(j) in taken {
      assert Suffixed(base, j) in taken;
    }
  }

  lemma CollisionSettles(st: State, r: Record, base: string)
    requires Collides(st, r) && base == Asked(st, r)
    ensures Settles(st, r, UniqueName(base, st.byName.Keys))
  {
    hide UniqueName;
    var k := UniqueSettles(base, st.byName.Keys);
  }

  // ---- what each kind of record does ----

  /** A record without name and sync id, or with nothing new, changes no user. */
  lemma SkippedRecord(st: State, r: Record, env: Env)
    requires ImportOne(st, r, env).Some?
    requires (r.name == "" && r.syncId == "") || Stale(st, r)
    ensures ImportOne(st, r, env).value == st.(counts := st.counts.(skipped := st.counts.skipped + 1))
  {
  }

  /** A deletion of a known user stamps and disables it, moves its revision on, and frees its name; all else stays. */
  lemma DeletedRecord(st: State, r: Record, env: Env)
    requires ImportOne(st, r, env).Some? && Known(st, r) && Deletes(r, env)
    ensures var idx := st.bySync[r.syncId];
      var u, st2 := st.users[idx], ImportOne(st, r, env).value;
      && |st2.users| == |st.users| && (forall i :: 0 <= i < |st.users| && i != idx ==> st2.users[i] == st.users[i])
      && st2.users[idx].deletedAt == Some(r.deletedAt.time) && !st2.users[idx].enabled
      && st2.users[idx].revision == (if r.revision > u.revision then r.revision else u.revision + 1)
      && st2.users[idx].name == u.name && st2.users[idx].syncId == u.syncId && st2.users[idx].profile == u.profile
      && st2.bySync == st.bySync
      && (forall n :: n in st2.byName <==> n in st.byName && !(n == u.name && u.deletedAt.None? && st.byName[n] == idx))
      && (forall n :: n in st2.byName ==> st2.byName[n] == st.byName[n])
      && st2.counts == st.counts.(tombstoned := st.counts.tombstoned + 1)
  {
  }

  predicate Updates(st: State, r: Record, env: Env) {
    Known(st, r) && !Stale(st, r) && !Deletes(r, env)
  }

  /** An update merges the record into the known user, brings it to life, and leaves all others alone. */
  lemma UpdatedRecord(st: State, r: Record, env: Env)
    requires ImportOne(st, r, env).Some? && Updates(st, r, env)
    ensures var idx := st.bySync[r.syncId];
      var u, st2 := st.users[idx], ImportOne(st, r, env).value;
      && |st2.users| == |st.users| && (forall i :: 0 <= i < |st.users| && i != idx ==> st2.users[i] == st.users[i])
      && Some(st2.users[idx].profile) == env.merge(u.profile, r)
      && st2.users[idx].deletedAt.None?
      && st2.users[idx].enabled == (if r.enabled.Some? then r.enabled.value else u.enabled)
      && st2.users[idx].revision == (if r.revision > u.revision then r.revision else u.revision + 1)
      && st2.users[idx].syncId == r.syncId
      && st2.bySync == st.bySync && st2.counts == st.counts.(updated := st.counts.updated + 1)
  {
    hide UniqueName;
  }

  /** Its name settles, and the index follows a change of name. */
  lemma UpdatedName(st: State, r: Record, env: Env)
    requires ImportOne(st, r, env).Some? && Updates(st, r, env)
    ensures var idx := st.bySync[r.syncId];
      var u, st2 := st.users[idx], ImportOne(st, r, env).value;
      var name := st2.users[idx].name;
      && Settles(st, r, name)
      && (name == u.name ==> st2.byName == st.byName)
      && (name != u.name ==> name in st2.byName && st2.byName[name] == idx)
      && (name != u.name ==> (u.name in st2.byName <==> u.name in st.byName && st.byName[u.name] != idx))
      && (forall n :: n != name && n != u.name ==> (n in st2.byName <==> n in st.byName))
      && (forall n :: n in st2.byName && n != name ==> st2.byName[n] == st.byName[n])
  {
    hide Settles, UniqueName;
    if Collides(st, r) {
      CollisionSettles(st, r, Asked(st, r));
    } else {
      PlainSettles(st, r, Asked(st, r));
    }
  }

  lemma PlainSettles(st: State, r: Record, name: string)
    requires !Collides(st, r) && name == Asked(st, r)
    ensures Settles(st, r, name)
  {
  }

  predicate Creates(st: State, r: Record) {
    !Known(st, r) && !(r.name == "" && r.syncId == "")
  }

  /** Any other record appends a user made from it and indexes it; those before it stay. */
  lemma CreatedRecord(st: State, r: Record, env: Env)
    requires ImportOne(st, r, env).Some? && Creates(st, r)
    ensures var n := |st.users|;
      var st2 := ImportOne(st, r, env).value;
      && |st2.users| == n + 1 && st2.users[..n] == st.users
      && Some(st2.users[n].profile) == env.create(r)
      && st2.users[n].revision == (if r.revision > 0 then r.revision else 1)
      && st2.users[n].deletedAt == (if Deletes(r, env) then Some(r.deletedAt.time) else None)
      && (st2.users[n].enabled <==> !Deletes(r, env) && r.enabled != Some(false))
      && st2.users[n].syncId == (if r.syncId == "" && !r.local then env.tokenSync(st.bySync.Keys) else r.syncId)
      && st2.bySync == st.bySync[st2.users[n].syncId := n]
      && st2.byName == (if Deletes(r, env) then st.byName else st.byName[st2.users[n].name := n])
      && st2.counts == st.counts.(created := st.counts.created + 1)
      && (r.name == "" ==> st2.users[n].name == env.tokenName(st.byName.Keys))
      && (r.name != "" ==> Settles(st, r, st2.users[n].name))
  {
    hide Settles, UniqueName;
    if Collides(st, r) {
      CollisionSettles(st, r, Asked(st, r));
    } else {
      PlainSettles(st, r, Asked(st, r));
    }
  }

  /**
   * A record is refused, and the batch with it, exactly for the reserved name, a stamp
   * that is no time, a name that collides where no renaming is asked for, or a
   * profile that cannot be merged or created.
   */
  lemma RefusedRecord(st: State, r: Record, env: Env)
    ensures ImportOne(st, r, env).None? <==>
      && !(r.name == "" && r.syncId == "")
      && (|| r.name == env.reserved || r.deletedAt.BadStamp?
          || (Updates(st, r, env) && ((Collides(st, r) && !env.onConflict.Rename?) || env.merge(st.users[st.bySync[r.syncId]].profile, r).None?))
          || (Creates(st, r) && ((Collides(st, r) && !env.onConflict.Rename?) || env.create(r).None?)))
  {
    hide UniqueName;
  }

  // ---- whole batches ----

  /** Records are taken in order: a batch is its first part and then the rest, from what that left. */
  lemma {:induction false} BatchInOrder(st: State, a: seq<Record>, b: seq<Record>, env: Env)
    ensures var mid := ImportAll(st, a, env);
      ImportAll(st, a + b, env) == if mid.None? then None else ImportAll(mid.value, b, env)
  {
    hide ImportOne;
    if b == [] {
      assert a + b == a;
    } else {
      var init := b[..|b| - 1];
      BatchInOrder(st, a, init, env);
      assert (a + b)[..|a + b| - 1] == a + init;
    }
  }

  /** Every record of a batch is counted once. */
  lemma {:induction false} EveryRecordCounts(users: seq<User>, batch: seq<Record>, env: Env)
    requires ImportAll(Start(users), batch, env).Some?
    ensures var c := ImportAll(Start(users), batch, env).value.counts; c.created + c.updated + c.skipped + c.tombstoned == |batch|
    ensures |ImportAll(Start(users), batch, env).value.users| == |users| + ImportAll(Start(users), batch, env).value.counts.created
  {
    hide Judge, UpdateName, CreateName, CreateSync;
    if batch != [] {
      LastOf(Start(users), batch, env);
      EveryRecordCounts(users, batch[..|batch| - 1], env);
    }
  }
}
