/** What each writer of the traffic counters does to a user, field by field. */
module TrafficOutcomes {
  import opened Basics
  import opened Text
  import opened Traffic

  /** Who takes part in sync: a live user with a sync id, switched on, unless its mode says local. */
  lemma SyncActiveMeans(u: Account)
    ensures SyncActive(u) <==> !u.deleted && u.syncEnabled && Trim(u.syncId) != "" && Trim(u.syncMode) != "local"
  {
    hide Trim;
  }

  // ---- polls ----

  /**
   * After a poll every listed user's ingress counter is the total polled; the used bytes
   * follow it unless the user is sync-active; and the epoch moves by one exactly when
   * the total is below a counter that the poll sets.
   */
  lemma PollSets(users: seq<Account>, updates: map<string, nat>, i: nat)
    requires i < |users| && users[i].id in updates
    ensures var u, w, v := users[i], PolledAll(users, updates)[i], updates[users[i].id];
      var active := !u.deleted && u.syncEnabled && Trim(u.syncId) != "" && Trim(u.syncMode) != "local";
      && w.ingress == v
      && w.used == (if active then u.used else v)
      && (w.epoch == u.epoch + 1 <==> v < u.ingress || (!active && v < u.used))
      && (w.epoch == u.epoch || w.epoch == u.epoch + 1)
      && w == u.(ingress := w.ingress, used := w.used, epoch := w.epoch)
  {
    SyncActiveMeans(users[i]);
    hide Trim, SyncActive;
  }

  /** A user that is not listed is left alone. */
  lemma PollSkips(users: seq<Account>, updates: map<string, nat>, i: nat)
    requires i < |users| && users[i].id !in updates
    ensures PolledAll(users, updates)[i] == users[i]
  {
    hide Polled;
  }

  // ---- reset ticks ----

  /** The period in nanoseconds, as the low 64 bits hold it. */
  lemma PeriodWraps(seconds: nat)
    ensures -0x8000_0000_0000_0000 <= Period(seconds) < 0x8000_0000_0000_0000
    ensures (Period(seconds) - seconds * 1_000_000_000) % 0x1_0000_0000_0000_0000 == 0
  {
    var x := seconds * NANOS_PER_SECOND + 0x8000_0000_0000_0000;
    var q := x / 0x1_0000_0000_0000_0000;
    assert Period(seconds) - seconds * 1_000_000_000 == -q * 0x1_0000_0000_0000_0000;
  }

  /** A tick zeroes both counters of a due user, moves its epoch, and schedules it one period on or never. */
  lemma TickSets(users: seq<Account>, now: int, i: nat)
    requires i < |users|
    ensures var u, w := users[i], Ticked(users, now)[i];
      var due := u.resetAt.Some? && u.resetAt.value <= now;
      && (!due ==> w == u)
      && (due ==> w.used == 0 && w.ingress == 0 && w.epoch == u.epoch + 1)
      && (due && u.period.Some? && u.period.value > 0 ==> w.resetAt == Some(now + Period(u.period.value)))
      && (due && !(u.period.Some? && u.period.value > 0) ==> w.resetAt.None?)
      && w == u.(used := w.used, ingress := w.ingress, epoch := w.epoch, resetAt := w.resetAt)
  {
    hide Period;
  }

  // ---- PATCH ----

  /** The fields of a PATCH that are taken over, and what a sync mode brings along. */
  lemma PatchSetsIdentity(u: Account, e: Edit, newId: string)
    ensures var w := Patched(u, e, newId);
      var joins := e.syncMode.Some? && Trim(e.syncMode.value) != "local";
      var sid := if e.syncId.Some? then Trim(e.syncId.value) else u.syncId;
      && w.name == (if e.name.Some? && e.name.value != "" then e.name.value else u.name)
      && w.syncMode == (if e.syncMode.Some? then Trim(e.syncMode.value) else u.syncMode)
      && w.syncId == (if joins && sid == "" then newId else sid)
      && w.syncEnabled == (if e.syncEnabled.Some? then e.syncEnabled.value else joins || u.syncEnabled)
      && w.resetAt == (if e.resetAt.None? then u.resetAt else if e.resetAt.value.At? then Some(e.resetAt.value.time) else None)
      && w.period == (if e.period.Some? then e.period.value else u.period)
      && w.id == u.id && w.deleted == u.deleted
  {
    hide Trim, SyncActive, WithIdentity, WithName, WithUsed, WithIngress, WithSchedule, Seed;
    var u1 := WithIdentity(WithName(u, e), e, newId);
    IdentitySets(u, e, newId);
    var u2 := WithIngress(WithUsed(u1, e.used), e.ingress);
    LaterKeepIdentity(u1, e);
    SeedSetsIngress(WithSchedule(u2, e));
  }

  lemma IdentitySets(u: Account, e: Edit, newId: string)
    ensures var w := WithIdentity(WithName(u, e), e, newId);
      var joins := e.syncMode.Some? && Trim(e.syncMode.value) != "local";
      var sid := if e.syncId.Some? then Trim(e.syncId.value) else u.syncId;
      && w.name == (if e.name.Some? && e.name.value != "" then e.name.value else u.name)
      && w.syncMode == (if e.syncMode.Some? then Trim(e.syncMode.value) else u.syncMode)
      && w.syncId == (if joins && sid == "" then newId else sid)
      && w.syncEnabled == (if e.syncEnabled.Some? then e.syncEnabled.value else joins || u.syncEnabled)
      && w == u.(name := w.name, syncMode := w.syncMode, syncId := w.syncId, syncEnabled := w.syncEnabled)
  {
    hide Trim;
  }

  lemma LaterKeepIdentity(u: Account, e: Edit)
    ensures var w := WithSchedule(WithIngress(WithUsed(u, e.used), e.ingress), e);
      && w.resetAt == (if e.resetAt.None? then u.resetAt else if e.resetAt.value.At? then Some(e.resetAt.value.time) else None)
      && w.period == (if e.period.Some? then e.period.value else u.period)
      && w == u.(used := w.used, ingress := w.ingress, epoch := w.epoch, resetAt := w.resetAt, period := w.period)
  {
    hide SyncActive;
  }

  lemma SeedSetsIngress(u: Account)
    ensures Seed(u) == u.(ingress := if u.ingress == 0 then u.used else u.ingress)
  {
  }

  /**
   * The counters of a PATCH: the used bytes are set; setting them below what they were
   * restarts the ingress counter of a user that is not sync-active by then; a given
   * ingress counter is set after that; and one that joins with none gets the used bytes.
   */
  lemma PatchSetsCounters(u: Account, e: Edit, newId: string)
    ensures var w := Patched(u, e, newId);
      var active := !w.deleted && w.syncEnabled && Trim(w.syncId) != "" && Trim(w.syncMode) != "local";
      var lowered := e.used.Some? && e.used.value < u.used && !active;
      var before := if lowered then e.used.value else u.ingress;
      var after := if e.ingress.Some? then e.ingress.value else before;
      && w.used == (if e.used.Some? then e.used.value else u.used)
      && w.epoch == u.epoch + (if lowered then 1 else 0) + (if e.ingress.Some? && e.ingress.value < before then 1 else 0)
      && w.ingress == (if active && !SyncActive(u) && after == 0 then w.used else after)
  {
    hide Trim, SyncActive, WithIdentity, WithName;
    var u1 := WithIdentity(WithName(u, e), e, newId);
    IdentitySets(u, e, newId);
    var u2 := WithSchedule(WithIngress(WithUsed(u1, e.used), e.ingress), e);
    var w := Patched(u, e, newId);
    CountersKeepSync(u1, u2);
    CountersKeepSync(u1, w);
    SyncActiveMeans(w);
  }

  /** A PATCH is refused exactly for a name or sync id of another live user, an unknown mode, or a bad time. */
  lemma PatchRefused(users: seq<Account>, i: nat, e: Edit)
    requires i < |users|
    ensures !Acceptable(users, i, e) <==>
      || (e.name.Some? && e.name.value != "" && e.name.value != users[i].name && HeldName(users, i, e.name.value))
      || (e.syncId.Some? && Trim(e.syncId.value) != "" && Trim(e.syncId.value) != users[i].syncId && HeldSync(users, i, Trim(e.syncId.value)))
      || (e.syncMode.Some? && Trim(e.syncMode.value) != "local" && Trim(e.syncMode.value) != "identity" && Trim(e.syncMode.value) != "full")
      || e.expiresAt == Some(BadTime) || e.resetAt == Some(BadTime)
  {
    hide Trim;
  }

  ghost predicate HeldName(users: seq<Account>, i: nat, name: string) {
    exists j :: 0 <= j < |users| && j != i && users[j].name == name && !users[j].deleted
  }

  ghost predicate HeldSync(users: seq<Account>, i: nat, sid: string) {
    exists j :: 0 <= j < |users| && j != i && users[j].syncId == sid && !users[j].deleted
  }

  // ---- toggle, membership list, imports ----

  /** Switching sync on by the toggle: a live user with a known mode gets it, an id if it had none, and its usage into a zero counter. */
  lemma ToggleSets(u: Account, on: bool, mode: string, newId: string)
    ensures var w := Toggled(u, on, mode, newId);
      var m := if Trim(mode) == "" then "identity" else Trim(mode);
      var joins := !u.deleted && on && (m == "identity" || m == "full");
      && w.syncEnabled == (if joins then true else if !u.deleted && !on then false else u.syncEnabled)
      && w.syncMode == (if joins then m else u.syncMode)
      && w.syncId == (if joins && Trim(u.syncId) == "" then newId else u.syncId)
      && w.ingress == (if joins && u.ingress == 0 then u.used else u.ingress)
      && w == u.(syncEnabled := w.syncEnabled, syncMode := w.syncMode, syncId := w.syncId, ingress := w.ingress)
  {
    hide Trim;
  }

  /** The membership list sets or clears the flag of a user with a sync id, switching off before switching on, and nothing else. */
  lemma MembershipSets(users: seq<Account>, enable: seq<string>, disable: seq<string>, i: nat)
    requires i < |users|
    ensures var u, w := users[i], MemberedAll(users, enable, disable)[i];
      var off := u.syncId != "" && exists k :: 0 <= k < |disable| && Trim(disable[k]) == u.syncId;
      var on := u.syncId != "" && exists k :: 0 <= k < |enable| && Trim(enable[k]) == u.syncId;
      w == u.(syncEnabled := if off then false else if on then true else u.syncEnabled)
  {
    hide Trim;
  }

  /** An import or deletion replaces the sync fields and takes the usage over on joining. */
  lemma MergeSets(u: Account, syncId: string, mode: string, enabled: bool, deleted: bool)
    ensures var w := Merged(u, syncId, mode, enabled, deleted);
      var active := !deleted && enabled && Trim(syncId) != "" && Trim(mode) != "local";
      w == u.(syncId := syncId, syncMode := mode, syncEnabled := enabled, deleted := deleted,
              ingress := if active && !SyncActive(u) && u.ingress == 0 then u.used else u.ingress)
  {
    SyncActiveMeans(u.(syncId := syncId, syncMode := mode, syncEnabled := enabled, deleted := deleted));
    hide Trim, SyncActive;
  }

  // ---- metric posts ----

  /** One item reaches the last user of its sync id: a reset zeroes the ingress counter and moves the epoch, a global value wins over a global reset. */
  lemma ItemSets(users: seq<Account>, it: Item, j: nat)
    requires j < |users|
    ensures var u, w := users[j], MeteredOne(users, it)[j];
      var sid := Trim(it.syncId);
      var hit := sid != "" && u.syncId == sid && forall i :: j < i < |users| ==> users[i].syncId != sid;
      && (!hit ==> w == u)
      && (hit ==> w == u.(
            epoch := if it.resetIngress then u.epoch + 1 else u.epoch,
            ingress := if it.resetIngress then 0 else u.ingress,
            used := if it.globalUsed.Some? then it.globalUsed.value else if it.resetGlobal then 0 else u.used))
  {
    hide Trim, Target;
    TargetIsLast(users, Trim(it.syncId));
  }

  /** An item that names a stored user and asks for something. */
  predicate Counts(users: seq<Account>, it: Item) {
    (exists j :: 0 <= j < |users| && users[j].syncId == Trim(it.syncId) != "") &&
    (it.globalUsed.Some? || it.resetIngress || it.resetGlobal)
  }

  /** The number reported is that of these items. */
  lemma {:induction false} EffectiveCounts(users: seq<Account>, items: seq<Item>)
    ensures Effective(users, items) == |set k | 0 <= k < |items| && Counts(users, items[k])|
  {
    hide Trim, Target, Counts;
    if items != [] {
      var n := |items| - 1;
      EffectiveCounts(users, items[..n]);
      var before := set k | 0 <= k < n && Counts(users, items[..n][k]);
      var all := set k | 0 <= k < |items| && Counts(users, items[k]);
      TargetIsLast(users, Trim(items[n].syncId));
      CountsMeans(users, items[n]);
      assert all == before + if Counts(users, items[n]) then {n} else {};
    }
  }

  lemma CountsMeans(users: seq<Account>, it: Item)
    ensures Counts(users, it) <==>
      Target(users, Trim(it.syncId)).Some? && (it.resetIngress || it.resetGlobal || it.globalUsed.Some?)
  {
    hide Trim, Target;
    TargetIsLast(users, Trim(it.syncId));
  }
}
