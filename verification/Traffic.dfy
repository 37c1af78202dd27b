/** Per-user traffic counters and their writers (internal/controlplane/service.go and users_sync.go). */
module Traffic {
  import opened Basics
  import opened Text

  datatype Account = Account(
    id: string,
    name: string,
    syncId: string,
    syncMode: string,
    syncEnabled: bool,
    deleted: bool,
    used: nat,
    ingress: nat,
    epoch: nat,
    resetAt: Option<int>,
    period: Option<nat>
  )

  // ---- who takes part in sync ----

  function EffectiveMode(u: Account): string {
    var m := Trim(u.syncMode);
    if m != "" then m else if Trim(u.syncId) != "" then "identity" else "local"
  }

  predicate SyncActive(u: Account) {
    !u.deleted && Trim(u.syncId) != "" && EffectiveMode(u) != "local" && u.syncEnabled
  }

  /** SeedIngressFromUsed */
  function Seed(u: Account): Account {
    if u.ingress == 0 && u.used > 0 then u.(ingress := u.used) else u
  }

  function SeedIfJoined(before: Account, after: Account): Account {
    if !SyncActive(before) && SyncActive(after) then Seed(after) else after
  }

  /** The order the pair (epoch, ingress) may only go up in: what was counted is never taken back. */
  predicate NotBefore(a: Account, b: Account) {
    a.epoch < b.epoch || (a.epoch == b.epoch && a.ingress <= b.ingress)
  }

  // ---- usage polls ----

  /** ApplyTrafficUsage on one user: the dataplane's total is v. */
  function Polled(u: Account, v: nat): Account {
    if SyncActive(u) then
      u.(epoch := if v < u.ingress then u.epoch + 1 else u.epoch, ingress := v)
    else
      u.(epoch := if v < u.used || v < u.ingress then u.epoch + 1 else u.epoch, used := v, ingress := v)
  }

  function PolledAll(users: seq<Account>, updates: map<string, nat>): (r: seq<Account>)
    ensures |r| == |users|
    ensures forall i :: 0 <= i < |users| ==>
      r[i] == if users[i].id in updates then Polled(users[i], updates[users[i].id]) else users[i]
  {
    hide Polled;
    seq(|users|, i requires 0 <= i < |users| =>
      if users[i].id in updates then Polled(users[i], updates[users[i].id]) else users[i])
  }

  // ---- periodic resets ----

  predicate Due(u: Account, now: int) {
    u.resetAt.Some? && u.resetAt.value <= now
  }

  /** Two's complement reading of the low 64 bits. */
  function Signed64(x: int): int {
    (x + 0x8000_0000_0000_0000) % 0x1_0000_0000_0000_0000 - 0x8000_0000_0000_0000
  }

  const NANOS_PER_SECOND := 1_000_000_000

  /** time.Duration(seconds) * time.Second, in 64-bit arithmetic. */
  function Period(seconds: nat): int {
    Signed64(seconds * NANOS_PER_SECOND)
  }

  function Reset(u: Account, now: int): Account {
    u.(used := 0, ingress := 0, epoch := u.epoch + 1,
       resetAt := if u.period.Some? && u.period.value > 0 then Some(now + Period(u.period.value)) else None)
  }

  function Ticked(users: seq<Account>, now: int): (r: seq<Account>)
    ensures |r| == |users|
    ensures forall i :: 0 <= i < |users| ==> r[i] == if Due(users[i], now) then Reset(users[i], now) else users[i]
  {
    hide Reset;
    seq(|users|, i requires 0 <= i < |users| => if Due(users[i], now) then Reset(users[i], now) else users[i])
  }

  // ---- PATCH ----

  /** A time in a PATCH body: null or the empty string, a time, or text that is none. */
  datatype Stamp = NoTime | At(time: int) | BadTime

  /** The fields of a PATCH body that matter here; the inner options are JSON null. */
  datatype Edit = Edit(
    name: Option<string>,
    syncId: Option<string>,
    syncMode: Option<string>,
    syncEnabled: Option<bool>,
    used: Option<nat>,
    ingress: Option<nat>,
    expiresAt: Option<Stamp>,
    resetAt: Option<Stamp>,
    period: Option<Option<nat>>
  )

  /** An edit is refused for a name or a sync id another live user holds, for an unknown mode and for a bad time. */
  predicate Acceptable(users: seq<Account>, i: nat, e: Edit)
    requires i < |users|
  {
    NameFree(users, i, e) && SyncFree(users, i, e) && TimesOk(e)
  }

  predicate NameFree(users: seq<Account>, i: nat, e: Edit)
    requires i < |users|
  {
    e.name.Some? && e.name.value != "" && e.name.value != users[i].name ==>
      forall j :: 0 <= j < |users| && j != i ==> users[j].name != e.name.value || users[j].deleted
  }

  predicate SyncFree(users: seq<Account>, i: nat, e: Edit)
    requires i < |users|
  {
    && (e.syncId.Some? && Trim(e.syncId.value) != "" && Trim(e.syncId.value) != users[i].syncId ==>
          forall j :: 0 <= j < |users| && j != i ==> users[j].syncId != Trim(e.syncId.value) || users[j].deleted)
    && (e.syncMode.Some? ==> Trim(e.syncMode.value) in ["local", "identity", "full"])
  }

  predicate TimesOk(e: Edit) {
    e.expiresAt != Some(BadTime) && e.resetAt != Some(BadTime)
  }

  function WithName(u: Account, e: Edit): Account {
    if e.name.Some? && e.name.value != "" then u.(name := e.name.value) else u
  }

  function WithIdentity(u: Account, e: Edit, newId: string): Account {
    var u1 := if e.syncId.Some? then u.(syncId := Trim(e.syncId.value)) else u;
    var u2 :=
      if e.syncMode.None? then u1
      else
        var mode := Trim(e.syncMode.value);
        u1.(syncMode := mode,
            syncId := if mode != "local" && u1.syncId == "" then newId else u1.syncId,
            syncEnabled := if mode != "local" && e.syncEnabled.None? then true else u1.syncEnabled);
    if e.syncEnabled.Some? then u2.(syncEnabled := e.syncEnabled.value) else u2
  }

  function WithUsed(u: Account, used: Option<nat>): Account {
    match used
    case None => u
    case Some(v) =>
      if v < u.used && !SyncActive(u) then u.(epoch := u.epoch + 1, ingress := v, used := v) else u.(used := v)
  }

  function WithIngress(u: Account, ingress: Option<nat>): Account {
    match ingress
    case None => u
    case Some(v) => u.(epoch := if v < u.ingress then u.epoch + 1 else u.epoch, ingress := v)
  }

  function WithSchedule(u: Account, e: Edit): Account {
    u.(resetAt := if e.resetAt.None? then u.resetAt else if e.resetAt.value.At? then Some(e.resetAt.value.time) else None,
       period := if e.period.Some? then e.period.value else u.period)
  }

  function Patched(u: Account, e: Edit, newId: string): Account {
    SeedIfJoined(u, WithSchedule(WithIngress(WithUsed(WithIdentity(WithName(u, e), e, newId), e.used), e.ingress), e))
  }

  // ---- the sync toggle, imports and deletions ----

  /** handleUsersSyncToggle: joining seeds the ingress counter every time; leaving only clears the flag. */
  function Toggled(u: Account, on: bool, mode: string, newId: string): Account {
    if u.deleted then u
    else if !on then u.(syncEnabled := false)
    else
      var m := if Trim(mode) == "" then "identity" else Trim(mode);
      if m != "identity" && m != "full" then u
      else Seed(u.(syncMode := m, syncEnabled := true, syncId := if Trim(u.syncId) == "" then newId else u.syncId))
  }

  /** handleUsersSyncMembership: the flag is set or cleared by sync id; joining this way seeds nothing. */
  function Membered(u: Account, enable: seq<string>, disable: seq<string>): Account {
    if u.syncId == "" then u
    else if Listed(disable, u.syncId) then u.(syncEnabled := false)
    else if Listed(enable, u.syncId) then u.(syncEnabled := true)
    else u
  }

  /** What an import or a deletion does here: it replaces the sync fields, seeding on joining. */
  function Merged(u: Account, syncId: string, mode: string, enabled: bool, deleted: bool): Account {
    SeedIfJoined(u, u.(syncId := syncId, syncMode := mode, syncEnabled := enabled, deleted := deleted))
  }

  function MemberedAll(users: seq<Account>, enable: seq<string>, disable: seq<string>): (r: seq<Account>)
    ensures |r| == |users| && forall i :: 0 <= i < |users| ==> r[i] == Membered(users[i], enable, disable)
  {
    hide Membered;
    seq(|users|, i requires 0 <= i < |users| => Membered(users[i], enable, disable))
  }

  // ---- metric posts from the hub ----

  datatype Item = Item(syncId: string, globalUsed: Option<nat>, resetIngress: bool, resetGlobal: bool)

  /** The user a sync id stands for: the last one that holds it. */
  function Target(users: seq<Account>, sid: string): (r: Option<nat>)
    ensures r.Some? ==> r.value < |users| && users[r.value].syncId == sid
  {
    if users == [] || sid == "" then None
    else if users[|users| - 1].syncId == sid then Some(|users| - 1)
    else Target(users[..|users| - 1], sid)
  }

  function Metered(u: Account, it: Item): Account {
    u.(epoch := if it.resetIngress then u.epoch + 1 else u.epoch,
       ingress := if it.resetIngress then 0 else u.ingress,
       used := if it.globalUsed.Some? then it.globalUsed.value else if it.resetGlobal then 0 else u.used)
  }

  function MeteredOne(users: seq<Account>, it: Item): (r: seq<Account>)
    ensures |r| == |users|
  {
    var t := Target(users, Trim(it.syncId));
    if t.None? then users else users[t.value := Metered(users[t.value], it)]
  }

  function MeteredAll(users: seq<Account>, items: seq<Item>): (r: seq<Account>)
    ensures |r| == |users|
  {
    if items == [] then users else MeteredOne(MeteredAll(users, items[..|items| - 1]), items[|items| - 1])
  }

  // ---- runs ----

  datatype Op =
    | Poll(updates: map<string, nat>)
    | Tick(now: int)
    | Patch(i: nat, edit: Edit, newId: string)
    | Toggle(i: nat, on: bool, mode: string, newId: string)
    | Merge(i: nat, syncId: string, mode: string, enabled: bool, deleted: bool)
    | Membership(enable: seq<string>, disable: seq<string>)
    | Metrics(items: seq<Item>)

  function Apply(users: seq<Account>, op: Op): (r: seq<Account>)
    ensures |r| == |users|
  {
    match op
    case Poll(updates) => PolledAll(users, updates)
    case Tick(now) => Ticked(users, now)
    case Patch(i, e, newId) =>
      if i < |users| && Acceptable(users, i, e) then users[i := Patched(users[i], e, newId)] else users
    case Toggle(i, on, mode, newId) => if i < |users| then users[i := Toggled(users[i], on, mode, newId)] else users
    case Merge(i, sid, mode, enabled, deleted) =>
      if i < |users| then users[i := Merged(users[i], sid, mode, enabled, deleted)] else users
    case Membership(enable, disable) => MemberedAll(users, enable, disable)
    case Metrics(items) => MeteredAll(users, items)
  }

  function Run(users: seq<Account>, ops: seq<Op>): (r: seq<Account>)
    ensures |r| == |users|
  {
    if ops == [] then users else Apply(Run(users, ops[..|ops| - 1]), ops[|ops| - 1])
  }

  // ---- the counters never go back ----

  lemma SeedGrows(u: Account)
    ensures NotBefore(u, Seed(u)) && Seed(u).id == u.id
  {
  }

  lemma PollGrows(u: Account, v: nat)
    ensures NotBefore(u, Polled(u, v)) && Polled(u, v).id == u.id
  {
    hide SyncActive;
  }

  lemma PatchGrows(u: Account, e: Edit, newId: string)
    ensures NotBefore(u, Patched(u, e, newId)) && Patched(u, e, newId).id == u.id
  {
    hide SyncActive, Trim, Seed;
    var u0 := WithIdentity(WithName(u, e), e, newId);
    assert u0.epoch == u.epoch && u0.ingress == u.ingress && u0.id == u.id;
    var u1 := WithUsed(u0, e.used);
    assert NotBefore(u, u1) && u1.id == u.id;
    var u2 := WithIngress(u1, e.ingress);
    assert NotBefore(u, u2) && u2.id == u.id;
    SeedGrows(WithSchedule(u2, e));
  }

  lemma ToggleGrows(u: Account, on: bool, mode: string, newId: string)
    ensures NotBefore(u, Toggled(u, on, mode, newId)) && Toggled(u, on, mode, newId).id == u.id
  {
    hide Trim;
  }

  lemma MembershipGrows(u: Account, enable: seq<string>, disable: seq<string>)
    ensures NotBefore(u, Membered(u, enable, disable)) && Membered(u, enable, disable).id == u.id
  {
    hide Trim;
  }

  lemma MergeGrows(u: Account, syncId: string, mode: string, enabled: bool, deleted: bool)
    ensures NotBefore(u, Merged(u, syncId, mode, enabled, deleted)) && Merged(u, syncId, mode, enabled, deleted).id == u.id
  {
    hide SyncActive;
  }

  ghost predicate AllGrow(a: seq<Account>, b: seq<Account>) {
    |a| == |b| && forall i :: 0 <= i < |a| ==> NotBefore(a[i], b[i]) && a[i].id == b[i].id
  }

  lemma {:induction false} MetricsGrow(users: seq<Account>, items: seq<Item>)
    ensures AllGrow(users, MeteredAll(users, items))
  {
    hide Target, Trim;
    if items != [] {
      MetricsGrow(users, items[..|items| - 1]);
    }
  }

  lemma ApplyGrows(users: seq<Account>, op: Op)
    ensures AllGrow(users, Apply(users, op))
  {
    hide Polled, Reset, Patched, Toggled, Merged, Acceptable, MeteredAll, Membered;
    match op
    case Poll(updates) =>
      forall i | 0 <= i < |users| && users[i].id in updates
        ensures NotBefore(users[i], Polled(users[i], updates[users[i].id])) && Polled(users[i], updates[users[i].id]).id == users[i].id
      {
        PollGrows(users[i], updates[users[i].id]);
      }
    case Tick(now) =>
      forall i | 0 <= i < |users|
        ensures NotBefore(users[i], Reset(users[i], now)) && Reset(users[i], now).id == users[i].id
      {
        ResetGrows(users[i], now);
      }
    case Patch(i, e, newId) =>
      if i < |users| { PatchGrows(users[i], e, newId); }
    case Toggle(i, on, mode, newId) =>
      if i < |users| { ToggleGrows(users[i], on, mode, newId); }
    case Merge(i, sid, mode, enabled, deleted) =>
      if i < |users| { MergeGrows(users[i], sid, mode, enabled, deleted); }
    case Membership(enable, disable) =>
      forall i | 0 <= i < |users|
        ensures NotBefore(users[i], Membered(users[i], enable, disable)) && Membered(users[i], enable, disable).id == users[i].id
      {
        MembershipGrows(users[i], enable, disable);
      }
    case Metrics(items) => MetricsGrow(users, items);
  }

  lemma ResetGrows(u: Account, now: int)
    ensures NotBefore(u, Reset(u, now)) && Reset(u, now).id == u.id
  {
    hide Period;
  }

  /** Whatever mix of writers runs, no user's (epoch, ingress) ever goes back. */
  lemma {:induction false} CountersNeverGoBack(users: seq<Account>, ops: seq<Op>)
    ensures AllGrow(users, Run(users, ops))
  {
    hide Apply;
    if ops != [] {
      CountersNeverGoBack(users, ops[..|ops| - 1]);
      ApplyGrows(Run(users, ops[..|ops| - 1]), ops[|ops| - 1]);
    }
  }

  // ---- joining without earlier usage ----

  predicate Listed(list: seq<string>, sid: string) {
    exists i :: 0 <= i < |list| && Trim(list[i]) == sid
  }

  /** The user starts to sync with a zero ingress counter although it has been used. */
  predicate JoinsUnseeded(before: Account, after: Account) {
    !SyncActive(before) && SyncActive(after) && after.ingress == 0 && after.used > 0
  }

  /** The one way to do so: a used user is switched on by the membership list. */
  predicate SwitchedOnUsed(u: Account, op: Op) {
    && op.Membership? && Listed(op.enable, u.syncId) && !Listed(op.disable, u.syncId)
    && !u.deleted && Trim(u.syncId) != "" && EffectiveMode(u) != "local" && !u.syncEnabled
    && u.ingress == 0 && u.used > 0
  }

  lemma SeedKeepsSync(u: Account)
    ensures SyncActive(Seed(u)) <==> SyncActive(u)
    ensures !(Seed(u).ingress == 0 && Seed(u).used > 0)
  {
    hide Trim;
  }

  /** Joining by a PATCH, an import or the toggle seeds. */
  lemma SeedIfJoinedSeeds(u: Account, v: Account)
    ensures !JoinsUnseeded(u, SeedIfJoined(u, v))
  {
    hide SyncActive;
    SeedKeepsSync(v);
  }

  lemma PatchSeeds(u: Account, e: Edit, newId: string)
    ensures !JoinsUnseeded(u, Patched(u, e, newId))
  {
    hide SyncActive, WithIdentity, WithName, WithUsed, WithIngress, WithSchedule, JoinsUnseeded, SeedIfJoined;
    SeedIfJoinedSeeds(u, WithSchedule(WithIngress(WithUsed(WithIdentity(WithName(u, e), e, newId), e.used), e.ingress), e));
  }

  lemma ToggleSeeds(u: Account, on: bool, mode: string, newId: string)
    ensures !JoinsUnseeded(u, Toggled(u, on, mode, newId))
  {
    hide Trim, Seed;
    if on && !u.deleted {
      var m := if Trim(mode) == "" then "identity" else Trim(mode);
      SeedKeepsSync(u.(syncMode := m, syncEnabled := true, syncId := if Trim(u.syncId) == "" then newId else u.syncId));
    }
  }

  lemma MergeSeeds(u: Account, syncId: string, mode: string, enabled: bool, deleted: bool)
    ensures !JoinsUnseeded(u, Merged(u, syncId, mode, enabled, deleted))
  {
    hide SyncActive, JoinsUnseeded, SeedIfJoined;
    SeedIfJoinedSeeds(u, u.(syncId := syncId, syncMode := mode, syncEnabled := enabled, deleted := deleted));
  }

  lemma CountersKeepSync(u: Account, v: Account)
    requires v.syncId == u.syncId && v.syncMode == u.syncMode && v.syncEnabled == u.syncEnabled && v.deleted == u.deleted
    ensures SyncActive(v) <==> SyncActive(u)
  {
    hide Trim;
  }

  lemma MemberJoins(u: Account, enable: seq<string>, disable: seq<string>)
    ensures JoinsUnseeded(u, Membered(u, enable, disable)) <==> SwitchedOnUsed(u, Membership(enable, disable))
  {
    hide Trim, Listed;
    TrimIsTrimmed("");
  }

  /**
   * Of all the operations only the membership list lets a user join without its
   * earlier usage: a user starts to sync with a zero ingress counter and used bytes
   * exactly when the list switches on a live, used, never counted one.
   */
  lemma MembershipSeedsNothing(users: seq<Account>, op: Op, i: nat)
    requires i < |users|
    ensures JoinsUnseeded(users[i], Apply(users, op)[i]) <==> SwitchedOnUsed(users[i], op)
  {
    hide Polled, Reset, Patched, Toggled, Merged, Acceptable, MeteredAll, Membered, SyncActive, Listed;
    var u, v := users[i], Apply(users, op)[i];
    match op
    case Poll(updates) =>
      if u.id in updates { PollKeepsSync(u, updates[u.id]); }
    case Tick(now) => TickKeepsSync(u, now);
    case Patch(k, e, newId) => if i == k { PatchSeeds(u, e, newId); }
    case Toggle(k, on, mode, newId) => if i == k { ToggleSeeds(u, on, mode, newId); }
    case Merge(k, sid, mode, enabled, deleted) => if i == k { MergeSeeds(u, sid, mode, enabled, deleted); }
    case Membership(enable, disable) => MemberJoins(u, enable, disable);
    case Metrics(items) =>
      MetricsTally(users, items);
      CountersKeepSync(u, v);
  }

  lemma TickKeepsSync(u: Account, now: int)
    ensures SyncActive(Reset(u, now)) <==> SyncActive(u)
  {
    hide Period;
    CountersKeepSync(u, Reset(u, now));
  }

  /** So a user listed to join comes in at zero where the toggle brings its usage along. */
  lemma ListAndToggleDiffer(u: Account)
    requires !u.deleted && Trim(u.syncId) != "" && u.syncId == Trim(u.syncId) && EffectiveMode(u) != "local" && !u.syncEnabled
    requires u.ingress == 0 && u.used > 0
    ensures var listed := Membered(u, [u.syncId], []);
      var toggled := Toggled(u, true, "", "");
      SyncActive(listed) && listed.ingress == 0 && SyncActive(toggled) && toggled.ingress == u.used
  {
    hide Trim;
    assert [u.syncId][0] == u.syncId;
    TrimIsTrimmed("");
    TrimIsTrimmed("identity");
    assert Trim("") == "" && Trim("identity") == "identity";
  }

  /** Seeding itself only fills a zero counter: what was counted before joining stays. */
  lemma JoinSeedsAtZero(u: Account, e: Edit, newId: string)
    ensures var v := WithIngress(WithUsed(WithIdentity(WithName(u, e), e, newId), e.used), e.ingress);
      !SyncActive(u) && SyncActive(Patched(u, e, newId)) ==>
        Patched(u, e, newId).ingress == if v.ingress == 0 then v.used else v.ingress
  {
    hide WithIdentity, WithName, WithUsed, WithIngress, SyncActive;
    var v := WithSchedule(WithIngress(WithUsed(WithIdentity(WithName(u, e), e, newId), e.used), e.ingress), e);
    SeedKeepsSync(v);
  }

  // ---- polls ----

  lemma PollKeepsSync(u: Account, v: nat)
    ensures SyncActive(Polled(u, v)) <==> SyncActive(u)
    ensures SyncActive(u) ==> Polled(u, v).used == u.used
    ensures !SyncActive(u) ==> Polled(u, v).used == v && Polled(u, v).ingress == v
  {
    hide Trim;
  }

  /** Over any run of polls the used bytes of a sync-active user belong to the hub. */
  lemma {:induction false} PollsLeaveUsedToTheHub(users: seq<Account>, ops: seq<Op>, i: nat)
    requires forall k :: 0 <= k < |ops| ==> ops[k].Poll?
    requires i < |users| && SyncActive(users[i])
    ensures SyncActive(Run(users, ops)[i]) && Run(users, ops)[i].used == users[i].used
  {
    hide Polled, SyncActive;
    if ops != [] {
      PollsLeaveUsedToTheHub(users, ops[..|ops| - 1], i);
      var mid := Run(users, ops[..|ops| - 1]);
      var updates := ops[|ops| - 1].updates;
      if mid[i].id in updates {
        PollKeepsSync(mid[i], updates[mid[i].id]);
      }
    }
  }

  /** A poll delivered twice counts once. */
  lemma PollTwice(users: seq<Account>, updates: map<string, nat>)
    ensures PolledAll(PolledAll(users, updates), updates) == PolledAll(users, updates)
  {
    hide SyncActive;
    var once := PolledAll(users, updates);
    forall i | 0 <= i < |users| ensures PolledAll(once, updates)[i] == once[i] {
      if users[i].id in updates {
        PollKeepsSync(users[i], updates[users[i].id]);
      }
    }
  }

  // ---- reset ticks ----

  /**
   * After a tick no user is due, exactly when the periods of the users that were due
   * come out positive in 64-bit nanoseconds.
   */
  lemma TickClearsTheDue(users: seq<Account>, now: int)
    ensures
      (forall i :: 0 <= i < |users| ==> !Due(Ticked(users, now)[i], now))
      <==>
      (forall i :: 0 <= i < |users| && Due(users[i], now) && users[i].period.Some? && users[i].period.value > 0 ==>
         Period(users[i].period.value) > 0)
  {
    hide Period;
    var r := Ticked(users, now);
    forall i | 0 <= i < |users|
      ensures Due(r[i], now) <==>
        Due(users[i], now) && users[i].period.Some? && users[i].period.value > 0 && Period(users[i].period.value) <= 0
    {
    }
    if forall i :: 0 <= i < |users| ==> !Due(r[i], now) {
      forall i | 0 <= i < |users| && Due(users[i], now) && users[i].period.Some? && users[i].period.value > 0
        ensures Period(users[i].period.value) > 0
      {
        assert !Due(r[i], now);
      }
    }
  }

  /** Periods of less than 2^63 nanoseconds (some 292 years) are kept exactly. */
  lemma ShortPeriodsAdvance(seconds: nat)
    requires 0 < seconds && seconds * NANOS_PER_SECOND < 0x8000_0000_0000_0000
    ensures Period(seconds) == seconds * NANOS_PER_SECOND > 0
  {
  }

  /** A longer one may wrap around; then the user stays due and every tick resets it again. */
  lemma LongPeriodStaysDue(u: Account, now: int)
    requires Due(u, now) && u.period == Some(9_223_372_037)
    ensures var once := Ticked([u], now)[0];
      Due(once, now) && Ticked([once], now)[0].epoch == u.epoch + 2
  {
    assert Period(9_223_372_037) < 0;
    var once := Ticked([u], now)[0];
    assert Due(once, now);
  }

  // ---- metric posts ----

  /** How many of the items reset the ingress counter of user j. */
  ghost function Resets(users: seq<Account>, items: seq<Item>, j: nat): nat {
    if items == [] then 0
    else
      var it := items[|items| - 1];
      Resets(users, items[..|items| - 1], j) + (if it.resetIngress && Target(users, Trim(it.syncId)) == Some(j) then 1 else 0)
  }

  /** How many of the items change some user. */
  ghost function Effective(users: seq<Account>, items: seq<Item>): nat {
    if items == [] then 0
    else
      var it := items[|items| - 1];
      Effective(users, items[..|items| - 1]) +
      (if Target(users, Trim(it.syncId)).Some? && (it.resetIngress || it.resetGlobal || it.globalUsed.Some?) then 1 else 0)
  }

  /** The last value the items give to the used bytes of user j. */
  ghost function LastUsed(users: seq<Account>, items: seq<Item>, j: nat): Option<nat> {
    if items == [] then None
    else
      var it := items[|items| - 1];
      if Target(users, Trim(it.syncId)) == Some(j) && (it.globalUsed.Some? || it.resetGlobal) then
        Some(if it.globalUsed.Some? then it.globalUsed.value else 0)
      else LastUsed(users, items[..|items| - 1], j)
  }

  lemma {:induction false} TargetDependsOnIds(a: seq<Account>, b: seq<Account>, sid: string)
    requires |a| == |b| && forall i :: 0 <= i < |a| ==> a[i].syncId == b[i].syncId
    ensures Target(a, sid) == Target(b, sid)
  {
    if a != [] {
      TargetDependsOnIds(a[..|a| - 1], b[..|b| - 1], sid);
    }
  }

  /** A post moves each user's epoch by its own resets, and only the addressed users' counters at all. */
  lemma {:induction false} MetricsTally(users: seq<Account>, items: seq<Item>)
    ensures forall j :: 0 <= j < |users| ==>
      var v := MeteredAll(users, items)[j];
      v == users[j].(
        epoch := users[j].epoch + Resets(users, items, j),
        ingress := if Resets(users, items, j) > 0 then 0 else users[j].ingress,
        used := if LastUsed(users, items, j).Some? then LastUsed(users, items, j).value else users[j].used)
  {
    hide Trim, Target;
    if items != [] {
      var init, it := items[..|items| - 1], items[|items| - 1];
      MetricsTally(users, init);
      var mid := MeteredAll(users, init);
      TargetDependsOnIds(users, mid, Trim(it.syncId));
    }
  }

  lemma {:induction false} TargetIsLast(users: seq<Account>, sid: string)
    ensures sid != "" ==> (Target(users, sid).None? <==> forall i :: 0 <= i < |users| ==> users[i].syncId != sid)
    ensures Target(users, sid).Some? ==> forall i :: Target(users, sid).value < i < |users| ==> users[i].syncId != sid
    ensures sid == "" ==> Target(users, sid).None?
  {
    if users != [] {
      TargetIsLast(users[..|users| - 1], sid);
    }
  }

  // ---- the stored users ----

  /** The users file: every writer loads it, updates it in place and saves it, which may fail. */
  class AccountStore {
    var users: seq<Account>

    /** ApplyTrafficUsage; `changed` is whether there was anything to save. */
    method ApplyUsage(updates: map<string, nat>, saveOk: bool) returns (changed: bool)
      modifies this
      ensures changed <==> PolledAll(old(users), updates) != old(users)
      ensures users == if saveOk then PolledAll(old(users), updates) else old(users)
    {
      hide SyncActive;
      changed := false;
      var loaded := users;
      for i := 0 to |users|
        invariant |loaded| == |users| && users == old(users)
        invariant forall j :: 0 <= j < |users| ==> loaded[j] == if j < i then PolledAll(users, updates)[j] else users[j]
        invariant changed <==> exists j :: 0 <= j < i && PolledAll(users, updates)[j] != users[j]
      {
        var u := loaded[i];
        if u.id in updates {
          var v := updates[u.id];
          var active := SyncActive(u);
          if active {
            if v < u.ingress { u := u.(epoch := u.epoch + 1); }
            if u.ingress != v {
              u := u.(ingress := v);
              changed := true;
            }
          } else {
            if v < u.used || v < u.ingress { u := u.(epoch := u.epoch + 1); }
            if u.used != v || u.ingress != v {
              u := u.(used := v, ingress := v);
              changed := true;
            }
          }
          loaded := loaded[i := u];
        }
      }
      assert loaded == PolledAll(users, updates);
      if changed && saveOk {
        users := loaded;
      }
    }

    /** applyTrafficResetsLocked; `ids` are the users whose dataplane counters are to be cleared. */
    method ResetDue(now: int, saveOk: bool) returns (ids: seq<string>)
      modifies this
      ensures users == if saveOk then Ticked(old(users), now) else old(users)
      ensures saveOk ==> forall i :: 0 <= i < |users| && Due(old(users)[i], now) ==> users[i].id in ids
      ensures !saveOk ==> ids == []
      ensures forall id :: id in ids ==> exists i :: 0 <= i < |users| && Due(old(users)[i], now) && users[i].id == id
    {
      hide Period;
      var loaded := users;
      ids := [];
      for i := 0 to |users|
        invariant |loaded| == |users| && users == old(users)
        invariant forall j :: 0 <= j < |users| ==> loaded[j] == if j < i then Ticked(users, now)[j] else users[j]
        invariant forall j :: 0 <= j < i && Due(users[j], now) ==> users[j].id in ids
        invariant forall id :: id in ids ==> exists j :: 0 <= j < i && Due(users[j], now) && users[j].id == id
      {
        var u := loaded[i];
        if u.resetAt.Some? && u.resetAt.value <= now {
          u := u.(used := 0, ingress := 0, epoch := u.epoch + 1);
          ids := ids + [u.id];
          if u.period.Some? && u.period.value > 0 {
            u := u.(resetAt := Some(now + Period(u.period.value)));
          } else {
            u := u.(resetAt := None);
          }
          loaded := loaded[i := u];
        }
      }
      assert loaded == Ticked(users, now);
      if ids == [] || !saveOk {
        ids := [];
        return;
      }
      users := loaded;
    }

    /** handleUsersSyncMetricsPost */
    method ApplyMetrics(items: seq<Item>, saveOk: bool) returns (applied: nat)
      modifies this
      ensures users == if saveOk then MeteredAll(old(users), items) else old(users)
      ensures applied == Effective(old(users), items)
    {
      hide Trim, Target;
      var bySync := IndexBySync(users);
      var loaded := users;
      applied := 0;
      for k := 0 to |items|
        invariant users == old(users) && |loaded| == |users| && applied == Effective(users, items[..k])
        invariant forall j :: 0 <= j < |users| ==> loaded[j].syncId == users[j].syncId
        invariant loaded == MeteredAll(users, items[..k])
        invariant applied == 0 ==> loaded == users
      {
        var it := items[k];
        var sid := Trim(it.syncId);
        assert items[..k + 1][..k] == items[..k];
        TargetDependsOnIds(users, loaded, sid);
        if sid in bySync {
          var u := loaded[bySync[sid]];
          if it.resetIngress { u := u.(epoch := u.epoch + 1, ingress := 0); }
          if it.resetGlobal { u := u.(used := 0); }
          if it.globalUsed.Some? { u := u.(used := it.globalUsed.value); }
          if it.resetIngress || it.resetGlobal || it.globalUsed.Some? { applied := applied + 1; }
          loaded := loaded[bySync[sid] := u];
        }
      }
      assert items[..|items|] == items;
      if applied > 0 && saveOk {
        users := loaded;
      }
    }

    /** handleUsersPatch, the traffic and sync fields */
    method PatchUser(i: nat, e: Edit, newId: string, saveOk: bool) returns (ok: bool)
      requires i < |users|
      modifies this
      ensures ok <==> Acceptable(old(users), i, e) && saveOk
      ensures users == if ok then Apply(old(users), Patch(i, e, newId)) else old(users)
    {
      hide SyncActive, Trim, WithIdentity, WithUsed, WithIngress, WithSchedule, SyncFree, WithName, NameFree;
      var named := PatchName(users, i, e);
      if named.None? { return false; }
      var identified := PatchIdentity(users, i, named.value, e, newId);
      if identified.None? { return false; }
      if e.expiresAt == Some(BadTime) || e.resetAt == Some(BadTime) { return false; }
      var u := PatchCounters(identified.value, e);
      u := PatchSchedule(u, e);
      if !SyncActive(users[i]) && SyncActive(u) {
        u := Seed(u);
      }
      if !saveOk { return false; }
      users := users[i := u];
      return true;
    }
  }

  /** The name of a PATCH, or its refusal. */
  method PatchName(users: seq<Account>, i: nat, e: Edit) returns (r: Option<Account>)
    requires i < |users|
    ensures r == if NameFree(users, i, e) then Some(WithName(users[i], e)) else None
    ensures r.Some? ==> r.value.syncId == users[i].syncId
  {
    var u := users[i];
    if e.name.Some? && e.name.value != "" {
      var v := e.name.value;
      if v != u.name {
        for j := 0 to |users|
          invariant forall k :: 0 <= k < j && k != i ==> users[k].name != v || users[k].deleted
        {
          if j != i && users[j].name == v && !users[j].deleted { return None; }
        }
      }
      u := u.(name := v);
    }
    return Some(u);
  }

  /** The sync fields of a PATCH, or its refusal. */
  method PatchIdentity(users: seq<Account>, i: nat, named: Account, e: Edit, newId: string) returns (r: Option<Account>)
    requires i < |users| && named.syncId == users[i].syncId
    ensures r == if SyncFree(users, i, e) then Some(WithIdentity(named, e, newId)) else None
  {
    hide SyncActive, Trim;
    var u := named;
    if e.syncId.Some? {
      var v := Trim(e.syncId.value);
      if v != "" && v != u.syncId {
        for j := 0 to |users|
          invariant forall k :: 0 <= k < j && k != i ==> users[k].syncId != v || users[k].deleted
        {
          if j != i && users[j].syncId == v && !users[j].deleted { return None; }
        }
      }
      u := u.(syncId := v);
    }
    if e.syncMode.Some? {
      var v := Trim(e.syncMode.value);
      if v != "local" && v != "identity" && v != "full" {
        assert v !in ["local", "identity", "full"];
        return None;
      }
      u := u.(syncMode := v);
      if v != "local" && u.syncId == "" { u := u.(syncId := newId); }
      if v != "local" && !u.syncEnabled && e.syncEnabled.None? { u := u.(syncEnabled := true); }
    }
    if e.syncEnabled.Some? { u := u.(syncEnabled := e.syncEnabled.value); }
    assert u == WithIdentity(named, e, newId);
    assert SyncFree(users, i, e);
    return Some(u);
  }

  /** The counter fields of a PATCH, in the order the handler reads them. */
  method PatchCounters(was: Account, e: Edit) returns (u: Account)
    ensures u == WithIngress(WithUsed(was, e.used), e.ingress)
  {
    hide SyncActive;
    u := was;
    if e.used.Some? {
      if e.used.value < u.used && !SyncActive(u) {
        u := u.(epoch := u.epoch + 1, ingress := e.used.value);
      }
      u := u.(used := e.used.value);
    }
    if e.ingress.Some? {
      if e.ingress.value < u.ingress { u := u.(epoch := u.epoch + 1); }
      u := u.(ingress := e.ingress.value);
    }
  }

  /** The reset fields of a PATCH. */
  method PatchSchedule(was: Account, e: Edit) returns (u: Account)
    ensures u == WithSchedule(was, e)
  {
    u := was;
    if e.resetAt.Some? {
      u := u.(resetAt := if e.resetAt.value.At? then Some(e.resetAt.value.time) else None);
    }
    if e.period.Some? { u := u.(period := e.period.value); }
  }

  /** The index the metrics handler builds: the last holder of each non-empty sync id. */
  method IndexBySync(users: seq<Account>) returns (bySync: map<string, nat>)
    ensures forall sid :: sid in bySync <==> Target(users, sid).Some?
    ensures forall sid :: sid in bySync ==> Target(users, sid) == Some(bySync[sid])
  {
    bySync := map[];
    for i := 0 to |users|
      invariant forall sid :: sid in bySync <==> Target(users[..i], sid).Some?
      invariant forall sid :: sid in bySync ==> Target(users[..i], sid) == Some(bySync[sid])
    {
      assert users[..i + 1][..i] == users[..i];
      if users[i].syncId != "" {
        bySync := bySync[users[i].syncId := i];
      }
    }
    assert users[..|users|] == users;
  }
}
