/** Listen ports of inbound sets (internal/controlplane/port_policy.go and the paths that store sets). */
module PortPolicy {
  import opened Basics
  import opened Text

  datatype Net = Tcp | Udp

  /** What decides a set's networks: a demux template's network list, or its preset's traits (None: no known preset). */
  datatype Shape = Demux(network: seq<string>) | Plain(traits: Option<seq<string>>)

  datatype InboundSet = InboundSet(name: string, port: nat, shape: Shape)

  // ---- networks ----

  /** networksFromTraits, as the set of its results. */
  function TraitNets(traits: seq<string>): set<Net> {
    var udp := exists t | t in traits :: Lower(t) in ["udp", "quic", "uot", "udp_over_tcp"];
    var tcp := exists t | t in traits :: Lower(t) == "tcp";
    (if tcp || !udp then {Tcp} else {}) + (if udp then {Udp} else {})
  }

  method NetworksFromTraits(traits: seq<string>) returns (nets: set<Net>)
    ensures nets == TraitNets(traits) && nets != {}
  {
    var hasTcp, hasUdp := false, false;
    for i := 0 to |traits|
      invariant hasTcp <==> exists t :: t in traits[..i] && Lower(t) == "tcp"
      invariant hasUdp <==> exists t :: t in traits[..i] && Lower(t) in ["udp", "quic", "uot", "udp_over_tcp"]
    {
      var low := Lower(traits[i]);
      if low == "tcp" {
        hasTcp := true;
      } else if low in ["udp", "quic", "uot", "udp_over_tcp"] {
        hasUdp := true;
      }
      assert traits[..i + 1] == traits[..i] + [traits[i]];
    }
    assert traits[..|traits|] == traits;
    if !hasTcp && !hasUdp { hasTcp := true; }
    nets := {};
    if hasTcp { nets := nets + {Tcp}; }
    if hasUdp { nets := nets + {Udp}; }
  }

  /** portNetworks: which networks a set occupies on its port. */
  function Nets(s: InboundSet): (nets: set<Net>)
    ensures nets != {}
  {
    match s.shape
    case Demux(network) =>
      var listed := (if exists v | v in network :: Canon(v) == "tcp" then {Tcp} else {}) +
                    (if exists v | v in network :: Canon(v) == "udp" then {Udp} else {});
      if listed != {} then listed else {Tcp, Udp}
    case Plain(None) => {Tcp}
    case Plain(Some(traits)) => TraitNets(traits)
  }

  /** Any of the four UDP traits needs UDP, in whatever case it is written; TCP is needed when asked for or when UDP is not. */
  lemma TraitNetworks(traits: seq<string>)
    ensures Udp in TraitNets(traits) <==>
      exists i :: 0 <= i < |traits| &&
        (Lower(traits[i]) == "udp" || Lower(traits[i]) == "quic" || Lower(traits[i]) == "uot" || Lower(traits[i]) == "udp_over_tcp")
    ensures Tcp in TraitNets(traits) <==> Udp !in TraitNets(traits) || exists i :: 0 <= i < |traits| && Lower(traits[i]) == "tcp"
  {
    hide Lower;
    forall i | 0 <= i < |traits| ensures traits[i] in traits {
    }
  }

  /** A demux set occupies the networks it lists, or both; a set of an unknown preset occupies TCP. */
  lemma SetNetworks(s: InboundSet)
    ensures s.shape.Demux? ==>
      var tcp := exists i :: 0 <= i < |s.shape.network| && Canon(s.shape.network[i]) == "tcp";
      var udp := exists i :: 0 <= i < |s.shape.network| && Canon(s.shape.network[i]) == "udp";
      (Tcp in Nets(s) <==> tcp || !udp) && (Udp in Nets(s) <==> udp || !tcp)
    ensures s.shape == Plain(None) ==> Nets(s) == {Tcp}
    ensures s.shape.Plain? && s.shape.traits.Some? ==> Nets(s) == TraitNets(s.shape.traits.value)
  {
    hide Canon, TraitNets;
    if s.shape.Demux? {
      forall i | 0 <= i < |s.shape.network| ensures s.shape.network[i] in s.shape.network {
      }
    }
  }

  // ---- occupation ----

  ghost predicate Occupies(s: InboundSet, port: nat, n: Net) {
    s.port == port && n in Nets(s)
  }

  /** portOccupiedNetworks */
  method OccupiedNetworks(sets: seq<InboundSet>, port: nat) returns (occ: set<Net>)
    ensures forall n :: n in occ <==> exists i :: 0 <= i < |sets| && Occupies(sets[i], port, n)
  {
    occ := {};
    for i := 0 to |sets|
      invariant forall n :: n in occ <==> exists j :: 0 <= j < i && Occupies(sets[j], port, n)
    {
      if sets[i].port == port {
        occ := occ + Nets(sets[i]);
        assert forall n :: n in Nets(sets[i]) ==> Occupies(sets[i], port, n);
      }
    }
  }

  ghost predicate FreeFor(sets: seq<InboundSet>, port: nat, need: set<Net>) {
    port != 0 && need != {} && forall i, n :: 0 <= i < |sets| && n in need ==> !Occupies(sets[i], port, n)
  }

  /** portFreeForNetworks */
  method PortFree(sets: seq<InboundSet>, port: nat, need: set<Net>) returns (free: bool)
    ensures free <==> FreeFor(sets, port, need)
  {
    if port == 0 || need == {} { return false; }
    var occ := OccupiedNetworks(sets, port);
    free := need * occ == {};
    if !free {
      var n :| n in need * occ;
      assert n in occ;
    } else {
      assert forall n :: n in need ==> n !in occ;
    }
  }

  // ---- suggestion ----

  const PREFERRED: seq<nat> := [443, 8443, 2053, 2083, 2087, 2096, 9443, 8444, 10443]

  predicate Candidate(p: nat) {
    p in PREFERRED || 10000 <= p < 20000
  }

  /** The port to suggest: the first preferred one that is free, else the lowest free one of the range, else none. */
  ghost predicate Suggests(sets: seq<InboundSet>, need: set<Net>, r: Option<nat>) {
    match r
    case None => forall p: nat :: Candidate(p) ==> !FreeFor(sets, p, need)
    case Some(p) =>
      && Candidate(p) && FreeFor(sets, p, need)
      && if p in PREFERRED then
           exists i :: 0 <= i < |PREFERRED| && PREFERRED[i] == p && forall k :: 0 <= k < i ==> !FreeFor(sets, PREFERRED[k], need)
         else forall q: nat :: Candidate(q) && (q in PREFERRED || q < p) ==> !FreeFor(sets, q, need)
  }

  lemma SuggestsOne(sets: seq<InboundSet>, need: set<Net>, a: Option<nat>, b: Option<nat>)
    requires Suggests(sets, need, a) && Suggests(sets, need, b)
    ensures a == b
  {
    hide FreeFor;
    if a.Some? && b.Some? && a.value in PREFERRED && b.value in PREFERRED {
      var i :| 0 <= i < |PREFERRED| && PREFERRED[i] == a.value && forall k :: 0 <= k < i ==> !FreeFor(sets, PREFERRED[k], need);
      var j :| 0 <= j < |PREFERRED| && PREFERRED[j] == b.value && forall k :: 0 <= k < j ==> !FreeFor(sets, PREFERRED[k], need);
      assert !(i < j) && !(j < i);
    }
  }

  /** suggestListenPort: a preferred port if one is free, else the lowest free one of 10000..19999. */
  method SuggestListenPort(sets: seq<InboundSet>, need: set<Net>) returns (r: Option<nat>)
    ensures Suggests(sets, need, r)
    ensures r.Some? && r.value !in [443, 8443, 2053, 2083, 2087, 2096, 9443, 8444, 10443] ==> 10000 <= r.value < 20000
    ensures FreeFor(sets, 443, need) ==> r == Some(443)
    ensures !FreeFor(sets, 443, need) && FreeFor(sets, 8443, need) ==> r == Some(8443)
  {
    hide FreeFor;
    for i := 0 to |PREFERRED|
      invariant forall p: nat :: p in PREFERRED[..i] ==> !FreeFor(sets, p, need)
      invariant forall k :: 0 <= k < i ==> !FreeFor(sets, PREFERRED[k], need)
    {
      var free := PortFree(sets, PREFERRED[i], need);
      assert i > 0 ==> !FreeFor(sets, PREFERRED[0], need);
      assert i > 1 ==> !FreeFor(sets, PREFERRED[1], need);
      if free { return Some(PREFERRED[i]); }
      assert PREFERRED[..i + 1] == PREFERRED[..i] + [PREFERRED[i]];
    }
    assert PREFERRED[..|PREFERRED|] == PREFERRED && PREFERRED[0] == 443 && PREFERRED[1] == 8443;
    var p: nat := 10000;
    while p < 20000
      invariant 10000 <= p <= 20000
      invariant forall q: nat :: 10000 <= q < p ==> !FreeFor(sets, q, need)
    {
      var free := PortFree(sets, p, need);
      if free { return Some(p); }
      p := p + 1;
    }
    return None;
  }

  // ---- how many sets it takes to exhaust the suggestion ----

  ghost function Ports(sets: seq<InboundSet>): set<nat> {
    set i | 0 <= i < |sets| :: sets[i].port
  }

  lemma {:induction false} PortsBound(sets: seq<InboundSet>)
    ensures |Ports(sets)| <= |sets|
  {
    if sets != [] {
      var n := |sets| - 1;
      PortsBound(sets[..n]);
      assert Ports(sets) == Ports(sets[..n]) + {sets[n].port} by {
        assert sets == sets[..n] + [sets[n]];
        forall p | p in Ports(sets[..n]) + {sets[n].port} ensures p in Ports(sets) {
          if p != sets[n].port {
            var i :| 0 <= i < n && sets[..n][i].port == p;
            assert sets[i].port == p;
          }
        }
      }
    }
  }

  ghost function Range(lo: nat, hi: nat): (r: set<nat>)
    ensures forall p :: p in r <==> lo <= p < hi
    decreases hi
  {
    if lo >= hi then {} else Range(lo, hi - 1) + {hi - 1}
  }

  lemma {:induction false} RangeSize(lo: nat, hi: nat)
    requires lo <= hi
    ensures |Range(lo, hi)| == hi - lo
    decreases hi - lo
  {
    if lo < hi {
      RangeSize(lo, hi - 1);
      var init := Range(lo, hi - 1);
      assert hi - 1 !in init && |init + {hi - 1}| == |init| + 1;
    }
  }

  /** The candidates as a set: eight preferred ports below the range, and the range. */
  ghost function Candidates(): set<nat> {
    {443, 8443, 2053, 2083, 2087, 2096, 9443, 8444} + Range(10000, 20000)
  }

  lemma CandidatesSize()
    ensures |Candidates()| == 10008 && forall p :: p in Candidates() ==> Candidate(p)
  {
    hide Range;
    RangeSize(10000, 20000);
    var low: set<nat> := {443, 8443, 2053, 2083, 2087, 2096, 9443, 8444};
    assert |low| == 8;
    assert forall p :: p in low ==> p in PREFERRED && p !in Range(10000, 20000);
    assert low !! Range(10000, 20000);
  }

  lemma OccupiedPortIsUsed(sets: seq<InboundSet>, p: nat, need: set<Net>)
    requires p != 0 && need != {} && !FreeFor(sets, p, need)
    ensures p in Ports(sets)
  {
    hide Nets;
    var i, n :| 0 <= i < |sets| && n in need && Occupies(sets[i], p, n);
    assert sets[i].port == p;
  }

  /**
   * The suggestion fails only when every candidate port is in use, which takes at
   * least 10008 sets: 10443 is a preferred port and lies in the range as well.
   */
  lemma ExhaustionNeedsManySets(sets: seq<InboundSet>, need: set<Net>)
    requires need != {} && forall p: nat :: Candidate(p) ==> !FreeFor(sets, p, need)
    ensures |sets| >= 10008
  {
    hide Candidates, FreeFor, Ports;
    CandidatesSize();
    forall p | p in Candidates() ensures p in Ports(sets) {
      OccupiedPortIsUsed(sets, p, need);
    }
    SubsetSize(Candidates(), Ports(sets));
    PortsBound(sets);
  }

  // ---- validateSet's conflict loop ----

  ghost predicate Clash(a: InboundSet, b: InboundSet) {
    a.port == b.port && !(Nets(a) !! Nets(b))
  }

  ghost predicate ConflictFree(s: InboundSet, others: seq<InboundSet>) {
    forall i :: 0 <= i < |others| && others[i].name != s.name ==> !Clash(s, others[i])
  }

  /** The checks of validateSet that involve the name, the port and the other sets. */
  method ValidateSet(s: InboundSet, others: seq<InboundSet>) returns (ok: bool)
    ensures ok <==> s.name != "" && s.port != 0 && ConflictFree(s, others)
  {
    if s.name == "" || s.port == 0 { return false; }
    for i := 0 to |others|
      invariant ConflictFree(s, others[..i])
    {
      var o := others[i];
      assert others[..i + 1] == others[..i] + [o];
      if o.name != s.name && o.port == s.port && Nets(s) * Nets(o) != {} {
        assert Clash(s, others[i]);
        return false;
      }
    }
    assert others[..|others|] == others;
    return true;
  }

  /** A suggested port always passes the conflict loop, for a set on the networks asked for. */
  lemma SuggestedNeverClashes(s: InboundSet, sets: seq<InboundSet>, need: set<Net>)
    requires FreeFor(sets, s.port, need) && Nets(s) <= need
    ensures s.port != 0 && ConflictFree(s, sets)
  {
    forall i | 0 <= i < |sets| && sets[i].name != s.name ensures !Clash(s, sets[i]) {
      assert s.port == sets[i].port ==> forall n :: n in Nets(s) ==> !Occupies(sets[i], s.port, n);
    }
  }

  // ---- every path that stores sets ----

  /** No two stored sets share a name, and no two share a network on a port. */
  ghost predicate Disjoint(sets: seq<InboundSet>) {
    forall i, j :: 0 <= i < j < |sets| ==> sets[i].name != sets[j].name && !Clash(sets[i], sets[j])
  }

  lemma AppendDisjoint(sets: seq<InboundSet>, s: InboundSet)
    requires Disjoint(sets) && ConflictFree(s, sets) && forall i :: 0 <= i < |sets| ==> sets[i].name != s.name
    ensures Disjoint(sets + [s])
  {
    hide Nets;
  }

  /** The sets without those of a name. */
  function Without(sets: seq<InboundSet>, name: string): seq<InboundSet> {
    if sets == [] then []
    else
      var rest := Without(sets[..|sets| - 1], name);
      if sets[|sets| - 1].name == name then rest else rest + [sets[|sets| - 1]]
  }

  lemma {:induction false} WithoutMembers(sets: seq<InboundSet>, name: string)
    ensures forall s :: s in Without(sets, name) <==> s in sets && s.name != name
  {
    if sets != [] {
      WithoutMembers(sets[..|sets| - 1], name);
      assert sets == sets[..|sets| - 1] + [sets[|sets| - 1]];
    }
  }

  lemma {:induction false} WithoutConcat(a: seq<InboundSet>, b: seq<InboundSet>, name: string)
    ensures Without(a + b, name) == Without(a, name) + Without(b, name)
  {
    if b == [] {
      assert a + b == a;
    } else {
      var init := b[..|b| - 1];
      WithoutConcat(a, init, name);
      assert (a + b)[..|a + b| - 1] == a + init;
    }
  }

  lemma {:induction false} WithoutAbsent(sets: seq<InboundSet>, name: string)
    requires forall i :: 0 <= i < |sets| ==> sets[i].name != name
    ensures Without(sets, name) == sets
  {
    if sets != [] {
      WithoutAbsent(sets[..|sets| - 1], name);
      assert sets == sets[..|sets| - 1] + [sets[|sets| - 1]];
    }
  }

  lemma {:induction false} WithoutDisjoint(sets: seq<InboundSet>, name: string)
    requires Disjoint(sets)
    ensures Disjoint(Without(sets, name))
    ensures forall s :: s in Without(sets, name) <==> s in sets && s.name != name
  {
    hide Clash;
    WithoutMembers(sets, name);
    if sets != [] {
      var init := sets[..|sets| - 1];
      WithoutDisjoint(init, name);
      forall i | 0 <= i < |Without(init, name)|
        ensures Without(init, name)[i].name != sets[|sets| - 1].name && !Clash(Without(init, name)[i], sets[|sets| - 1])
      {
        assert Without(init, name)[i] in init;
      }
    }
  }

  lemma ReplaceDisjoint(sets: seq<InboundSet>, idx: nat, s: InboundSet)
    requires Disjoint(sets) && idx < |sets| && sets[idx].name == s.name && ConflictFree(s, sets)
    ensures Disjoint(sets[idx := s])
  {
    hide Nets;
  }

  datatype Item = Item(name: string, port: nat, shape: Shape)

  /** The set an item becomes: its own port, or a suggested one when it names none. */
  ghost predicate Placed(s: InboundSet, item: Item, avoid: seq<InboundSet>, need: set<Net>) {
    s.name == item.name && s.shape == item.shape && s.port != 0 &&
    (item.port != 0 ==> s.port == item.port) &&
    (item.port == 0 ==> Suggests(avoid, need, Some(s.port)))
  }

  /** The set an item becomes can be stored beside `others`; `rest` is whether its other checks pass. */
  ghost predicate Fits(s: InboundSet, item: Item, others: seq<InboundSet>, avoid: seq<InboundSet>, need: set<Net>, rest: bool) {
    Placed(s, item, avoid, need) && s.name != "" && ConflictFree(s, others) && rest
  }

  lemma PlacedOnce(a: InboundSet, b: InboundSet, item: Item, avoid: seq<InboundSet>, need: set<Net>)
    requires Placed(a, item, avoid, need) && Placed(b, item, avoid, need)
    ensures a == b
  {
    hide Suggests;
    if item.port == 0 {
      SuggestsOne(avoid, need, Some(a.port), Some(b.port));
    }
  }

  lemma PlacedIsNamed(s: InboundSet, item: Item, avoid: seq<InboundSet>, need: set<Net>)
    requires Placed(s, item, avoid, need)
    ensures s.name == item.name && s.shape == item.shape && (item.port != 0 ==> s.port == item.port)
  {
    hide Suggests;
  }

  /** The choice of a port for one new set, and its validation against `others`: the set that fits, if there is one. */
  method Place(item: Item, others: seq<InboundSet>, avoid: seq<InboundSet>, need: set<Net>, rest: bool) returns (r: Option<InboundSet>)
    ensures r.Some? ==> Fits(r.value, item, others, avoid, need, rest)
    ensures r.None? <==> forall s :: !Fits(s, item, others, avoid, need, rest)
  {
    hide Suggests, ConflictFree;
    var port := item.port;
    if port == 0 {
      var picked := SuggestListenPort(avoid, need);
      if picked.None? {
        NoneFits(item, others, avoid, need, rest);
        return None;
      }
      SuggestedIsNotZero(avoid, need, picked.value);
      port := picked.value;
    }
    var s := InboundSet(item.name, port, item.shape);
    assert Placed(s, item, avoid, need);
    var ok := ValidateSet(s, others);
    if ok && rest { return Some(s); }
    forall x ensures !Fits(x, item, others, avoid, need, rest) {
      if Placed(x, item, avoid, need) {
        PlacedOnce(x, s, item, avoid, need);
      }
    }
    return None;
  }

  lemma SuggestedIsNotZero(avoid: seq<InboundSet>, need: set<Net>, p: nat)
    requires Suggests(avoid, need, Some(p))
    ensures p != 0
  {
  }

  lemma NoneFits(item: Item, others: seq<InboundSet>, avoid: seq<InboundSet>, need: set<Net>, rest: bool)
    requires item.port == 0 && Suggests(avoid, need, None)
    ensures forall s :: !Fits(s, item, others, avoid, need, rest)
  {
    hide Suggests, ConflictFree;
    forall s ensures !Fits(s, item, others, avoid, need, rest) {
      if Placed(s, item, avoid, need) {
        SuggestsOne(avoid, need, Some(s.port), None);
      }
    }
  }

  lemma SuggestsOrNone(sets: seq<InboundSet>, need: set<Net>, p: nat)
    requires Suggests(sets, need, Some(p))
    ensures !Suggests(sets, need, None)
  {
    hide Suggests;
    if Suggests(sets, need, None) {
      SuggestsOne(sets, need, Some(p), None);
    }
  }

  lemma PortPlaces(s: InboundSet, item: Item, avoid: seq<InboundSet>, need: set<Net>)
    requires s.name == item.name && s.shape == item.shape
    requires if item.port != 0 then s.port == item.port else Suggests(avoid, need, Some(s.port))
    ensures Placed(s, item, avoid, need)
  {
    hide Suggests;
    if item.port == 0 { SuggestedIsNotZero(avoid, need, s.port); }
  }

  /** What fits is the one set the item becomes, if that passes its checks. */
  lemma FitsWhenValid(s: InboundSet, item: Item, others: seq<InboundSet>, avoid: seq<InboundSet>, need: set<Net>, rest: bool)
    requires Placed(s, item, avoid, need)
    ensures (exists x :: Fits(x, item, others, avoid, need, rest)) <==> s.name != "" && ConflictFree(s, others) && rest
    ensures forall x :: Fits(x, item, others, avoid, need, rest) ==> x == s
    ensures Fits(s, item, others, avoid, need, rest) <==> s.name != "" && ConflictFree(s, others) && rest
  {
    hide Placed, ConflictFree;
    forall x | Fits(x, item, others, avoid, need, rest) ensures x == s {
      PlacedOnce(x, s, item, avoid, need);
    }
    assert s.name != "" && ConflictFree(s, others) && rest ==> Fits(s, item, others, avoid, need, rest);
  }

  /** `created` are the sets of `items`, in order. */
  ghost predicate Installed(created: seq<InboundSet>, items: seq<Item>) {
    |created| == |items| &&
    forall i :: 0 <= i < |items| ==>
      created[i].name == items[i].name && created[i].shape == items[i].shape && (items[i].port != 0 ==> created[i].port == items[i].port)
  }

  lemma NothingInstalled(sets: seq<InboundSet>, items: seq<Item>)
    ensures sets + [] == sets && Installed([], items[..0]) && Cleared(sets, items[..0]) == sets
  {
  }

  lemma NameGone(sets: seq<InboundSet>, name: string)
    requires forall s :: s in sets ==> s.name != name
    ensures forall i :: 0 <= i < |sets| ==> sets[i].name != name
  {
    forall i | 0 <= i < |sets| ensures sets[i].name != name {
      assert sets[i] in sets;
    }
  }

  lemma InstallOne(
    sets: seq<InboundSet>, created: seq<InboundSet>, items: seq<Item>, i: nat, s: InboundSet, avoid: seq<InboundSet>, need: set<Net>
  )
    requires i < |items| && Disjoint(sets + created) && Installed(created, items[..i])
    requires Placed(s, items[i], avoid, need) && ConflictFree(s, sets + created)
    requires forall k :: 0 <= k < |sets| ==> sets[k].name != items[i].name
    requires forall k :: 0 <= k < |created| ==> created[k].name != items[i].name
    ensures Disjoint(sets + (created + [s])) && Installed(created + [s], items[..i + 1])
  {
    hide Disjoint, ConflictFree, Placed;
    PlacedIsNamed(s, items[i], avoid, need);
    AppendDisjoint(sets + created, s);
    assert (sets + created) + [s] == sets + (created + [s]);
  }

  // ---- several sets at once ----

  /**
   * A request for several sets: per item the networks to find a port for, whether its
   * checks pass that do not involve ports, and whether the removal of a replaced set
   * is saved; whether sets may be replaced; and the port the hub holds.
   */
  datatype Plan = Plan(items: seq<Item>, needs: seq<set<Net>>, rests: seq<bool>, saves: seq<bool>, replace: bool, hub: seq<InboundSet>)

  predicate PlanOk(p: Plan) {
    |p.needs| == |p.rests| == |p.saves| == |p.items|
  }

  /** The stored sets without those the items replace. */
  function Cleared(sets: seq<InboundSet>, items: seq<Item>): seq<InboundSet> {
    if items == [] then sets else Without(Cleared(sets, items[..|items| - 1]), items[|items| - 1].name)
  }

  /** The i-th set fits beside what is stored by then and the sets created before it, and may replace the one of its name. */
  ghost predicate Lands(stored: seq<InboundSet>, p: Plan, created: seq<InboundSet>, i: nat)
    requires PlanOk(p) && i < |p.items| && i < |created|
  {
    var left := Cleared(stored, p.items[..i + 1]);
    && Fits(created[i], p.items[i], left + created[..i], left + created[..i] + p.hub, p.needs[i], p.rests[i])
    && ((exists o :: o in Cleared(stored, p.items[..i]) && o.name == p.items[i].name) ==> p.replace && p.saves[i])
    && forall j :: 0 <= j < i ==> created[j].name != p.items[i].name
  }

  ghost predicate Landed(stored: seq<InboundSet>, p: Plan, created: seq<InboundSet>)
    requires PlanOk(p)
  {
    |created| == |p.items| && forall i: nat :: i < |p.items| ==> Lands(stored, p, created, i)
  }

  lemma LandsAlike(stored: seq<InboundSet>, p: Plan, a: seq<InboundSet>, b: seq<InboundSet>, i: nat)
    requires PlanOk(p) && i < |p.items| && i < |a| && i < |b| && a[..i + 1] == b[..i + 1]
    ensures Lands(stored, p, a, i) == Lands(stored, p, b, i)
  {
    hide Fits, Cleared;
    assert a[..i] == a[..i + 1][..i] && b[..i] == b[..i + 1][..i];
    assert a[i] == a[..i + 1][i] && b[i] == b[..i + 1][i];
    assert forall j :: 0 <= j < i ==> a[j] == a[..i][j] && b[j] == b[..i][j];
  }

  /** There is one way at most for the items to land. */
  lemma {:induction false} LandsOnce(stored: seq<InboundSet>, p: Plan, a: seq<InboundSet>, b: seq<InboundSet>, n: nat)
    requires PlanOk(p) && n <= |p.items| && n <= |a| && n <= |b|
    requires (forall i: nat :: i < n ==> Lands(stored, p, a, i)) && (forall i: nat :: i < n ==> Lands(stored, p, b, i))
    ensures a[..n] == b[..n]
  {
    hide Lands;
    if n > 0 {
      LandsOnce(stored, p, a, b, n - 1);
      SameLanding(stored, p, a, b, n - 1);
      assert a[..n] == a[..n - 1] + [a[n - 1]] && b[..n] == b[..n - 1] + [b[n - 1]];
    }
  }

  lemma SameLanding(stored: seq<InboundSet>, p: Plan, a: seq<InboundSet>, b: seq<InboundSet>, i: nat)
    requires PlanOk(p) && i < |p.items| && i < |a| && i < |b| && a[..i] == b[..i]
    requires Lands(stored, p, a, i) && Lands(stored, p, b, i)
    ensures a[i] == b[i]
  {
    hide Cleared, Placed, ConflictFree;
    var left := Cleared(stored, p.items[..i + 1]);
    PlacedOnce(a[i], b[i], p.items[i], left + a[..i] + p.hub, p.needs[i]);
  }

  /** When no set lands at `i` after the ones before it, the items as a whole do not. */
  lemma StopsHere(stored: seq<InboundSet>, p: Plan, created: seq<InboundSet>)
    requires PlanOk(p) && |created| < |p.items| && forall i: nat :: i < |created| ==> Lands(stored, p, created, i)
    requires forall s :: !Lands(stored, p, created + [s], |created|)
    ensures forall c :: !Landed(stored, p, c)
  {
    hide Lands;
    var n := |created|;
    forall c ensures !Landed(stored, p, c) {
      if Landed(stored, p, c) {
        LandsOnce(stored, p, created, c, n);
        assert c[..n + 1] == created + [c[n]];
        LandsAlike(stored, p, c, created + [c[n]], n);
      }
    }
  }

  lemma AllLanded(stored: seq<InboundSet>, p: Plan, created: seq<InboundSet>)
    requires PlanOk(p) && |created| == |p.items| && forall i: nat :: i < |p.items| ==> Lands(stored, p, created, i)
    ensures Landed(stored, p, created)
  {
    hide Lands;
  }

  /** The same as Lands for the set after those created. */
  ghost predicate LandsHere(stored: seq<InboundSet>, p: Plan, created: seq<InboundSet>, s: InboundSet)
    requires PlanOk(p) && |created| < |p.items|
  {
    var i := |created|;
    var left := Cleared(stored, p.items[..i + 1]);
    && Fits(s, p.items[i], left + created, left + created + p.hub, p.needs[i], p.rests[i])
    && ((exists o :: o in Cleared(stored, p.items[..i]) && o.name == p.items[i].name) ==> p.replace && p.saves[i])
    && forall j :: 0 <= j < i ==> created[j].name != p.items[i].name
  }

  /** What lands at `i`: nothing without leave to replace or under a name just created, and else the set that fits. */
  lemma LandsNext(stored: seq<InboundSet>, p: Plan, created: seq<InboundSet>, s: InboundSet)
    requires PlanOk(p) && |created| < |p.items|
    ensures Lands(stored, p, created + [s], |created|) <==> LandsHere(stored, p, created, s)
  {
    hide Fits, Cleared;
    assert (created + [s])[..|created|] == created && (created + [s])[|created|] == s;
    assert forall j :: 0 <= j < |created| ==> (created + [s])[j] == created[j];
  }

  lemma LandsOneMore(stored: seq<InboundSet>, p: Plan, created: seq<InboundSet>, s: InboundSet)
    requires PlanOk(p) && |created| < |p.items| && forall i: nat :: i < |created| ==> Lands(stored, p, created, i)
    requires Lands(stored, p, created + [s], |created|)
    ensures forall i: nat :: i < |created| + 1 ==> Lands(stored, p, created + [s], i)
  {
    hide Lands;
    forall i: nat | i < |created| ensures Lands(stored, p, created + [s], i) {
      assert (created + [s])[..i + 1] == created[..i + 1];
      LandsAlike(stored, p, created, created + [s], i);
    }
  }

  lemma ClearedStep(sets: seq<InboundSet>, items: seq<Item>, i: nat)
    requires i < |items|
    ensures Cleared(sets, items[..i + 1]) == Without(Cleared(sets, items[..i]), items[i].name)
  {
    hide Without;
    assert items[..i + 1][..i] == items[..i];
  }

  /** Clearing takes away exactly the sets whose names the items mention, and keeps the order of the others. */
  lemma {:induction false} ClearedMembers(sets: seq<InboundSet>, items: seq<Item>)
    ensures forall s :: s in Cleared(sets, items) <==> s in sets && forall i :: 0 <= i < |items| ==> items[i].name != s.name
  {
    hide Without;
    if items != [] {
      var n := |items| - 1;
      ClearedMembers(sets, items[..n]);
      WithoutMembers(Cleared(sets, items[..n]), items[n].name);
    }
  }

  /** The stored sets; every operation replaces the file as a whole. */
  class SetStore {
    var sets: seq<InboundSet>

    ghost predicate Valid()
      reads this
    {
      Disjoint(sets)
    }

    method Find(name: string) returns (idx: Option<nat>)
      ensures idx.Some? ==> idx.value < |sets| && sets[idx.value].name == name
      ensures idx.None? <==> forall i :: 0 <= i < |sets| ==> sets[i].name != name
    {
      for i := 0 to |sets|
        invariant forall j :: 0 <= j < i ==> sets[j].name != name
      {
        if sets[i].name == name { return Some(i); }
      }
      return None;
    }

    /** handleSetsCreate; `rest` is whether the checks pass that do not involve ports, `saved` whether the file is written. */
    method Create(s: InboundSet, rest: bool, saved: bool) returns (ok: bool)
      requires Valid()
      modifies this
      ensures Valid()
      ensures ok <==>
        s.name != "" && s.port != 0 && ConflictFree(s, old(sets)) && (forall o :: o in old(sets) ==> o.name != s.name) && rest && saved
      ensures sets == if ok then old(sets) + [s] else old(sets)
    {
      hide Clash;
      var idx := Find(s.name);
      if idx.Some? { return false; }
      ok := ValidateSet(s, sets);
      ok := ok && rest && saved;
      if ok {
        AppendDisjoint(sets, s);
        sets := sets + [s];
      }
    }

    /** handleSetsPut */
    method Put(name: string, port: nat, shape: Shape, rest: bool, saved: bool) returns (ok: bool)
      requires Valid()
      modifies this
      ensures Valid()
      ensures ok <==>
        name != "" && port != 0 && ConflictFree(InboundSet(name, port, shape), old(sets)) && (exists o :: o in old(sets) && o.name == name)
        && rest && saved
      ensures |sets| == |old(sets)|
      ensures forall i :: 0 <= i < |sets| ==>
        sets[i] == if ok && old(sets)[i].name == name then InboundSet(name, port, shape) else old(sets)[i]
    {
      hide Clash;
      var s := InboundSet(name, port, shape);
      var idx := Find(name);
      if idx.None? { return false; }
      ok := ValidateSet(s, sets);
      assert sets[idx.value] in sets;
      ok := ok && rest && saved;
      if ok {
        ReplaceDisjoint(sets, idx.value, s);
        sets := sets[idx.value := s];
      }
    }

    /** handleSetsDelete: an active set, or one that is not stored, is refused. */
    method Delete(name: string, active: bool, saved: bool) returns (ok: bool)
      requires Valid()
      modifies this
      ensures Valid()
      ensures ok <==> !active && (exists o :: o in old(sets) && o.name == name) && saved
      ensures sets == if ok then Without(old(sets), name) else old(sets)
    {
      if active { return false; }
      var idx := Find(name);
      if idx.None? { return false; }
      assert sets[idx.value] in sets;
      ok := DeleteByName(name, saved);
    }

    /** deleteSetByName: the tombstone of a commit, whether the set is active or there at all. */
    method DeleteByName(name: string, saved: bool) returns (ok: bool)
      requires Valid()
      modifies this
      ensures Valid() && ok == saved
      ensures sets == if ok then Without(old(sets), name) else old(sets)
    {
      WithoutDisjoint(sets, name);
      var out := RemoveByName(sets, name);
      if saved {
        sets := out;
      }
      return saved;
    }

    /**
     * persistDemuxBlock and persistPresetBlock: a block of a commit replaces the set
     * of its name, on the port asked for or on a suggested one.  Nothing is stored
     * unless the new set passes validation against all the others.
     */
    method PersistBlock(item: Item, need: set<Net>, rest: bool, saved: bool) returns (ok: bool)
      requires Valid()
      modifies this
      ensures Valid()
      ensures var kept := Without(old(sets), item.name);
        ok <==> saved && exists s :: Fits(s, item, kept, kept, need, rest)
      ensures !ok ==> sets == old(sets)
      ensures ok ==> |sets| > 0 && sets == Without(old(sets), item.name) + [sets[|sets| - 1]]
      ensures var kept := Without(old(sets), item.name);
        ok ==> Fits(sets[|sets| - 1], item, kept, kept, need, rest)
    {
      hide Clash, Suggests, Placed;
      WithoutDisjoint(sets, item.name);
      var kept := RemoveByName(sets, item.name);
      var placed := Place(item, kept, kept, need, rest);
      if placed.None? || !saved { return false; }
      forall i | 0 <= i < |kept| ensures kept[i].name != item.name {
        assert kept[i] in kept;
      }
      PlacedIsNamed(placed.value, item, kept, need);
      AppendDisjoint(kept, placed.value);
      sets := kept + [placed.value];
      return true;
    }

    /**
     * handleSetsFromDemuxGroup.  The port is suggested among all stored sets, the one
     * to be replaced included and the hub not; the replacement is saved (`removed`)
     * before the new set is validated, and stays when that fails.
     */
    method InstallGroup(item: Item, need: set<Net>, replace: bool, removed: bool, rest: bool, saved: bool) returns (ok: bool)
      requires Valid()
      modifies this
      ensures Valid()
      ensures ok ==> |sets| > 0 && sets == Without(old(sets), item.name) + [sets[|sets| - 1]]
      ensures ok ==> Fits(sets[|sets| - 1], item, Without(old(sets), item.name), old(sets), need, rest)
      ensures ok <==>
        && saved && ((exists o :: o in old(sets) && o.name == item.name) ==> replace && removed)
        && exists s :: Fits(s, item, Without(old(sets), item.name), old(sets), need, rest)
      ensures !ok ==> sets == old(sets) || (replace && removed && sets == Without(old(sets), item.name))
      ensures !ok && (item.port != 0 || !Suggests(old(sets), need, None)) && replace && removed ==> sets == Without(old(sets), item.name)
    {
      hide Clash, Suggests, Without, ConflictFree, Placed;
      var port := item.port;
      if port == 0 {
        var picked := SuggestListenPort(sets, need);
        if picked.None? {
          NoneFits(item, Without(sets, item.name), sets, need, rest);
          return false;
        }
        SuggestedIsNotZero(sets, need, picked.value);
        SuggestsOrNone(sets, need, picked.value);
        port := picked.value;
      }
      WithoutDisjoint(sets, item.name);
      var idx := Find(item.name);
      if idx.Some? {
        assert sets[idx.value] in sets;
        if !replace || !removed { return false; }
        sets := RemoveByName(sets, item.name);
      } else {
        WithoutAbsent(sets, item.name);
      }
      NameGone(sets, item.name);
      var s := InboundSet(item.name, port, item.shape);
      PortPlaces(s, item, old(sets), need);
      ok := ValidateSet(s, sets);
      FitsWhenValid(s, item, sets, old(sets), need, rest);
      ok := ok && rest && saved;
      if ok {
        AppendDisjoint(sets, s);
        sets := sets + [s];
      }
    }

    /**
     * handleSetsFromPresets.  Each item may first replace the stored set of its name
     * (which is saved at once); the new sets are stored together at the end, or not at
     * all when an item is refused.  `saved` is the final save.
     */
    method InstallAll(p: Plan, saved: bool) returns (ok: bool)
      requires Valid() && PlanOk(p)
      modifies this
      ensures Valid()
      ensures ok <==> p.items != [] && saved && exists created :: Landed(old(sets), p, created)
      ensures ok ==> |sets| >= |p.items| && Landed(old(sets), p, sets[|sets| - |p.items|..])
      ensures ok ==> sets[..|sets| - |p.items|] == Cleared(old(sets), p.items)
      ensures ok ==> Installed(sets[|sets| - |p.items|..], p.items)
      ensures !ok ==> exists k :: 0 <= k <= |p.items| && sets == Cleared(old(sets), p.items[..k])
    {
      hide Clash, Disjoint, Installed, Placed, Fits, Without, Lands, Landed, Cleared;
      var created: seq<InboundSet> := [];
      NothingInstalled(sets, p.items);
      if |p.items| == 0 {
        assert p.items[..0] == p.items;
        return false;
      }
      for i := 0 to |p.items|
        invariant Disjoint(sets + created) && |created| == i && Installed(created, p.items[..i])
        invariant sets == Cleared(old(sets), p.items[..i])
        invariant forall j: nat :: j < i ==> Lands(old(sets), p, created, j)
      {
        var next := InstallNext(p, created, old(sets));
        if next.None? {
          StopsHere(old(sets), p, created);
          return false;
        }
        LandsOneMore(old(sets), p, created, next.value);
        created := created + [next.value];
      }
      PrefixDisjoint(sets, created);
      assert p.items[..|p.items|] == p.items;
      AllLanded(old(sets), p, created);
      if !saved { return false; }
      ghost var left := sets;
      sets := sets + created;
      assert sets[..|sets| - |p.items|] == left && sets[|sets| - |p.items|..] == created;
      return true;
    }

    /** One item: the set of its name goes, if there is one and it may, and then the new set must fit. */
    method InstallNext(p: Plan, created: seq<InboundSet>, ghost stored: seq<InboundSet>) returns (next: Option<InboundSet>)
      requires PlanOk(p) && |created| < |p.items| && Disjoint(sets + created) && Installed(created, p.items[..|created|])
      requires sets == Cleared(stored, p.items[..|created|])
      modifies this
      ensures next.Some? ==> sets == Cleared(stored, p.items[..|created| + 1]) && Lands(stored, p, created + [next.value], |created|)
      ensures next.Some? ==> Disjoint(sets + (created + [next.value])) && Installed(created + [next.value], p.items[..|created| + 1])
      ensures next.None? ==> Disjoint(sets) && forall s :: !Lands(stored, p, created + [s], |created|)
      ensures next.None? ==> sets == Cleared(stored, p.items[..|created|]) || sets == Cleared(stored, p.items[..|created| + 1])
    {
      hide Clash, Disjoint, Installed, Placed, ConflictFree, Without, Lands, Cleared;
      var i := |created|;
      var name := p.items[i].name;
      PrefixDisjoint(sets, created);
      ClearedStep(stored, p.items, i);
      forall s ensures Lands(stored, p, created + [s], i) ==> LandsHere(stored, p, created, s) {
        LandsNext(stored, p, created, s);
      }
      var idx := Find(name);
      if idx.Some? {
        assert sets[idx.value] in sets;
        if !p.replace || !p.saves[i] { return None; }
        WithoutPrefix(sets, created, name);
        sets := RemoveByName(sets, name);
      } else {
        WithoutAbsent(sets, name);
      }
      ClearedMembers(stored, p.items[..i + 1]);
      assert p.items[..i + 1][i].name == name;
      NameGone(sets, name);
      PrefixDisjoint(sets, created);
      var clash := HasName(created, name);
      if clash { return None; }
      next := Place(p.items[i], sets + created, sets + created + p.hub, p.needs[i], p.rests[i]);
      if next.None? { return; }
      InstallOne(sets, created, p.items, i, next.value, sets + created + p.hub, p.needs[i]);
      LandsNext(stored, p, created, next.value);
    }
  }

  method HasName(created: seq<InboundSet>, name: string) returns (found: bool)
    ensures found <==> exists i :: 0 <= i < |created| && created[i].name == name
  {
    for i := 0 to |created|
      invariant forall j :: 0 <= j < i ==> created[j].name != name
    {
      if created[i].name == name { return true; }
    }
    return false;
  }

  method RemoveByName(sets: seq<InboundSet>, name: string) returns (out: seq<InboundSet>)
    ensures out == Without(sets, name)
  {
    out := [];
    for i := 0 to |sets|
      invariant out == Without(sets[..i], name)
    {
      assert sets[..i + 1][..i] == sets[..i];
      if sets[i].name != name { out := out + [sets[i]]; }
    }
    assert sets[..|sets|] == sets;
  }

  lemma PrefixDisjoint(a: seq<InboundSet>, b: seq<InboundSet>)
    requires Disjoint(a + b)
    ensures Disjoint(a)
  {
    hide Clash;
    assert forall i :: 0 <= i < |a| ==> (a + b)[i] == a[i];
  }

  lemma {:induction false} WithoutPrefix(a: seq<InboundSet>, b: seq<InboundSet>, name: string)
    requires Disjoint(a + b)
    ensures Disjoint(Without(a, name) + b)
    ensures forall s :: s in Without(a, name) <==> s in a && s.name != name
  {
    hide Clash;
    PrefixDisjoint(a, b);
    WithoutDisjoint(a, name);
    var w := Without(a, name);
    forall i, j | 0 <= i < j < |w + b| ensures (w + b)[i].name != (w + b)[j].name && !Clash((w + b)[i], (w + b)[j]) {
      if j < |w| {
      } else if i >= |w| {
        assert (a + b)[i - |w| + |a|] == (w + b)[i] && (a + b)[j - |w| + |a|] == (w + b)[j];
      } else {
        assert w[i] in a;
        var k :| 0 <= k < |a| && a[k] == w[i];
        assert (a + b)[k] == w[i] && (a + b)[j - |w| + |a|] == (w + b)[j];
      }
    }
  }
}
