/** Assignment of Reality server names to inbounds (internal/controlplane/reality.go). */
module Reality {
  import opened Basics
  import opened Text
  import Decimal

  datatype Endpoint = Endpoint(sni: string, server: string, port: nat)

  /** Non-empty generated key material; what generates it is a parameter. */
  type Key = s: string | s != "" witness "k"

  datatype Secrets = Secrets(priv: Key, pub: Key, shortId: Key)

  datatype Assignment = Assignment(sni: string, server: string, port: nat, priv: string, pub: string, shortId: string)

  /** A Reality inbound in use: its key and its pinned server name ("" when not pinned). */
  datatype Need = Need(key: string, prefer: string)

  type Assignments = map<string, Assignment>

  // ---- the pool ----

  /** normalizeRealityEndpoint; None is its error. */
  function Normalize(ep: Endpoint, isIP: string -> bool): Option<Endpoint> {
    var sni := Canon(ep.sni);
    if sni == "" || isIP(sni) then None
    else
      var hs := if Canon(ep.server) == "" then sni else Canon(ep.server);
      if isIP(hs) then None else Some(Endpoint(sni, hs, if ep.port == 0 then 443 else ep.port))
  }

  predicate Normal(ep: Endpoint, isIP: string -> bool) {
    Normalize(ep, isIP) == Some(ep)
  }

  lemma NormalizeIsNormal(ep: Endpoint, isIP: string -> bool)
    requires Normalize(ep, isIP).Some?
    ensures Normal(Normalize(ep, isIP).value, isIP)
  {
    hide Canon;
    CanonTwice(ep.sni);
    CanonTwice(ep.server);
  }

  /** An endpoint is refused exactly without a host name or with an address for one; what is given is kept, what is missing filled in. */
  lemma NormalizeFills(ep: Endpoint, isIP: string -> bool)
    ensures Normalize(ep, isIP).None? <==>
      Canon(ep.sni) == "" || isIP(Canon(ep.sni)) || (Canon(ep.server) != "" && isIP(Canon(ep.server)))
    ensures Normalize(ep, isIP).Some? ==>
      (var e := Normalize(ep, isIP).value;
       && e.sni == Canon(ep.sni)
       && (Canon(ep.server) != "" ==> e.server == Canon(ep.server)) && (Canon(ep.server) == "" ==> e.server == e.sni)
       && (ep.port != 0 ==> e.port == ep.port) && (ep.port == 0 ==> e.port == 443))
  {
    hide Canon;
  }

  /** The key duplicates are told by. */
  function PoolKey(ep: Endpoint): string {
    ep.sni + "|" + ep.server + "|" + Decimal.Render(ep.port)
  }

  /** Different endpoints without bars in their names have different keys. */
  lemma PoolKeyInjective(a: Endpoint, b: Endpoint)
    requires Free(a.sni, '|') && Free(a.server, '|') && Free(b.sni, '|') && Free(b.server, '|')
    requires PoolKey(a) == PoolKey(b)
    ensures a == b
  {
    hide Free;
    var x, y := a.server + "|" + Decimal.Render(a.port), b.server + "|" + Decimal.Render(b.port);
    assert PoolKey(a) == a.sni + "|" + x && PoolKey(b) == b.sni + "|" + y;
    FirstBar(a.sni, x, b.sni, y);
    FirstBar(a.server, Decimal.Render(a.port), b.server, Decimal.Render(b.port));
    Decimal.RenderInjective(a.port, b.port);
  }

  ghost predicate NormalPool(pool: seq<Endpoint>, isIP: string -> bool) {
    && (forall i :: 0 <= i < |pool| ==> Normal(pool[i], isIP))
    && (forall i, j :: 0 <= i < j < |pool| ==> PoolKey(pool[i]) != PoolKey(pool[j]))
  }

  predicate HasKey(pool: seq<Endpoint>, key: string) {
    exists i :: 0 <= i < |pool| && PoolKey(pool[i]) == key
  }

  /** The normal forms of a pool with distinct keys, in the order of their first appearance. */
  function NormalForms(pool: seq<Endpoint>, isIP: string -> bool): seq<Endpoint> {
    if pool == [] then []
    else
      var rest := NormalForms(pool[..|pool| - 1], isIP);
      match Normalize(pool[|pool| - 1], isIP)
      case None => rest
      case Some(ep) => if HasKey(rest, PoolKey(ep)) then rest else rest + [ep]
  }

  lemma {:induction false} NormalFormsNormal(pool: seq<Endpoint>, isIP: string -> bool)
    ensures NormalPool(NormalForms(pool, isIP), isIP) && |NormalForms(pool, isIP)| <= |pool|
  {
    hide Normalize, Normal, PoolKey;
    if pool != [] {
      var last := pool[|pool| - 1];
      NormalFormsNormal(pool[..|pool| - 1], isIP);
      if Normalize(last, isIP).Some? {
        NormalizeIsNormal(last, isIP);
      }
    }
  }

  /** The endpoint at `i` is the first of the pool with its normal form's key. */
  ghost predicate FirstOfKey(pool: seq<Endpoint>, isIP: string -> bool, i: nat, e: Endpoint) {
    && i < |pool| && Normalize(pool[i], isIP) == Some(e)
    && forall j: nat :: j < i && Normalize(pool[j], isIP).Some? ==> PoolKey(Normalize(pool[j], isIP).value) != PoolKey(e)
  }

  /** The normal forms are those of the first endpoints of each key, no key is lost, and a longer pool only adds to them. */
  lemma {:induction false} NormalFormsCover(pool: seq<Endpoint>, isIP: string -> bool)
    ensures forall e :: e in NormalForms(pool, isIP) ==> exists i: nat :: FirstOfKey(pool, isIP, i, e)
    ensures forall i :: 0 <= i < |pool| && Normalize(pool[i], isIP).Some? ==>
      HasKey(NormalForms(pool, isIP), PoolKey(Normalize(pool[i], isIP).value))
    ensures pool != [] ==> NormalForms(pool[..|pool| - 1], isIP) <= NormalForms(pool, isIP)
  {
    hide Normalize, PoolKey;
    if pool != [] {
      var n := |pool| - 1;
      var rest := NormalForms(pool[..n], isIP);
      NormalFormsCover(pool[..n], isIP);
      forall e | e in rest ensures exists i: nat :: FirstOfKey(pool, isIP, i, e) {
        var i: nat :| FirstOfKey(pool[..n], isIP, i, e);
        assert FirstOfKey(pool, isIP, i, e);
      }
      var last := Normalize(pool[n], isIP);
      if last.Some? {
        KeyAdded(rest, last.value);
        if !HasKey(rest, PoolKey(last.value)) {
          assert FirstOfKey(pool, isIP, n, last.value);
        }
      }
    }
  }

  lemma {:induction false} NormalPoolUnchanged(pool: seq<Endpoint>, isIP: string -> bool)
    requires NormalPool(pool, isIP)
    ensures NormalForms(pool, isIP) == pool
  {
    hide Normalize, PoolKey;
    if pool != [] {
      var n := |pool| - 1;
      NormalPoolUnchanged(pool[..n], isIP);
      assert pool[..n] + [pool[n]] == pool;
      assert !HasKey(pool[..n], PoolKey(pool[n]));
    }
  }

  lemma KeyAdded(pool: seq<Endpoint>, ep: Endpoint)
    ensures forall key :: HasKey(pool + [ep], key) <==> HasKey(pool, key) || key == PoolKey(ep)
  {
    hide PoolKey;
    forall key ensures HasKey(pool + [ep], key) <==> HasKey(pool, key) || key == PoolKey(ep) {
      if key == PoolKey(ep) {
        assert (pool + [ep])[|pool|] == ep;
      } else if HasKey(pool, key) {
        var i :| 0 <= i < |pool| && PoolKey(pool[i]) == key;
        assert (pool + [ep])[i] == pool[i];
      }
    }
  }

  /**
   * normalizeRealityPoolInPlace.  The result is the normal pool with the same
   * keys, and the flag is raised exactly when the pool was not normal already.
   */
  method NormalizePool(pool: seq<Endpoint>, isIP: string -> bool) returns (out: seq<Endpoint>, changed: bool)
    ensures out == NormalForms(pool, isIP) && NormalPool(out, isIP)
    ensures changed <==> !NormalPool(pool, isIP)
    ensures !changed <==> out == pool
  {
    hide Normalize, Normal, PoolKey;
    out, changed := [], false;
    var seen: set<string> := {};
    if |pool| == 0 { return pool, false; }
    for i := 0 to |pool|
      invariant out == NormalForms(pool[..i], isIP) && |out| <= i
      invariant forall key :: key in seen <==> HasKey(out, key)
      invariant !changed <==> out == pool[..i]
    {
      assert pool[..i + 1][..i] == pool[..i];
      NormalFormsNormal(pool[..i], isIP);
      var ep := Normalize(pool[i], isIP);
      if ep.None? {
        changed := true;
      } else if PoolKey(ep.value) in seen {
        changed := true;
      } else {
        seen := seen + {PoolKey(ep.value)};
        KeyAdded(out, ep.value);
        if ep.value != pool[i] {
          changed := true;
        }
        assert |out| == i || out + [ep.value] != pool[..i + 1];
        out := out + [ep.value];
        assert pool[..i + 1] == pool[..i] + [pool[i]];
      }
    }
    assert pool[..|pool|] == pool;
    NormalFormsNormal(pool, isIP);
    if NormalPool(pool, isIP) {
      NormalPoolUnchanged(pool, isIP);
    }
  }

  // ---- searches ----

  function EndpointOf(a: Assignment): Endpoint {
    Endpoint(a.sni, a.server, a.port)
  }

  /** Key material and endpoint all present, and the endpoint still in the pool. */
  predicate Usable(a: Assignment, pool: seq<Endpoint>) {
    EndpointOf(a) in pool && a.priv != "" && a.pub != "" && a.shortId != ""
  }

  predicate SniInPool(sni: string, pool: seq<Endpoint>) {
    exists i :: 0 <= i < |pool| && Lower(pool[i].sni) == sni
  }

  /** findRealityEndpointBySNI: the first endpoint of that name. */
  function FindBySNI(pool: seq<Endpoint>, sni: string): (r: Option<Endpoint>)
    ensures r.Some? ==> r.value in pool && Lower(r.value.sni) == Canon(sni)
    ensures r.None? ==> !SniInPool(Canon(sni), pool)
  {
    if pool == [] then None
    else if Lower(pool[0].sni) == Canon(sni) then Some(pool[0])
    else
      var r := FindBySNI(pool[1..], sni);
      assert r.None? ==> forall i :: 1 <= i < |pool| ==> Lower(pool[i].sni) == Lower(pool[1..][i - 1].sni);
      r
  }

  /** It is the first of that name in the pool. */
  lemma {:induction false} FindsFirst(pool: seq<Endpoint>, sni: string) returns (i: nat)
    requires FindBySNI(pool, sni).Some?
    ensures i < |pool| && pool[i] == FindBySNI(pool, sni).value && Lower(pool[i].sni) == Canon(sni)
    ensures forall j :: 0 <= j < i ==> Lower(pool[j].sni) != Canon(sni)
  {
    hide Lower, Canon;
    if Lower(pool[0].sni) == Canon(sni) {
      i := 0;
    } else {
      i := FindsFirst(pool[1..], sni);
      forall j | 0 <= j < i + 1 ensures Lower(pool[j].sni) != Canon(sni) {
        if j > 0 { assert pool[j] == pool[1..][j - 1]; }
      }
      i := i + 1;
    }
  }

  function MayUse(used: map<string, string>, sni: string, key: string): bool {
    sni !in used || used[sni] == key
  }

  method Unused(pool: seq<Endpoint>, used: map<string, string>, key: string) returns (unused: seq<Endpoint>)
    ensures forall ep :: ep in unused <==> ep in pool && MayUse(used, Lower(ep.sni), key)
  {
    hide Lower;
    unused := [];
    for i := 0 to |pool|
      invariant forall ep :: ep in unused <==> ep in pool[..i] && MayUse(used, Lower(ep.sni), key)
    {
      if MayUse(used, Lower(pool[i].sni), key) {
        unused := unused + [pool[i]];
      }
      assert pool[..i + 1] == pool[..i] + [pool[i]];
    }
    assert pool[..|pool|] == pool;
  }

  /** pickRealityEndpoint: the pinned name when free, else a random free one, else a random one. */
  method Pick(pool: seq<Endpoint>, prefer: string, used: map<string, string>, key: string, random: nat)
    returns (r: Option<Endpoint>)
    ensures r.None? <==> pool == []
    ensures r.Some? ==> r.value in pool
    ensures r.Some? && (exists ep :: ep in pool && MayUse(used, Lower(ep.sni), key)) ==> MayUse(used, Lower(r.value.sni), key)
    ensures Canon(prefer) != "" && SniInPool(Canon(prefer), pool) && MayUse(used, Canon(prefer), key) ==>
      r.Some? && Lower(r.value.sni) == Canon(prefer)
  {
    hide Lower, Canon, FindBySNI;
    if |pool| == 0 { return None; }
    var want := Canon(prefer);
    if want != "" {
      CanonTwice(prefer);
      var found := FindBySNI(pool, want);
      if found.Some? && MayUse(used, want, key) {
        return found;
      }
    }
    var unused := Unused(pool, used, key);
    if |unused| == 0 {
      return Some(pool[random % |pool|]);
    }
    assert unused[random % |unused|] in unused;
    return Some(unused[random % |unused|]);
  }
}
