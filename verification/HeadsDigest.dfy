/** The string whose hash identifies the state of all blocks (internal/controlplane/commits_http.go). */
module HeadsDigest {
  import opened Text

  /** Block ids with the hash of each block's body. */
  type Blocks = map<string, string>

  // ---- the order of strings, and sorting ----

  predicate Leq(a: string, b: string) {
    a == [] || (b != [] && (a[0] < b[0] || (a[0] == b[0] && Leq(a[1..], b[1..]))))
  }

  lemma {:induction false} LeqTotal(a: string, b: string)
    ensures Leq(a, b) || Leq(b, a)
  {
    if a != [] && b != [] {
      LeqTotal(a[1..], b[1..]);
    }
  }

  lemma {:induction false} LeqTransitive(a: string, b: string, c: string)
    requires Leq(a, b) && Leq(b, c)
    ensures Leq(a, c)
  {
    if a != [] && a[0] == b[0] == c[0] {
      LeqTransitive(a[1..], b[1..], c[1..]);
    }
  }

  lemma {:induction false} LeqAntisymmetric(a: string, b: string)
    requires Leq(a, b) && Leq(b, a)
    ensures a == b
  {
    if a != [] {
      LeqAntisymmetric(a[1..], b[1..]);
      assert a == [a[0]] + a[1..] && b == [b[0]] + b[1..];
    }
  }

  /** A proper prefix comes first, and otherwise the first differing character decides. */
  lemma {:induction false} LeqByFirstDifference(p: string, a: string, b: string)
    ensures Leq(p, p + a)
    ensures a != [] && b != [] && a[0] != b[0] ==> (Leq(p + a, p + b) <==> a[0] < b[0])
  {
    if p == [] {
      assert p + a == a && p + b == b;
    } else {
      LeqByFirstDifference(p[1..], a, b);
      assert (p + a)[1..] == p[1..] + a && (p + b)[1..] == p[1..] + b;
    }
  }

  ghost predicate Ordered(ids: seq<string>) {
    forall i, j :: 0 <= i < j < |ids| ==> Leq(ids[i], ids[j])
  }

  function Insert(x: string, ids: seq<string>): (r: seq<string>)
    ensures multiset(r) == multiset(ids) + multiset{x}
  {
    if ids == [] then [x]
    else if Leq(x, ids[0]) then [x] + ids
    else
      assert ids == [ids[0]] + ids[1..];
      [ids[0]] + Insert(x, ids[1..])
  }

  /** sort.Strings */
  function Sort(ids: seq<string>): (r: seq<string>)
    ensures multiset(r) == multiset(ids)
  {
    if ids == [] then []
    else
      assert ids == [ids[0]] + ids[1..];
      Insert(ids[0], Sort(ids[1..]))
  }

  lemma InMultiset(a: seq<string>, b: seq<string>, x: string)
    requires multiset(a) == multiset(b) && x in a
    ensures x in b
  {
    assert x in multiset(a);
  }

  lemma {:induction false} InsertOrdered(x: string, ids: seq<string>)
    requires Ordered(ids)
    ensures Ordered(Insert(x, ids))
  {
    hide Leq;
    if ids != [] {
      if Leq(x, ids[0]) {
        forall j | 0 < j <= |ids| ensures Leq(x, ([x] + ids)[j]) {
          if j > 1 { LeqTransitive(x, ids[0], ids[j - 1]); }
        }
      } else {
        LeqTotal(x, ids[0]);
        InsertOrdered(x, ids[1..]);
        var rest := Insert(x, ids[1..]);
        forall j | 0 <= j < |rest| ensures Leq(ids[0], rest[j]) {
          InMultiset(rest, ids[1..] + [x], rest[j]);
        }
      }
    }
  }

  lemma {:induction false} SortOrdered(ids: seq<string>)
    ensures Ordered(Sort(ids))
  {
    hide Leq, Ordered;
    if ids == [] {
      EmptyOrdered();
    } else {
      SortOrdered(ids[1..]);
      InsertOrdered(ids[0], Sort(ids[1..]));
    }
  }

  lemma EmptyOrdered()
    ensures Ordered([])
  {
  }

  /** A list has one ordered arrangement. */
  lemma {:induction false} OrderedUnique(a: seq<string>, b: seq<string>)
    requires multiset(a) == multiset(b) && Ordered(a) && Ordered(b)
    ensures a == b
  {
    hide Leq, Ordered;
    assert |a| == |multiset(a)| && |b| == |multiset(b)|;
    if a != [] {
      FirstAgrees(a, b);
      TailOrdered(a);
      TailOrdered(b);
      assert a == [a[0]] + a[1..] && b == [b[0]] + b[1..];
      assert multiset(a[1..]) == multiset(a) - multiset{a[0]};
      OrderedUnique(a[1..], b[1..]);
    }
  }

  lemma TailOrdered(a: seq<string>)
    requires Ordered(a) && a != []
    ensures Ordered(a[1..])
  {
  }

  lemma FirstAgrees(a: seq<string>, b: seq<string>)
    requires multiset(a) == multiset(b) && Ordered(a) && Ordered(b) && a != [] && b != []
    ensures a[0] == b[0]
  {
    hide Leq;
    InMultiset(a, b, a[0]);
    InMultiset(b, a, b[0]);
    var i :| 0 <= i < |b| && b[i] == a[0];
    var j :| 0 <= j < |a| && a[j] == b[0];
    if a[0] != b[0] {
      LeqAntisymmetric(a[0], b[0]);
    }
  }

  // ---- the digest's input ----

  /** strings.Join(parts, "|") */
  function Join(parts: seq<string>): string {
    if parts == [] then ""
    else if |parts| == 1 then parts[0]
    else parts[0] + "|" + Join(parts[1..])
  }

  function Part(blocks: Blocks, id: string): string
    requires id in blocks
  {
    id + ":" + blocks[id]
  }

  function Parts(blocks: Blocks, ids: seq<string>): (r: seq<string>)
    requires forall id :: id in ids ==> id in blocks
    ensures |r| == |ids| && forall i :: 0 <= i < |ids| ==> r[i] == Part(blocks, ids[i])
  {
    hide Part;
    seq(|ids|, i requires 0 <= i < |ids| => Part(blocks, ids[i]))
  }

  /** An order in which a Go map with these keys may be walked. */
  ghost predicate Walk(blocks: Blocks, order: seq<string>) {
    && (forall id :: id in order <==> id in blocks)
    && (forall i, j :: 0 <= i < j < |order| ==> order[i] != order[j])
  }

  lemma SortedKeys(blocks: Blocks, order: seq<string>)
    requires Walk(blocks, order)
    ensures forall id :: id in Sort(order) <==> id in blocks
  {
    hide Sort;
    forall id ensures id in Sort(order) <==> id in order {
      if id in order { InMultiset(order, Sort(order), id); }
      if id in Sort(order) { InMultiset(Sort(order), order, id); }
    }
  }

  /** The text that is hashed, for one walk over the map. */
  ghost function Input(blocks: Blocks, order: seq<string>): string
    requires Walk(blocks, order)
  {
    SortedKeys(blocks, order);
    Join(Parts(blocks, Sort(order)))
  }

  method CanonicalInput(blocks: Blocks, order: seq<string>) returns (text: string)
    requires Walk(blocks, order)
    ensures text == Input(blocks, order)
  {
    hide Join, Sort, Part;
    var ids := [];
    for i := 0 to |order|
      invariant ids == order[..i]
    {
      ids := ids + [order[i]];
    }
    assert ids == order;
    ids := Sort(ids);
    SortedKeys(blocks, order);
    var parts := [];
    for i := 0 to |ids|
      invariant |parts| == i && forall j :: 0 <= j < i ==> parts[j] == Part(blocks, ids[j])
    {
      assert ids[i] in ids;
      parts := parts + [Part(blocks, ids[i])];
    }
    assert parts == Parts(blocks, ids);
    text := Join(parts);
  }

  // ---- independence of the walk ----

  lemma {:induction false} WalksAgree(blocks: Blocks, a: seq<string>, b: seq<string>)
    requires Walk(blocks, a) && Walk(blocks, b)
    ensures multiset(a) == multiset(b)
  {
    forall id ensures multiset(a)[id] == multiset(b)[id] {
      CountOne(a, id);
      CountOne(b, id);
    }
  }

  lemma {:induction false} CountOne(ids: seq<string>, id: string)
    requires forall i, j :: 0 <= i < j < |ids| ==> ids[i] != ids[j]
    ensures multiset(ids)[id] == if id in ids then 1 else 0
  {
    if ids != [] {
      CountOne(ids[1..], id);
      assert ids == [ids[0]] + ids[1..];
    }
  }

  /** The hashed text depends on the map alone. */
  lemma InputIgnoresWalk(blocks: Blocks, a: seq<string>, b: seq<string>)
    requires Walk(blocks, a) && Walk(blocks, b)
    ensures Input(blocks, a) == Input(blocks, b)
  {
    hide Walk, Join, Sort, Ordered, Part;
    WalksAgree(blocks, a, b);
    SortOrdered(a);
    SortOrdered(b);
    OrderedUnique(Sort(a), Sort(b));
  }

  // ---- injectivity ----

  ghost predicate Plain(blocks: Blocks) {
    forall id :: id in blocks ==> Free(id, '|') && Free(blocks[id], '|') && Free(blocks[id], ':')
  }

  lemma {:induction false} JoinHasBar(ps: seq<string>)
    requires |ps| >= 2
    ensures Join(ps) == ps[0] + "|" + Join(ps[1..])
    ensures !Free(Join(ps), '|')
  {
    assert Join(ps)[|ps[0]|] == '|';
  }

  /** Lists of non-empty pieces without bars join injectively. */
  lemma {:induction false} JoinInjective(ps: seq<string>, qs: seq<string>)
    requires forall i :: 0 <= i < |ps| ==> ps[i] != "" && Free(ps[i], '|')
    requires forall i :: 0 <= i < |qs| ==> qs[i] != "" && Free(qs[i], '|')
    requires Join(ps) == Join(qs)
    ensures ps == qs
  {
    hide Free;
    if |ps| >= 2 { JoinHasBar(ps); }
    if |qs| >= 2 { JoinHasBar(qs); }
    if |ps| >= 2 && |qs| >= 2 {
      FirstBar(ps[0], Join(ps[1..]), qs[0], Join(qs[1..]));
      JoinInjective(ps[1..], qs[1..]);
      assert ps == [ps[0]] + ps[1..] && qs == [qs[0]] + qs[1..];
    }
  }

  lemma PartInjective(id: string, sha: string, id2: string, sha2: string)
    requires Free(sha, ':') && Free(sha2, ':') && id + ":" + sha == id2 + ":" + sha2
    ensures id == id2 && sha == sha2
  {
    var s, t := id + ":" + sha, id2 + ":" + sha2;
    LastIndexBefore(id, ':', sha);
    LastIndexBefore(id2, ':', sha2);
    assert |id| == |id2|;
    assert id == s[..|id|] && id2 == t[..|id2|];
    assert sha == s[|id| + 1..] && sha2 == t[|id2| + 1..];
  }

  lemma PartIsPlain(blocks: Blocks, id: string)
    requires Plain(blocks) && id in blocks
    ensures Part(blocks, id) != "" && Free(Part(blocks, id), '|')
  {
  }

  /** Different maps with plain ids and hashes are hashed as different texts. */
  lemma InputInjective(a: Blocks, oa: seq<string>, b: Blocks, ob: seq<string>)
    requires Plain(a) && Plain(b) && Walk(a, oa) && Walk(b, ob)
    requires Input(a, oa) == Input(b, ob)
    ensures a == b
  {
    hide Walk, Join, Sort, Free, Part;
    SortedKeys(a, oa);
    SortedKeys(b, ob);
    var sa, sb := Sort(oa), Sort(ob);
    forall i | 0 <= i < |sa| ensures Part(a, sa[i]) != "" && Free(Part(a, sa[i]), '|') {
      assert sa[i] in sa;
      PartIsPlain(a, sa[i]);
    }
    forall i | 0 <= i < |sb| ensures Part(b, sb[i]) != "" && Free(Part(b, sb[i]), '|') {
      assert sb[i] in sb;
      PartIsPlain(b, sb[i]);
    }
    JoinInjective(Parts(a, sa), Parts(b, sb));
    PartsInjective(a, sa, b, sb);
  }

  lemma PartsInjective(a: Blocks, sa: seq<string>, b: Blocks, sb: seq<string>)
    requires Plain(a) && Plain(b)
    requires (forall id :: id in sa <==> id in a) && (forall id :: id in sb <==> id in b)
    requires Parts(a, sa) == Parts(b, sb)
    ensures a == b
  {
    hide Free;
    assert |sa| == |Parts(a, sa)| == |sb|;
    forall i | 0 <= i < |sa| ensures sa[i] == sb[i] && sa[i] in a && sb[i] in b && a[sa[i]] == b[sb[i]] {
      assert sa[i] in sa && sb[i] in sb;
      assert Parts(a, sa)[i] == Parts(b, sb)[i];
      PartInjective(sa[i], a[sa[i]], sb[i], b[sb[i]]);
    }
    assert sa == sb;
    forall id | id in a ensures id in b && a[id] == b[id] {
      var i :| 0 <= i < |sa| && sa[i] == id;
    }
  }

  // ---- ids with bars ----

  predicate IsHex(c: char) {
    '0' <= c <= '9' || 'a' <= c <= 'f'
  }

  /** A hash as it is stored: 64 lower-case hex digits. */
  predicate IsHash(h: string) {
    |h| == 64 && forall i :: 0 <= i < 64 ==> IsHex(h[i])
  }

  /** A colon, a hash and a bar, as between two parts. */
  predicate MarkAt(s: string, i: nat) {
    i + 65 < |s| && s[i] == ':' && s[i + 65] == '|' && forall k :: i < k < i + 65 ==> IsHex(s[k])
  }

  predicate Unmarked(s: string) {
    forall i: nat :: i < |s| ==> !MarkAt(s, i)
  }

  /** An unmarked id, a colon and a hash. */
  ghost predicate CleanPart(s: string) {
    |s| >= 65 && s[|s| - 65] == ':' && IsHash(s[|s| - 64..]) && Unmarked(s[..|s| - 65])
  }

  /** Where no mark can begin: before the colon of a clean part. */
  lemma NoMarkBefore(p: string, rest: string, i: nat)
    requires CleanPart(p) && i + 65 < |p|
    ensures !MarkAt(p + rest, i)
  {
    var s, colon := p + rest, |p| - 65;
    var id := p[..colon];
    assert s[colon] == ':' && !IsHex(s[colon]);
    assert forall k :: 0 <= k < colon ==> s[k] == id[k];
    if i + 65 < colon {
      assert MarkAt(s, i) ==> MarkAt(id, i);
    }
  }

  lemma CleanIsUnmarked(p: string)
    requires CleanPart(p)
    ensures Unmarked(p)
  {
    forall i: nat | i < |p| ensures !MarkAt(p, i) {
      if i + 65 < |p| {
        NoMarkBefore(p, "", i);
        assert p + "" == p;
      }
    }
  }

  lemma CleanMark(p: string, rest: string)
    requires CleanPart(p)
    ensures MarkAt(p + "|" + rest, |p| - 65)
  {
    var s, colon := p + "|" + rest, |p| - 65;
    forall k | colon < k < colon + 65 ensures IsHex(s[k]) {
      assert s[k] == p[colon + 1..][k - colon - 1];
    }
  }

  /** Equal texts split at their first mark into equal pieces. */
  lemma FirstMark(p: string, x: string, q: string, y: string)
    requires CleanPart(p) && CleanPart(q) && p + "|" + x == q + "|" + y
    ensures p == q && x == y
  {
    hide CleanPart, MarkAt;
    var s := p + "|" + x;
    CleanSize(p);
    CleanSize(q);
    CleanMark(p, x);
    CleanMark(q, y);
    assert s == p + ("|" + x) && s == q + ("|" + y);
    if |p| < |q| { NoMarkBefore(q, "|" + y, |p| - 65); }
    if |q| < |p| { NoMarkBefore(p, "|" + x, |q| - 65); }
    assert p == s[..|p|] && q == s[..|q|];
    assert x == s[|p| + 1..] && y == s[|q| + 1..];
  }

  lemma CleanSize(p: string)
    requires CleanPart(p)
    ensures |p| >= 65
  {
  }

  lemma {:induction false} CleanJoinInjective(ps: seq<string>, qs: seq<string>)
    requires forall i :: 0 <= i < |ps| ==> CleanPart(ps[i])
    requires forall i :: 0 <= i < |qs| ==> CleanPart(qs[i])
    requires Join(ps) == Join(qs)
    ensures ps == qs
  {
    hide CleanPart, Join;
    JoinShape(ps);
    JoinShape(qs);
    if |ps| >= 2 && |qs| >= 2 {
      FirstMark(ps[0], Join(ps[1..]), qs[0], Join(qs[1..]));
      CleanJoinInjective(ps[1..], qs[1..]);
      assert ps == [ps[0]] + ps[1..] && qs == [qs[0]] + qs[1..];
    }
  }

  /** A list joins to nothing, to an unmarked text, or to a marked one, by its length. */
  lemma JoinShape(ps: seq<string>)
    requires forall i :: 0 <= i < |ps| ==> CleanPart(ps[i])
    ensures ps == [] <==> Join(ps) == ""
    ensures |ps| == 1 ==> Join(ps) == ps[0] && Unmarked(Join(ps))
    ensures |ps| >= 2 ==> Join(ps) == ps[0] + "|" + Join(ps[1..]) && !Unmarked(Join(ps))
  {
    hide CleanPart;
    if ps != [] {
      CleanSize(ps[0]);
      CleanIsUnmarked(ps[0]);
      if |ps| >= 2 {
        CleanMark(ps[0], Join(ps[1..]));
      }
    }
  }

  ghost predicate Hashes(blocks: Blocks) {
    forall id :: id in blocks ==> IsHash(blocks[id])
  }

  lemma PartIsClean(id: string, h: string)
    requires Unmarked(id) && IsHash(h)
    ensures CleanPart(id + ":" + h)
  {
    var s := id + ":" + h;
    assert s[..|s| - 65] == id && s[|s| - 64..] == h;
  }

  lemma HashIsFree(h: string)
    requires IsHash(h)
    ensures Free(h, ':') && Free(h, '|')
  {
  }

  /** Bars are harmless in ids that hold no colon, 64 hex digits and bar in a row: such maps are hashed as different texts. */
  lemma UnmarkedInjective(a: Blocks, oa: seq<string>, b: Blocks, ob: seq<string>)
    requires Hashes(a) && Hashes(b) && (forall id :: id in a ==> Unmarked(id)) && (forall id :: id in b ==> Unmarked(id))
    requires Walk(a, oa) && Walk(b, ob) && Input(a, oa) == Input(b, ob)
    ensures a == b
  {
    hide Walk, Join, Sort, Unmarked, CleanPart, IsHash;
    SortedKeys(a, oa);
    SortedKeys(b, ob);
    var sa, sb := Sort(oa), Sort(ob);
    forall i | 0 <= i < |sa| ensures CleanPart(Part(a, sa[i])) {
      assert sa[i] in sa;
      PartIsClean(sa[i], a[sa[i]]);
    }
    forall i | 0 <= i < |sb| ensures CleanPart(Part(b, sb[i])) {
      assert sb[i] in sb;
      PartIsClean(sb[i], b[sb[i]]);
    }
    CleanJoinInjective(Parts(a, sa), Parts(b, sb));
    PartsAgree(a, sa, b, sb);
  }

  lemma PartsAgree(a: Blocks, sa: seq<string>, b: Blocks, sb: seq<string>)
    requires Hashes(a) && Hashes(b)
    requires (forall id :: id in sa <==> id in a) && (forall id :: id in sb <==> id in b)
    requires Parts(a, sa) == Parts(b, sb)
    ensures a == b
  {
    hide Free, IsHash;
    assert |sa| == |Parts(a, sa)| == |sb|;
    forall i | 0 <= i < |sa| ensures sa[i] == sb[i] && sa[i] in a && sb[i] in b && a[sa[i]] == b[sb[i]] {
      assert sa[i] in sa && sb[i] in sb;
      assert Parts(a, sa)[i] == Parts(b, sb)[i];
      HashIsFree(a[sa[i]]);
      HashIsFree(b[sb[i]]);
      PartInjective(sa[i], a[sa[i]], sb[i], b[sb[i]]);
    }
    assert sa == sb;
    forall id | id in a ensures id in b && a[id] == b[id] {
      var i :| 0 <= i < |sa| && sa[i] == id;
    }
  }

  // ---- when one block can pass for several ----

  /** An id that reads as two parts, in order. */
  ghost predicate ReadsAsTwo(id: string, x: string, h: string, y: string) {
    id == x + ":" + h + "|" + y && IsHash(h) && x != y && Leq(x, y)
  }

  ghost predicate SameText(a: Blocks, oa: seq<string>, b: Blocks, ob: seq<string>) {
    Walk(a, oa) && Walk(b, ob) && Input(a, oa) == Input(b, ob)
  }

  lemma OneText(id: string, g: string)
    ensures Walk(map[id := g], [id]) && Input(map[id := g], [id]) == id + ":" + g
  {
    var blocks: Blocks := map[id := g];
    assert Walk(blocks, [id]);
    SortedKeys(blocks, [id]);
    assert Sort([id]) == [id];
    assert Parts(blocks, [id]) == [Part(blocks, id)];
  }

  lemma SortsPair(x: string, y: string)
    requires Leq(x, y)
    ensures Sort([x, y]) == [x, y]
  {
    hide Leq;
    assert [x, y][1..] == [y] && [y][1..] == [];
    assert Sort([y]) == [y];
  }

  lemma TwoText(x: string, h: string, y: string, g: string)
    requires x != y && Leq(x, y)
    ensures var b: Blocks := map[x := h, y := g];
      Walk(b, [x, y]) && Input(b, [x, y]) == x + ":" + h + "|" + (y + ":" + g)
  {
    hide Leq, Sort;
    var b: Blocks := map[x := h, y := g];
    assert Walk(b, [x, y]);
    SortedKeys(b, [x, y]);
    SortsPair(x, y);
    var ps := Parts(b, [x, y]);
    assert ps == [x + ":" + h, y + ":" + g];
    assert ps[1..] == [y + ":" + g];
    TextShape(ps);
    TextShape(ps[1..]);
  }

  lemma PairPassesForOne(id: string, g: string, x: string, h: string, y: string)
    requires IsHash(g) && ReadsAsTwo(id, x, h, y)
    ensures var b: Blocks := map[x := h, y := g];
      b != map[id := g] && Hashes(b) && SameText(map[id := g], [id], b, [x, y])
  {
    hide Leq, IsHash, Walk, Input;
    var b: Blocks := map[x := h, y := g];
    OneText(id, g);
    TwoText(x, h, y, g);
    assert id + ":" + g == x + ":" + h + "|" + (y + ":" + g);
    assert x in b && |id| > |x|;
    var one: Blocks := map[id := g];
    assert x in b && x !in one;
  }

  lemma {:induction false} PrefixLeq(z: string, x: string, y: string)
    requires Leq(z, x) && |x| <= |y| && y[..|x|] == x
    ensures Leq(z, y)
  {
    if z != [] {
      assert y[1..][..|x| - 1] == x[1..];
      assert y[0] == x[0];
      if z[0] == x[0] {
        PrefixLeq(z[1..], x[1..], y[1..]);
      }
    }
  }

  lemma SelfLeq(x: string)
    ensures Leq(x, x)
  {
    LeqTotal(x, x);
  }

  /** The text of a list ends with its last hash, and starts with its first id. */
  lemma {:induction false} TextEnds(b: Blocks, ids: seq<string>) returns (y: string, w: string)
    requires ids != [] && Hashes(b) && forall id :: id in ids ==> id in b
    ensures IsHash(w) && Join(Parts(b, ids)) == y + ":" + w
    ensures |ids[0]| <= |y| && y[..|ids[0]|] == ids[0]
  {
    hide IsHash;
    var ps := Parts(b, ids);
    assert ids[0] in ids;
    if |ids| == 1 {
      y, w := ids[0], b[ids[0]];
    } else {
      assert ps[1..] == Parts(b, ids[1..]);
      var y1;
      y1, w := TextEnds(b, ids[1..]);
      y := ids[0] + ":" + b[ids[0]] + "|" + y1;
      assert ps[0] + "|" + (y1 + ":" + w) == y + ":" + w;
    }
  }

  lemma OnlyOne(id: string, g: string, b: Blocks, ids: seq<string>)
    requires IsHash(g) && Hashes(b) && |ids| == 1 && (forall x :: x in ids <==> x in b) && Part(b, ids[0]) == id + ":" + g
    ensures b == map[id := g]
  {
    hide IsHash, Free;
    HashIsFree(g);
    HashIsFree(b[ids[0]]);
    PartInjective(ids[0], b[ids[0]], id, g);
    assert forall x :: x in b ==> x in ids;
  }

  lemma OthersReadAsTwo(id: string, g: string, b: Blocks, ob: seq<string>) returns (x: string, h: string, y: string)
    requires IsHash(g) && Hashes(b) && b != map[id := g] && Walk(b, ob) && Input(b, ob) == id + ":" + g
    ensures ReadsAsTwo(id, x, h, y)
  {
    hide IsHash, Leq, Sort, Join, Free;
    SortedKeys(b, ob);
    var ids := Sort(ob);
    var ps := Parts(b, ids);
    TextShape(ps);
    if |ids| == 1 {
      OnlyOne(id, g, b, ids);
    } else {
      assert ids[0] in ids && ids[1] in ids;
      assert ps[1..] == Parts(b, ids[1..]);
      var w;
      x, h := ids[0], b[ids[0]];
      y, w := TextEnds(b, ids[1..]);
      assert id + ":" + g == (x + ":" + h + "|" + y) + ":" + w;
      HashIsFree(g);
      HashIsFree(w);
      PartInjective(id, g, x + ":" + h + "|" + y, w);
      SortedApart(b, ob);
      PrefixLeq(x, ids[1], y);
      SelfLeq(ids[1]);
      PrefixLeq(ids[1], ids[1], y);
      if x == y {
        LeqAntisymmetric(x, ids[1]);
      }
    }
  }

  lemma TextShape(ps: seq<string>)
    ensures ps == [] ==> Join(ps) == ""
    ensures |ps| == 1 ==> Join(ps) == ps[0]
    ensures |ps| >= 2 ==> Join(ps) == ps[0] + "|" + Join(ps[1..])
  {
  }

  lemma CountTwo(ids: seq<string>)
    requires |ids| >= 2 && ids[0] == ids[1]
    ensures multiset(ids)[ids[0]] >= 2
  {
    assert ids == [ids[0]] + ([ids[1]] + ids[2..]);
  }

  lemma SortedApart(b: Blocks, ob: seq<string>)
    requires Walk(b, ob) && |Sort(ob)| >= 2
    ensures Leq(Sort(ob)[0], Sort(ob)[1]) && Sort(ob)[0] != Sort(ob)[1]
  {
    hide Leq, Sort;
    var ids := Sort(ob);
    SortOrdered(ob);
    CountOne(ob, ids[0]);
    if ids[0] == ids[1] {
      CountTwo(ids);
    }
  }

  /**
   * A single block can be hashed as the text of another map of stored hashes exactly
   * when its id reads as an id, a hash and a greater id.
   */
  lemma BarsCollide(id: string, g: string)
    requires IsHash(g)
    ensures (exists b: Blocks, ob :: b != map[id := g] && Hashes(b) && SameText(map[id := g], [id], b, ob))
      <==> (exists x, h, y :: ReadsAsTwo(id, x, h, y))
  {
    hide IsHash, Leq, Walk, Input;
    if b: Blocks, ob :| b != map[id := g] && Hashes(b) && SameText(map[id := g], [id], b, ob) {
      OneText(id, g);
      var x, h, y := OthersReadAsTwo(id, g, b, ob);
    }
    if x, h, y :| ReadsAsTwo(id, x, h, y) {
      PairPassesForOne(id, g, x, h, y);
      var b: Blocks := map[x := h, y := g];
      assert b != map[id := g] && Hashes(b) && SameText(map[id := g], [id], b, [x, y]);
    }
  }

  /** Block ids that are accepted can do so: two presets against one whose tag reads as both. */
  lemma PresetIdsCollide(h: string, g: string)
    requires IsHash(h) && IsHash(g)
    ensures var two: Blocks := map["preset:p" := h, "preset:q" := g];
      var id := "preset:p:" + h + "|preset:q";
      two != map[id := g] && SameText(map[id := g], [id], two, ["preset:p", "preset:q"])
  {
    hide IsHash, Walk, Input;
    var id := "preset:p:" + h + "|preset:q";
    assert id == "preset:p" + ":" + h + "|" + "preset:q";
    PresetOrder();
    PairPassesForOne(id, g, "preset:p", h, "preset:q");
  }

  lemma PresetOrder()
    ensures Leq("preset:p", "preset:q") && "preset:p" != "preset:q"
  {
    LeqAfter("preset:", "p", "q");
    assert "preset:" + "p" == "preset:p" && "preset:" + "q" == "preset:q";
    assert "preset:p"[7] != "preset:q"[7];
  }

  lemma {:induction false} LeqAfter(x: string, a: string, b: string)
    requires Leq(a, b)
    ensures Leq(x + a, x + b)
  {
    if x == [] {
      assert x + a == a && x + b == b;
    } else {
      LeqAfter(x[1..], a, b);
      assert (x + a)[1..] == x[1..] + a && (x + b)[1..] == x[1..] + b;
    }
  }
}
