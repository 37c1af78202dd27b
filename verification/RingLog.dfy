/** The bounded log and its cursor paging (internal/obs/obs.go). */
module RingLog {
  import opened Text

  datatype Entry = Entry(seqNo: nat, level: string, msg: string)

  /** The buffer as a value: its capacity, the entries kept and the last sequence number given out. */
  datatype State = State(cap: nat, entries: seq<Entry>, nextSeq: nat)

  function Appended(r: State, level: string, msg: string): State {
    var kept := if |r.entries| >= r.cap && r.entries != [] then r.entries[1..] else r.entries;
    State(r.cap, kept + [Entry(r.nextSeq + 1, level, msg)], r.nextSeq + 1)
  }

  predicate Matches(e: Entry, level: string) {
    Canon(level) == "" || Lower(e.level) == Canon(level)
  }

  function Limit(limit: int): (n: nat)
    ensures 0 < n <= 2000
  {
    if limit <= 0 then 200 else if limit > 2000 then 2000 else limit
  }

  /** The first `limit` entries after `since` of a level. */
  function Page(es: seq<Entry>, since: nat, level: string, limit: nat): (p: seq<Entry>)
    ensures |p| <= limit
  {
    if es == [] || limit == 0 then []
    else if es[0].seqNo > since && Matches(es[0], level) then [es[0]] + Page(es[1..], since, level, limit - 1)
    else Page(es[1..], since, level, limit)
  }

  function NextCursor(r: State, since: nat, page: seq<Entry>): nat {
    if page != [] then page[|page| - 1].seqNo else if r.nextSeq > 0 then r.nextSeq else since
  }

  // ---- what a page holds ----

  predicate Increasing(es: seq<Entry>) {
    forall i, j :: 0 <= i < j < |es| ==> es[i].seqNo < es[j].seqNo
  }

  lemma {:induction false} PageMember(es: seq<Entry>, since: nat, level: string, limit: nat, e: Entry)
    requires e in Page(es, since, level, limit)
    ensures e in es && e.seqNo > since && Matches(e, level)
  {
    hide Matches;
    var took := es[0].seqNo > since && Matches(es[0], level);
    if !took || e != es[0] {
      PageMember(es[1..], since, level, if took then limit - 1 else limit, e);
    }
  }

  lemma {:induction false} PageIncreasing(es: seq<Entry>, since: nat, level: string, limit: nat)
    requires Increasing(es)
    ensures Increasing(Page(es, since, level, limit))
  {
    hide Matches;
    if es != [] && limit != 0 {
      var took := es[0].seqNo > since && Matches(es[0], level);
      var left := if took then limit - 1 else limit;
      PageIncreasing(es[1..], since, level, left);
      var rest := Page(es[1..], since, level, left);
      forall i | 0 <= i < |rest| ensures es[0].seqNo < rest[i].seqNo {
        PageMember(es[1..], since, level, left, rest[i]);
        assert rest[i] in es[1..];
      }
    }
  }

  lemma PageIsSound(es: seq<Entry>, since: nat, level: string, limit: nat)
    requires Increasing(es)
    ensures var p := Page(es, since, level, limit);
      Increasing(p) && forall e :: e in p ==> e in es && e.seqNo > since && Matches(e, level)
  {
    hide Matches, Page, Increasing;
    PageIncreasing(es, since, level, limit);
    forall e | e in Page(es, since, level, limit) ensures e in es && e.seqNo > since && Matches(e, level) {
      PageMember(es, since, level, limit, e);
    }
  }

  /** Nothing that matches is skipped: what the page leaves out comes after its last entry, and only when it is full. */
  lemma {:induction false} PageIsComplete(es: seq<Entry>, since: nat, level: string, limit: nat, e: Entry)
    requires Increasing(es) && e in es && e.seqNo > since && Matches(e, level)
    ensures var p := Page(es, since, level, limit);
      e in p || (|p| == limit && forall x :: x in p ==> x.seqNo < e.seqNo)
  {
    hide Matches;
    if limit != 0 {
      var took := es[0].seqNo > since && Matches(es[0], level);
      if e == es[0] {
        assert Page(es, since, level, limit)[0] == e;
      } else {
        assert e in es[1..];
        PageIsComplete(es[1..], since, level, if took then limit - 1 else limit, e);
      }
    }
  }

  // ---- a reader following the log ----

  /**
   * A reader that chains its queries from cursor 0 while others append.  `history`
   * is every entry ever appended, `got` what the reader has received, and `missed`
   * the numbers of entries dropped from the buffer while ahead of the cursor.
   */
  datatype Session = Session(ring: State, history: seq<Entry>, cursor: nat, got: seq<Entry>, missed: set<nat>)

  datatype Op = Append(level: string, msg: string) | Ask(limit: int)

  function Start(cap: nat): Session {
    Session(State(cap, [], 0), [], 0, [], {})
  }

  function Step(s: Session, level: string, op: Op): Session {
    match op
    case Append(l, msg) =>
      var dropped := if |s.ring.entries| >= s.ring.cap && s.ring.entries != [] then {s.ring.entries[0].seqNo} else {};
      s.(ring := Appended(s.ring, l, msg),
         history := s.history + [Entry(s.ring.nextSeq + 1, l, msg)],
         missed := s.missed + (set k | k in dropped && k > s.cursor))
    case Ask(limit) =>
      var page := Page(s.ring.entries, s.cursor, level, Limit(limit));
      s.(cursor := NextCursor(s.ring, s.cursor, page), got := s.got + page)
  }

  function Follow(cap: nat, level: string, ops: seq<Op>): Session {
    if ops == [] then Start(cap) else Step(Follow(cap, level, ops[..|ops| - 1]), level, ops[|ops| - 1])
  }

  // ---- the buffer is the tail of the history ----

  function Kept(history: seq<Entry>, cap: nat): seq<Entry> {
    if |history| <= cap then history else history[|history| - cap..]
  }

  ghost predicate RingOk(r: State, history: seq<Entry>) {
    && r.cap > 0
    && r.nextSeq == |history|
    && r.entries == Kept(history, r.cap)
    && forall i :: 0 <= i < |history| ==> history[i].seqNo == i + 1
  }

  lemma AppendKeepsRing(r: State, history: seq<Entry>, level: string, msg: string)
    requires RingOk(r, history)
    ensures RingOk(Appended(r, level, msg), history + [Entry(r.nextSeq + 1, level, msg)])
  {
  }

  lemma KeptAt(history: seq<Entry>, cap: nat)
    ensures var off := |history| - |Kept(history, cap)|;
      && off == (if |history| <= cap then 0 else |history| - cap)
      && forall i :: 0 <= i < |Kept(history, cap)| ==> Kept(history, cap)[i] == history[off + i]
  {
  }

  lemma RingIncreasing(r: State, history: seq<Entry>)
    requires RingOk(r, history)
    ensures Increasing(r.entries)
    ensures forall k :: 0 <= k < |history| && k + r.cap >= |history| ==> history[k] in r.entries
    ensures forall e :: e in r.entries ==> e.seqNo <= |history| && e.seqNo + r.cap > |history| && e == history[e.seqNo - 1]
  {
    hide Kept;
    var off := |history| - |r.entries|;
    KeptAt(history, r.cap);
    forall e | e in r.entries ensures e.seqNo <= |history| && e.seqNo + r.cap > |history| && e == history[e.seqNo - 1] {
      var i :| 0 <= i < |r.entries| && r.entries[i] == e;
      assert e == history[off + i];
    }
    forall k | 0 <= k < |history| && k + r.cap >= |history| ensures history[k] in r.entries {
      assert r.entries[k - off] == history[k];
    }
  }

  // ---- paging ----

  /** Where a matching entry is: received, still ahead in the buffer, or dropped while ahead. */
  ghost predicate Accounted(s: Session, k: nat)
    requires k < |s.history|
  {
    s.history[k] in s.got || (k + 1 > s.cursor && s.history[k] in s.ring.entries) || k + 1 in s.missed
  }

  ghost predicate GotOk(s: Session, level: string) {
    && Increasing(s.got)
    && forall e :: e in s.got ==> 0 < e.seqNo <= s.cursor && e.seqNo <= |s.history| && e == s.history[e.seqNo - 1] && Matches(e, level)
  }

  /** An entry counted as missed is gone from the buffer and was never received. */
  ghost predicate MissedOk(s: Session) {
    forall m :: m in s.missed ==> 0 < m && m + s.ring.cap <= |s.history| && s.history[m - 1] !in s.got
  }

  ghost predicate Inv(s: Session, level: string) {
    && RingOk(s.ring, s.history)
    && s.cursor <= |s.history|
    && GotOk(s, level)
    && MissedOk(s)
    && forall k: nat :: k < |s.history| && Matches(s.history[k], level) ==> Accounted(s, k)
  }

  lemma AppendKeepsGot(s: Session, level: string, l: string, msg: string)
    requires Inv(s, level)
    ensures GotOk(Step(s, level, Append(l, msg)), level)
  {
    hide Matches, Increasing, Kept, Accounted, Appended;
    var t := Step(s, level, Append(l, msg));
    assert forall k :: 0 <= k < |s.history| ==> t.history[k] == s.history[k];
  }

  lemma AppendKeepsMissed(s: Session, level: string, l: string, msg: string)
    requires Inv(s, level)
    ensures MissedOk(Step(s, level, Append(l, msg)))
  {
    hide Matches, Increasing, Accounted;
    var t := Step(s, level, Append(l, msg));
    assert t.got == s.got && t.ring.cap == s.ring.cap;
    forall m | m in t.missed ensures 0 < m && m + t.ring.cap <= |t.history| && t.history[m - 1] !in t.got {
      if m !in s.missed {
        assert m == s.ring.entries[0].seqNo && m > s.cursor;
      }
    }
  }

  lemma AppendKeepsAccounts(s: Session, level: string, l: string, msg: string, k: nat)
    requires Inv(s, level) && k <= |s.history|
    ensures var t := Step(s, level, Append(l, msg));
      Matches(t.history[k], level) ==> Accounted(t, k)
  {
    hide Matches, Increasing, GotOk, MissedOk;
    var t := Step(s, level, Append(l, msg));
    if k < |s.history| {
      assert t.history[k] == s.history[k];
      if Matches(s.history[k], level) {
        assert Accounted(s, k);
        if k + 1 > s.cursor && s.history[k] in s.ring.entries && t.history[k] !in t.ring.entries {
          TailDrops(s.ring, s.history, l, msg, k);
        }
      }
    } else {
      assert t.ring.entries[|t.ring.entries| - 1] == t.history[k];
    }
  }

  /** An append drops at most one entry, the oldest of a full buffer. */
  lemma TailDrops(r: State, history: seq<Entry>, level: string, msg: string, k: nat)
    requires RingOk(r, history) && k < |history| && history[k] in r.entries && history[k] !in Appended(r, level, msg).entries
    ensures |r.entries| >= r.cap && r.entries[0] == history[k] && r.entries[0].seqNo == k + 1
  {
    var kept := if |r.entries| >= r.cap then r.entries[1..] else r.entries;
    assert Appended(r, level, msg).entries == kept + [Entry(r.nextSeq + 1, level, msg)];
    assert history[k] !in kept;
  }

  lemma AppendInv(s: Session, level: string, l: string, msg: string)
    requires Inv(s, level)
    ensures Inv(Step(s, level, Append(l, msg)), level)
  {
    hide Matches, Kept, GotOk, MissedOk, Accounted, RingOk;
    AppendKeepsRing(s.ring, s.history, l, msg);
    AppendKeepsGot(s, level, l, msg);
    AppendKeepsMissed(s, level, l, msg);
    var t := Step(s, level, Append(l, msg));
    forall k: nat | k < |t.history| && Matches(t.history[k], level) ensures Accounted(t, k) {
      AppendKeepsAccounts(s, level, l, msg, k);
    }
  }

  lemma AskKeepsMissed(s: Session, level: string, limit: int)
    requires Inv(s, level)
    ensures MissedOk(Step(s, level, Ask(limit)))
  {
    hide Matches, Increasing, Accounted, Page, Limit, GotOk, Kept;
    var page := Page(s.ring.entries, s.cursor, level, Limit(limit));
    RingIncreasing(s.ring, s.history);
    PageIsSound(s.ring.entries, s.cursor, level, Limit(limit));
    forall m | m in s.missed ensures s.history[m - 1] !in page {
      assert s.history[m - 1].seqNo == m;
    }
  }

  lemma AskKeepsOrder(s: Session, level: string, limit: int)
    requires Inv(s, level)
    ensures Increasing(Step(s, level, Ask(limit)).got)
  {
    hide Matches, Kept, Accounted, Page, Limit, MissedOk;
    var t := Step(s, level, Ask(limit));
    var page := Page(s.ring.entries, s.cursor, level, Limit(limit));
    RingIncreasing(s.ring, s.history);
    PageIsSound(s.ring.entries, s.cursor, level, Limit(limit));
    assert t.got == s.got + page;
    forall i, j | 0 <= i < j < |t.got| ensures t.got[i].seqNo < t.got[j].seqNo {
      if i < |s.got| <= j {
        assert t.got[i] in s.got && t.got[j] in page;
      }
    }
  }

  lemma AskKeepsGot(s: Session, level: string, limit: int)
    requires Inv(s, level)
    ensures GotOk(Step(s, level, Ask(limit)), level)
    ensures Step(s, level, Ask(limit)).cursor <= |s.history|
  {
    hide Matches, Kept, Accounted, Page, Limit, MissedOk;
    var t := Step(s, level, Ask(limit));
    var page := Page(s.ring.entries, s.cursor, level, Limit(limit));
    AskKeepsOrder(s, level, limit);
    RingIncreasing(s.ring, s.history);
    PageIsSound(s.ring.entries, s.cursor, level, Limit(limit));
    PageEndsAtCursor(s.ring, s.cursor, page);
  }

  lemma PageEndsAtCursor(r: State, since: nat, page: seq<Entry>)
    requires Increasing(page)
    ensures forall e :: e in page ==> e.seqNo <= NextCursor(r, since, page)
  {
    forall e | e in page ensures e.seqNo <= NextCursor(r, since, page) {
      var i :| 0 <= i < |page| && page[i] == e;
    }
  }

  lemma AskKeepsAccounts(s: Session, level: string, limit: int, k: nat)
    requires Inv(s, level) && k < |s.history| && Matches(s.history[k], level)
    ensures Accounted(Step(s, level, Ask(limit)), k)
  {
    hide Matches, Kept, Page, GotOk, MissedOk, Increasing;
    var e := s.history[k];
    var page := Page(s.ring.entries, s.cursor, level, Limit(limit));
    assert Accounted(s, k);
    if k + 1 > s.cursor && e in s.ring.entries {
      RingIncreasing(s.ring, s.history);
      PageIsComplete(s.ring.entries, s.cursor, level, Limit(limit), e);
    }
  }

  lemma {:induction false} FollowInv(cap: nat, level: string, ops: seq<Op>)
    requires cap > 0
    ensures Inv(Follow(cap, level, ops), level) && Follow(cap, level, ops).ring.cap == cap
  {
    hide Inv, Page, NextCursor, Limit;
    if ops == [] {
      StartInv(cap, level);
    } else {
      FollowInv(cap, level, ops[..|ops| - 1]);
      var s := Follow(cap, level, ops[..|ops| - 1]);
      match ops[|ops| - 1]
      case Append(l, msg) => AppendInv(s, level, l, msg);
      case Ask(limit) => AskInv(s, level, limit);
    }
  }

  lemma StartInv(cap: nat, level: string)
    requires cap > 0
    ensures Inv(Start(cap), level)
  {
    hide Matches;
  }

  lemma AskInv(s: Session, level: string, limit: int)
    requires Inv(s, level)
    ensures Inv(Step(s, level, Ask(limit)), level)
  {
    hide Matches, Kept, Page, GotOk, MissedOk, Accounted, NextCursor;
    AskKeepsGot(s, level, limit);
    AskKeepsMissed(s, level, limit);
    forall k: nat | k < |s.history| && Matches(s.history[k], level) ensures Accounted(Step(s, level, Ask(limit)), k) {
      AskKeepsAccounts(s, level, limit, k);
    }
  }

  /** However queries and appends interleave, the buffer holds the last `cap` entries ever appended. */
  lemma RingIsTheTail(cap: nat, level: string, ops: seq<Op>)
    requires cap > 0
    ensures var s := Follow(cap, level, ops);
      s.ring.entries == Kept(s.history, cap) && s.ring.nextSeq == |s.history|
  {
    FollowInv(cap, level, ops);
  }

  /**
   * Chained queries return matching entries of the log in order and without
   * repetition, and every matching entry was received, is still ahead of the cursor
   * in the buffer, or was dropped while ahead of it; these three exclude each other.
   */
  lemma PagingAccountsForAll(cap: nat, level: string, ops: seq<Op>, k: nat)
    requires cap > 0 && k < |Follow(cap, level, ops).history|
    ensures var s := Follow(cap, level, ops);
      && Increasing(s.got)
      && (s.history[k] in s.got ==> Matches(s.history[k], level))
      && (Matches(s.history[k], level) ==>
            s.history[k] in s.got || (k + 1 > s.cursor && s.history[k] in s.ring.entries) || k + 1 in s.missed)
      && !(s.history[k] in s.got && k + 1 in s.missed)
      && !(s.history[k] in s.got && k + 1 > s.cursor)
      && !(k + 1 in s.missed && s.history[k] in s.ring.entries)
  {
    hide Matches, Kept, Step, Follow;
    FollowInv(cap, level, ops);
    var s := Follow(cap, level, ops);
    RingIncreasing(s.ring, s.history);
    assert Matches(s.history[k], level) ==> Accounted(s, k);
  }

  /** A page that is not full leaves nothing behind: all that matches was received or lost. */
  lemma ShortPageCatchesUp(cap: nat, level: string, ops: seq<Op>, limit: int, k: nat)
    requires cap > 0 && k < |Follow(cap, level, ops).history|
    ensures var s := Follow(cap, level, ops);
      var t := Step(s, level, Ask(limit));
      Matches(s.history[k], level) && |t.got| < |s.got| + Limit(limit) ==> s.history[k] in t.got || k + 1 in t.missed
  {
    hide Matches, Kept, Follow, Page, Limit;
    FollowInv(cap, level, ops);
    var s := Follow(cap, level, ops);
    RingIncreasing(s.ring, s.history);
    if Matches(s.history[k], level) && k + 1 > s.cursor && s.history[k] in s.ring.entries {
      PageIsComplete(s.ring.entries, s.cursor, level, Limit(limit), s.history[k]);
    }
    assert Matches(s.history[k], level) ==> Accounted(s, k);
  }

  lemma {:induction false} NothingAhead(es: seq<Entry>, since: nat, level: string, limit: nat)
    requires forall e :: e in es ==> e.seqNo <= since
    ensures Page(es, since, level, limit) == []
  {
    hide Matches;
    if es != [] && limit != 0 {
      NothingAhead(es[1..], since, level, limit);
    }
  }

  /**
   * A query moves the cursor back exactly when it lies beyond every number given out,
   * as one from before a restart may.  The page is then empty, and everything the
   * buffer holds lies at or before the new cursor: it is passed over.
   */
  lemma StaleCursorRewinds(r: State, history: seq<Entry>, since: nat, level: string, limit: int)
    requires RingOk(r, history)
    ensures var page := Page(r.entries, since, level, Limit(limit));
      var next := NextCursor(r, since, page);
      && (next < since <==> 0 < r.nextSeq < since)
      && (next < since ==> page == [] && forall e :: e in r.entries ==> e.seqNo <= next)
  {
    hide Matches, Page, Limit;
    RingIncreasing(r, history);
    var page := Page(r.entries, since, level, Limit(limit));
    PageIsSound(r.entries, since, level, Limit(limit));
    if r.nextSeq < since {
      NothingAhead(r.entries, since, level, Limit(limit));
    }
    if page != [] {
      assert page[|page| - 1] in page;
    }
  }

  lemma PageStep(es: seq<Entry>, i: nat, since: nat, level: string, limit: nat)
    requires i < |es| && limit > 0
    ensures Page(es[i..], since, level, limit) ==
      if es[i].seqNo > since && Matches(es[i], level) then [es[i]] + Page(es[i + 1..], since, level, limit - 1)
      else Page(es[i + 1..], since, level, limit)
  {
    hide Matches;
    assert es[i..][0] == es[i] && es[i..][1..] == es[i + 1..];
  }

  lemma PageEnd(es: seq<Entry>, i: nat, since: nat, level: string, limit: nat)
    requires i <= |es|
    ensures Page(es, since, level, 0) == []
    ensures i == |es| ==> Page(es[i..], since, level, limit) == []
    ensures Page(es[i..], since, level, 0) == []
  {
    hide Matches;
  }

  lemma LimitMeans(limit: int)
    ensures Limit(limit) == if limit <= 0 then 200 else if limit > 2000 then 2000 else limit
  {
  }

  lemma MatchesMeans(level: string)
    ensures forall e :: Matches(e, level) <==> Canon(level) == "" || Lower(e.level) == Canon(level)
  {
    hide Canon, Lower;
  }

  // ---- the buffer itself ----

  class Ring {
    var entries: seq<Entry>
    var cap: nat
    var nextSeq: nat
    ghost var history: seq<Entry>

    ghost predicate Valid()
      reads this
    {
      RingOk(Value(), history)
    }

    ghost function Value(): State
      reads this
    {
      State(cap, entries, nextSeq)
    }

    constructor (capacity: int)
      ensures Valid() && history == [] && cap == if capacity <= 0 then 2000 else capacity
    {
      cap := if capacity <= 0 then 2000 else capacity;
      entries, nextSeq, history := [], 0, [];
    }

    method Append(level: string, msg: string) returns (e: Entry)
      requires Valid()
      modifies this
      ensures Valid() && Value() == Appended(old(Value()), level, msg)
      ensures history == old(history) + [e] && e == Entry(old(nextSeq) + 1, level, msg)
    {
      AppendKeepsRing(Value(), history, level, msg);
      nextSeq := nextSeq + 1;
      e := Entry(nextSeq, level, msg);
      if |entries| >= cap {
        entries := entries[1..];
      }
      entries := entries + [e];
      history := history + [e];
    }

    method Query(since: nat, level: string, limit: int) returns (out: seq<Entry>, next: nat)
      requires Valid()
      ensures out == Page(entries, since, level, Limit(limit))
      ensures next == NextCursor(Value(), since, out)
      ensures |out| <= (if limit <= 0 then 200 else if limit > 2000 then 2000 else limit)
      ensures forall e :: e in out ==> e in entries && e.seqNo > since && (Canon(level) == "" || Lower(e.level) == Canon(level))
      ensures forall e :: e in entries && e.seqNo > since && (Canon(level) == "" || Lower(e.level) == Canon(level)) && e !in out ==>
        |out| == (if limit <= 0 then 200 else if limit > 2000 then 2000 else limit) && forall x :: x in out ==> x.seqNo < e.seqNo
    {
      hide Canon, Lower, RingOk, Limit, Page, Increasing;
      ghost var page := Page(entries, since, level, Limit(limit));
      RingIncreasing(Value(), history);
      PageIsSound(entries, since, level, Limit(limit));
      LimitMeans(limit);
      forall e | e in entries && e.seqNo > since && Matches(e, level)
        ensures e in page || (|page| == Limit(limit) && forall x :: x in page ==> x.seqNo < e.seqNo)
      {
        PageIsComplete(entries, since, level, Limit(limit), e);
      }
      MatchesMeans(level);
      out, next := Collect(since, level, limit);
    }

    /** The loop of Query. */
    method Collect(since: nat, level: string, limit: int) returns (out: seq<Entry>, next: nat)
      requires Valid()
      ensures out == Page(entries, since, level, Limit(limit))
      ensures next == NextCursor(Value(), since, out)
    {
      hide Canon, Lower, RingOk, Limit, Page;
      var want := Limit(limit);
      var lvl := Canon(level);
      out := [];
      var i := 0;
      while i < |entries|
        invariant i <= |entries| && |out| < want
        invariant out + Page(entries[i..], since, level, want - |out|) == Page(entries, since, level, want)
      {
        var e := entries[i];
        PageStep(entries, i, since, level, want - |out|);
        ghost var before := out;
        if e.seqNo > since && (lvl == "" || Lower(e.level) == lvl) {
          out := out + [e];
          assert before + ([e] + Page(entries[i + 1..], since, level, want - |out|)) == out + Page(entries[i + 1..], since, level, want - |out|);
          if |out| >= want { break; }
        }
        i := i + 1;
      }
      PageEnd(entries, i, since, level, want - |out|);
      next := since;
      if |out| > 0 {
        next := out[|out| - 1].seqNo;
      } else if nextSeq > 0 {
        next := nextSeq;
      }
    }
  }
}
