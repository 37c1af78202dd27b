/**
 * The on-disk store of staged and last-good configurations
 * (internal/configstore/store.go).  Each file is replaced atomically, but an
 * operation replaces several files one after the other, and any of those
 * replacements may fail.
 */
module ConfigStore {
  import opened Basics

  /** SHA-256 of a document, taken to be injective. */
  datatype Digest = Digest(of: Document)

  function Hash(raw: Document): Digest {
    Digest(raw)
  }

  datatype Source = Push | Pull | Subscribe | FromBoot | Controlplane

  datatype Meta = Meta(sha: Digest, revision: nat, source: Source)

  /** The five files of the data directory; a missing file is None. */
  datatype Disk = Disk(
    staged: Option<Document>,
    stagedMeta: Option<Meta>,
    lastGood: Option<Document>,
    lastGoodMeta: Option<Meta>,
    agent: Option<nat>
  )

  const EMPTY_DISK := Disk(None, None, None, None, None)

  /** The revision counter in agent-state.json; a missing file counts as zero. */
  function AgentRevision(d: Disk): nat {
    if d.agent.Some? then d.agent.value else 0
  }

  /** The meta record WriteStaged builds: current revision, not bumped. */
  function StagedMeta(d: Disk, raw: Document, source: Source): Meta {
    Meta(Hash(raw), AgentRevision(d), source)
  }

  /** The meta record PromoteStaged publishes: the staged one with the next revision. */
  function PromotedMeta(d: Disk, meta: Meta): Meta {
    meta.(revision := AgentRevision(d) + 1)
  }

  /** The disk after the first `writes` of WriteStaged's two writes. */
  function StagedPrefix(d: Disk, raw: Document, source: Source, writes: nat): Disk
    requires writes <= 2
  {
    var meta := StagedMeta(d, raw, source);
    var d1 := if writes >= 1 then d.(staged := Some(raw)) else d;
    if writes >= 2 then d1.(stagedMeta := Some(meta)) else d1
  }

  /** The disk after the first `writes` of PromoteStaged's three writes. */
  function PromotePrefix(d: Disk, writes: nat): Disk
    requires d.staged.Some? && d.stagedMeta.Some?
    requires writes <= 3
  {
    var meta := PromotedMeta(d, d.stagedMeta.value);
    var d1 := if writes >= 1 then d.(lastGood := d.staged) else d;
    var d2 := if writes >= 2 then d1.(lastGoodMeta := Some(meta)) else d1;
    if writes >= 3 then d2.(agent := Some(meta.revision)) else d2
  }

  /**
   * The revision band: meta is never published without its document, and its
   * revision is the agent counter or one ahead of it.
   */
  ghost predicate RevisionBand(d: Disk) {
    if d.lastGoodMeta.Some? then
      d.lastGood.Some? && AgentRevision(d) <= d.lastGoodMeta.value.revision <= AgentRevision(d) + 1
    else
      AgentRevision(d) == 0
  }

  /** What a restart would load as the supervisor revision when every read works. */
  function StoredRevision(d: Disk): nat {
    if d.lastGood.Some? && d.lastGoodMeta.Some? then d.lastGoodMeta.value.revision else AgentRevision(d)
  }

  /**
   * When a promote is cut after `writes` of its writes, the next complete promote
   * gets a revision nobody has seen if and only if the cut was not between the meta
   * and the counter: there the published revision is handed out a second time.
   */
  lemma CutPromoteReusesRevision(d: Disk, writes: nat)
    requires RevisionBand(d) && StoredRevision(d) == AgentRevision(d)
    requires d.staged.Some? && d.stagedMeta.Some? && writes <= 3
    ensures var cut := PromotePrefix(d, writes);
            var next := PromotePrefix(cut, 3);
            StoredRevision(next) > StoredRevision(cut) <==> writes != 2
  {
    var cut := PromotePrefix(d, writes);
    assert PromotePrefix(cut, 3).lastGoodMeta.value.revision == AgentRevision(cut) + 1;
  }

  /** The store as an object: its files are replaced in place by the methods. */
  class Store {
    var disk: Disk

    constructor ()
      ensures disk == EMPTY_DISK
    {
      disk := EMPTY_DISK;
    }

    /**
     * WriteStaged.  The three flags say which of the state read and the two file
     * writes succeed; a failure leaves exactly the writes made before it.
     */
    method WriteStaged(raw: Document, source: Source, loadOk: bool, rawOk: bool, metaOk: bool)
      returns (r: Option<Meta>)
      modifies this
      ensures r.Some? <==> loadOk && rawOk && metaOk
      ensures r.Some? ==>
        r.value == Meta(Digest(raw), if old(disk).agent.Some? then old(disk).agent.value else 0, source) == StagedMeta(old(disk), raw, source)
      ensures disk.staged == if loadOk && rawOk then Some(raw) else old(disk).staged
      ensures disk.stagedMeta == if r.Some? then r else old(disk).stagedMeta
      ensures disk.lastGood == old(disk).lastGood && disk.lastGoodMeta == old(disk).lastGoodMeta && disk.agent == old(disk).agent
      ensures disk == StagedPrefix(old(disk), raw, source, if !loadOk || !rawOk then 0 else if !metaOk then 1 else 2)
      ensures RevisionBand(old(disk)) ==> RevisionBand(disk)
    {
      if !loadOk { return None; }
      var meta := Meta(Hash(raw), if disk.agent.Some? then disk.agent.value else 0, source);
      if !rawOk { return None; }
      disk := disk.(staged := Some(raw));
      if !metaOk { return None; }
      disk := disk.(stagedMeta := Some(meta));
      return Some(meta);
    }

    /** ReadLastGood: both files must be there and readable. */
    method ReadLastGood(rawOk: bool, metaOk: bool) returns (r: Option<(Document, Meta)>)
      ensures r.Some? <==> rawOk && metaOk && disk.lastGood.Some? && disk.lastGoodMeta.Some?
      ensures r.Some? ==> Some(r.value.0) == disk.lastGood && Some(r.value.1) == disk.lastGoodMeta
    {
      if !rawOk || disk.lastGood.None? { return None; }
      var raw := disk.lastGood.value;
      if !metaOk || disk.lastGoodMeta.None? { return None; }
      return Some((raw, disk.lastGoodMeta.value));
    }

    /**
     * PromoteStaged.  `readOk` and `loadOk` are the reads, `upTo` the number of
     * file writes that succeed before one fails (3 when none does).  Whatever fails, the revision band survives, a
     * restart would not load a smaller revision, and on success it loads exactly
     * the next one.
     */
    method PromoteStaged(readOk: bool, loadOk: bool, upTo: nat) returns (r: Option<Meta>)
      requires upTo <= 3
      modifies this
      ensures r.Some? <==> readOk && loadOk && old(disk).staged.Some? && old(disk).stagedMeta.Some? && upTo == 3
      ensures !(readOk && loadOk && old(disk).staged.Some? && old(disk).stagedMeta.Some?) ==> disk == old(disk)
      ensures readOk && loadOk && old(disk).staged.Some? && old(disk).stagedMeta.Some? ==> disk == PromotePrefix(old(disk), upTo)
      ensures r.Some? ==>
        && Some(r.value) == disk.lastGoodMeta
        && disk.lastGood == old(disk).staged
        && r.value.sha == old(disk).stagedMeta.value.sha && r.value.source == old(disk).stagedMeta.value.source
        && disk.agent == Some(r.value.revision)
        && r.value.revision == AgentRevision(disk) == AgentRevision(old(disk)) + 1
      ensures disk.staged == old(disk).staged && disk.stagedMeta == old(disk).stagedMeta
      ensures RevisionBand(old(disk)) ==> RevisionBand(disk) && StoredRevision(old(disk)) <= StoredRevision(disk)
    {
      if !readOk || disk.staged.None? || disk.stagedMeta.None? { return None; }
      var raw, meta := disk.staged.value, disk.stagedMeta.value;
      if !loadOk { return None; }
      var next := (if disk.agent.Some? then disk.agent.value else 0) + 1;
      meta := meta.(revision := next);
      if upTo < 1 { return None; }
      disk := disk.(lastGood := Some(raw));
      if upTo < 2 { return None; }
      disk := disk.(lastGoodMeta := Some(meta));
      if upTo < 3 { return None; }
      disk := disk.(agent := Some(next));
      return Some(meta);
    }
  }
}
