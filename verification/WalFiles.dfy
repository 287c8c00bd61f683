/** A checkpoint and a log as files that a crash can catch half-written, and what opening them again yields. */
module WalFiles {
  import opened AgentTypes
  import opened AgentState
  import opened AgentSystem
  import opened AgentRuns
  import opened Bytes
  import opened WalFormat

  datatype Saved = Saved(sequence: nat, disk: Disk)

  /**
   * The checkpoint and the log. `tail` was appended but not synced. A `new` file has been renamed into place, but
   * its directory has not been synced.
   */
  datatype Files = Files(snap: Saved, newSnap: Option<Saved>, log: seq<Byte>, tail: seq<Byte>, newLog: Option<seq<Byte>>)

  /** What a crash may leave: each pending rename happened or not, and the tail is cut anywhere. */
  ghost predicate CrashLeaves(f: Files, snap: Saved, log: seq<Byte>) {
    && (snap == f.snap || f.newSnap == Some(snap))
    && ((exists k: nat :: k <= |f.tail| && log == f.log + f.tail[..k]) || f.newLog == Some(log))
  }

  // ----- Opening -----

  /** Older checkpoints may lack leases that the configuration names. */
  function AddMissing(leases: map<Id, Lease>, named: seq<Lease>): map<Id, Lease>
    decreases |named|
  {
    if named == [] then leases
    else AddMissing(if named[0].id in leases then leases else leases[named[0].id := named[0]], named[1..])
  }

  ghost function Open(c: Codec, snap: Saved, log: seq<Byte>): Opened {
    var d := snap.disk.(leases := AddMissing(snap.disk.leases, LeasesOf(snap.disk.config.rules)));
    if !Snapshot(d) then Failed
    else
      var r := Replay(c, log, d, snap.sequence);
      if r.Opened? && !Snapshot(r.disk) then Failed else r
  }

  lemma {:induction false} NothingMissing(leases: map<Id, Lease>, named: seq<Lease>)
    requires Ids(named) <= leases.Keys
    ensures AddMissing(leases, named) == leases
    decreases |named|
  {
    if named != [] {
      assert named[0].id in Ids(named);
      assert Ids(named[1..]) <= Ids(named);
      NothingMissing(leases, named[1..]);
    }
  }

  /** Completion adds what the configuration names and changes no lease that is there. */
  lemma {:induction false} MissingIsAdded(leases: map<Id, Lease>, named: seq<Lease>)
    ensures AddMissing(leases, named).Keys == leases.Keys + Ids(named)
    ensures forall l :: l in leases ==> AddMissing(leases, named)[l] == leases[l]
    ensures forall l :: l in AddMissing(leases, named) && l !in leases ==> AddMissing(leases, named)[l] in named
    decreases |named|
  {
    if named == [] {
      assert Ids(named) == {};
    } else {
      MissingIsAdded(if named[0].id in leases then leases else leases[named[0].id := named[0]], named[1..]);
      assert Ids(named) == {named[0].id} + Ids(named[1..]);
    }
  }

  // ----- Stored states -----

  ghost predicate Trusted(d: Disk) {
    Snapshot(d) && Ids(LeasesOf(d.config.rules)) <= d.leases.Keys
  }

  /** The files hold state `d` after event number `q`: the checkpoint, then the log's records `base + 1 .. q`. */
  ghost predicate Stored(c: Codec, snap: Saved, log: seq<Byte>, base: nat, records: seq<Event>, d: Disk, q: nat) {
    && base < Pow(8) && Writable(c, base + 1, records)
    && log == FileHeader(c, base) + Frames(c, base + 1, records)
    && base <= snap.sequence <= q == base + |records|
    && Trusted(snap.disk)
    && CanCatchUp(snap.disk, snap.sequence, base + 1, records)
    && CatchUp(snap.disk, snap.sequence, base + 1, records) == d
  }

  /** A batch that may be logged after state `d` and number `q`. */
  ghost predicate Loggable(c: Codec, d: Disk, q: nat, events: seq<Event>) {
    && Writable(c, q + 1, events) && AllValid(d, events)
    && (forall i :: 0 <= i < |events| ==> NoInteriorRecord(c, q + 1 + i, c.encode(events[i])))
    && (forall m :: 0 <= m <= |events| ==> Trusted(ApplyAll(d, events[..m])))
  }

  lemma LoggableParts(c: Codec, d: Disk, q: nat, events: seq<Event>)
    requires Loggable(c, d, q, events)
    ensures Writable(c, q + 1, events) && AllValid(d, events)
    ensures forall i :: 0 <= i < |events| ==> NoInteriorRecord(c, q + 1 + i, c.encode(events[i]))
    ensures forall m :: 0 <= m <= |events| ==> Trusted(ApplyAll(d, events[..m]))
  {
    hide Trusted, AllValid, NoInteriorRecord, ApplyAll;
  }

  lemma OpenReplays(c: Codec, snap: Saved, base: nat, events: seq<Event>, k: nat)
    requires c.Faithful() && base < Pow(8) && base <= snap.sequence && Trusted(snap.disk)
    requires Writable(c, base + 1, events) && k <= |Frames(c, base + 1, events)| && CleanCut(c, base + 1, events, k)
    requires CanCatchUp(snap.disk, snap.sequence, base + 1, events)
    ensures var m := Complete(c, base + 1, events, k);
            var d := CatchUp(snap.disk, snap.sequence, base + 1, events[..m]);
            && Writable(c, base + 1, events[..m])
            && (Snapshot(d) ==>
                  Open(c, snap, FileHeader(c, base) + Frames(c, base + 1, events)[..k])
                  == Opened(d, Later(snap.sequence, base + m), HEADER + |Frames(c, base + 1, events[..m])|))
  {
    hide Snapshot, ReplayRest, FileHeader, FileMagic, Frames, CatchUp, Complete, CanCatchUp, Writable, CleanCut, LeasesOf, Ids;
    var m := Complete(c, base + 1, events, k);
    NothingMissing(snap.disk.leases, LeasesOf(snap.disk.config.rules));
    assert snap.disk.(leases := snap.disk.leases) == snap.disk;
    var body := Frames(c, base + 1, events)[..k];
    FileHeaderIsRead(c, base, body);
    assert (FileHeader(c, base) + body)[HEADER..] == body;
    WritablePrefix(c, base + 1, events, m);
    CutLogReplays(c, HEADER, base + 1, events, k, snap.disk, snap.sequence);
  }

  /** The cut of a longer log, in terms of what was stored and what was being appended. */
  lemma CutOfLonger(c: Codec, base: nat, records: seq<Event>, events: seq<Event>, k: nat)
    requires Writable(c, base + 1, records) && Writable(c, base + 1 + |records|, events)
    requires k <= |Frames(c, base + 1 + |records|, events)|
    requires forall i :: 0 <= i < |events| ==> NoInteriorRecord(c, base + 1 + |records| + i, c.encode(events[i]))
    ensures var all, q, size := records + events, base + |records|, |Frames(c, base + 1, records)|;
            var m := Complete(c, q + 1, events, k);
            && Writable(c, base + 1, all) && size + k <= |Frames(c, base + 1, all)|
            && Frames(c, base + 1, all)[..size + k] == Frames(c, base + 1, records) + Frames(c, q + 1, events)[..k]
            && Complete(c, base + 1, all, size + k) == |records| + m
            && all[..|records| + m] == records + events[..m]
            && CleanCut(c, base + 1, all, size + k)
  {
    hide *;
    var all, size := records + events, |Frames(c, base + 1, records)|;
    WritableAppend(c, base + 1, records, events);
    FramesAppend(c, base + 1, records, events);
    CompleteAppend(c, base + 1, records, events, k);
    var m := Complete(c, base + 1 + |records|, events, k);
    assert all[..|records| + m] == records + events[..m];
    if |records| + m < |all| {
      assert all[|records| + m] == events[m];
    }
    CleanCutIs(c, base + 1, all, size + k);
  }

  lemma CleanCutIs(c: Codec, first: nat, events: seq<Event>, k: nat)
    requires Writable(c, first, events)
    ensures var m := Complete(c, first, events, k);
            CleanCut(c, first, events, k) <==> (m < |events| ==> NoInteriorRecord(c, first + m, c.encode(events[m])))
  {
    hide NoInteriorRecord;
  }

  /** One longer log of complete records. */
  lemma StoredGrows(c: Codec, snap: Saved, log: seq<Byte>, base: nat, records: seq<Event>, d: Disk, q: nat, more: seq<Event>)
    requires Stored(c, snap, log, base, records, d, q) && Writable(c, q + 1, more) && AllValid(d, more)
    ensures Stored(c, snap, log + Frames(c, q + 1, more), base, records + more, ApplyAll(d, more), q + |more|)
  {
    hide Frames, CatchUp, CanCatchUp, Writable, FileHeader, Trusted, AllValid, ApplyAll;
    WritableAppend(c, base + 1, records, more);
    FramesAppend(c, base + 1, records, more);
    CatchUpAppend(snap.disk, snap.sequence, base + 1, records, more);
    Regroup(FileHeader(c, base), Frames(c, base + 1, records), Frames(c, q + 1, more));
  }

  /**
   * Opening after a crash that cut an append anywhere: everything synced, then some prefix of the batch, and the
   * trimmed log stores exactly that.
   */
  lemma StoredOpens(c: Codec, snap: Saved, log: seq<Byte>, base: nat, records: seq<Event>, d: Disk, q: nat, events: seq<Event>, k: nat)
    requires c.Faithful() && Stored(c, snap, log, base, records, d, q) && Loggable(c, d, q, events)
    requires k <= |Frames(c, q + 1, events)|
    ensures var m := Complete(c, q + 1, events, k);
            var cut := log + Frames(c, q + 1, events)[..k];
            && Writable(c, q + 1, events[..m])
            && var kept := log + Frames(c, q + 1, events[..m]);
               && kept <= cut
               && Open(c, snap, cut) == Opened(ApplyAll(d, events[..m]), q + m, |kept|)
               && Stored(c, snap, kept, base, records + events[..m], ApplyAll(d, events[..m]), q + m)
  {
    hide Frames, CatchUp, CanCatchUp, Writable, FileHeader, Trusted, AllValid, ApplyAll, Complete, CleanCut, NoInteriorRecord, Open, Loggable, Framable;
    LoggableParts(c, d, q, events);
    var m := Complete(c, q + 1, events, k);
    var all, size := records + events, |Frames(c, base + 1, records)|;
    WritablePrefix(c, q + 1, events, m);
    PrefixIsValid(d, events, m);
    CutOfLonger(c, base, records, events, k);
    CompleteFits(c, q + 1, events, k);
    CatchUpAppend(snap.disk, snap.sequence, base + 1, records, events);
    CatchUpAppend(snap.disk, snap.sequence, base + 1, records, events[..m]);
    StoredGrows(c, snap, log, base, records, d, q, events[..m]);
    OpenReplays(c, snap, base, all, size + k);
    TrustedIsSnapshot(ApplyAll(d, events[..m]));
    Regroup(FileHeader(c, base), Frames(c, base + 1, records), Frames(c, q + 1, events)[..k]);
    FramesAppend(c, base + 1, records, events[..m]);
  }

  lemma TrustedIsSnapshot(d: Disk)
    requires Trusted(d)
    ensures Snapshot(d)
  {
  }

  // ----- The writer's batches -----

  /** What the writer stages may be logged: every prefix that a torn write can leave is accepted on reopening. */
  lemma StagedIsLoggable(c: Codec, terms: Terms, s: System, q: nat, events: seq<Event>)
    requires Core(terms, s) && Staged(terms, s, events) && Writable(c, q + 1, events)
    requires forall i :: 0 <= i < |events| ==> NoInteriorRecord(c, q + 1 + i, c.encode(events[i]))
    ensures Loggable(c, s.disk, q, events)
  {
    hide Core, Staged, PostAll, ApplyAll, Writable, NoInteriorRecord, AllValid, Trusted;
    StagedIsValid(terms, s, events);
    forall m | 0 <= m <= |events| ensures Trusted(ApplyAll(s.disk, events[..m])) {
      PostAllKeepsCore(terms, s, events, m);
      PostAllDisk(s, events[..m]);
      CoreIsTrusted(terms, PostAll(s, events[..m]));
    }
  }

  lemma CoreIsTrusted(terms: Terms, s: System)
    requires Core(terms, s)
    ensures Trusted(s.disk)
  {
    InvIsAccepted(terms, s.disk);
    hide Snapshot;
  }
}
