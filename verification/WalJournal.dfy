/** The log as it runs: encoding in place, replay, append with short writes, checkpoint and rotation. */
module WalJournal {
  import opened AgentTypes
  import opened AgentState
  import opened AgentSystem
  import opened AgentRuns
  import opened AgentWriter
  import opened AgentRestart
  import opened Bytes
  import opened WalFormat
  import opened WalFiles

  // ----- Encoding -----

  method PutAt(b: array<Byte>, at: nat, s: seq<Byte>)
    requires at + |s| <= b.Length
    modifies b
    ensures b[..] == old(b[..at]) + s + old(b[at + |s|..])
  {
    var i := 0;
    while i < |s|
      invariant 0 <= i <= |s|
      invariant b[..] == old(b[..at]) + s[..i] + old(b[at + i..])
    {
      b[at + i] := s[i];
      i := i + 1;
    }
    assert s[..i] == s;
  }

  /** Fill a buffer with the record of an event. */
  method EncodeRecord(c: Codec, number: nat, e: Event) returns (ok: bool, b: array<Byte>)
    requires c.encode(e) != [] && number < Pow(8)
    ensures ok == Framable(number, c.encode(e)) && fresh(b)
    ensures ok ==> b[..] == Frame(c, number, c.encode(e))
  {
    Widths();
    var payload := c.encode(e);
    ok := |payload| <= MAX_RECORD;
    if !ok {
      b := new Byte[0];
      return;
    }
    hide Pow, Put;
    b := new Byte[RECORD_HEADER + |payload|](_ => 0);
    PutAt(b, 0, RecordMagic());
    PutAt(b, 4, Put(|payload|, 4));
    PutAt(b, 8, Put(number, 8));
    PutAt(b, RECORD_HEADER, payload);
    var head := RecordHead(|payload|, number);
    assert b[..16] == head;
    PutAt(b, 16, Put(c.Sum(b[..16] + payload), 4));
    assert b[..20] == head + Put(c.Sum(head + payload), 4);
    PutAt(b, 20, Put(c.Sum(b[..20]), 4));
    assert b[..RECORD_HEADER] == FrameHeader(c, number, payload);
    assert b[RECORD_HEADER..] == payload;
    assert b[..] == b[..RECORD_HEADER] + b[RECORD_HEADER..];
  }

  // ----- Replay -----

  method HasFollowingRecord(c: Codec, b: seq<Byte>, number: nat) returns (found: bool)
    ensures found == HasFollowing(c, b, number)
  {
    hide RecordAt;
    var i: nat := 0;
    while i + RECORD_HEADER <= |b|
      invariant forall j: nat :: j < i && j + RECORD_HEADER <= |b| ==> !RecordAt(c, b, j, number)
    {
      if RecordAt(c, b, i, number) { return true; }
      i := i + 1;
    }
    found := false;
  }

  method ReadNext(c: Codec, rest: seq<Byte>, number: nat) returns (r: Reading)
    ensures r == ReadRecord(c, rest, number)
  {
    hide HasFollowing, HeaderIntact, Get;
    if |rest| < RECORD_HEADER {
      var prefix := if |rest| > 4 then 4 else |rest|;
      return if rest[..prefix] == RecordMagic()[..prefix] then Torn else Corrupt;
    }
    var h := rest[..RECORD_HEADER];
    var n := Get(h[4..8]);
    if !HeaderIntact(c, h) || n == 0 || n > MAX_RECORD || Get(h[8..16]) != number { return Corrupt; }
    if n > |rest| - RECORD_HEADER {
      if |rest| - 1 > RECOVERY_BOUND { return Corrupt; }
      var has := HasFollowingRecord(c, rest[1..], number);
      return if has then Corrupt else Torn;
    }
    var payload := rest[RECORD_HEADER..RECORD_HEADER + n];
    r := if c.Sum(h[..16] + payload) != Get(h[16..20]) then Corrupt else Whole(payload);
  }

  /** Read the log from its header on and bring the checkpointed state up to date. */
  method ReplayLog(c: Codec, log: seq<Byte>, d: Disk, q: nat) returns (r: Opened)
    ensures r == Replay(c, log, d, q)
  {
    hide ReadRecord, Valid, Apply, Get;
    if |log| < HEADER { return Failed; }
    if log[..8] != FileMagic() || Get(log[16..HEADER]) != c.Sum(log[..16]) || Get(log[8..16]) > q { return Failed; }
    var disk, sequence, number, offset := d, q, Get(log[8..16]) + 1, HEADER;
    while offset < |log|
      invariant HEADER <= offset <= |log| && 0 <= number && 0 <= sequence
      invariant Replay(c, log, d, q) == ReplayRest(c, log[offset..], offset, number, disk, sequence)
      decreases |log| - offset
    {
      var reading := ReadNext(c, log[offset..], number);
      match reading
      case Corrupt => return Failed;
      case Torn => return Opened(disk, sequence, offset);
      case Whole(payload) =>
        var size := RECORD_HEADER + |payload|;
        assert log[offset..][size..] == log[offset + size..];
        if number > sequence {
          var e := c.decode(payload);
          if e.None? { return Failed; }
          var ok := ValidateEvent(disk, e.value);
          if !ok { return Failed; }
          disk := ApplyTo(disk, e.value);
          sequence := number;
        }
        number, offset := number + 1, offset + size;
    }
    r := Opened(disk, sequence, offset);
  }

  method OpenFiles(c: Codec, snap: Saved, log: seq<Byte>) returns (r: Opened)
    ensures r == Open(c, snap, log)
  {
    hide Snapshot, Replay, AddMissing, LeasesOf;
    var d := snap.disk.(leases := AddMissing(snap.disk.leases, LeasesOf(snap.disk.config.rules)));
    var ok := ValidateSnapshot(d);
    if !ok { return Failed; }
    r := ReplayLog(c, log, d, snap.sequence);
    if r.Opened? {
      ok := ValidateSnapshot(r.disk);
      if !ok { return Failed; }
    }
  }

  // ----- What a crash may cost -----

  /** Opening these files yields `d` after event `q`, and the trimmed log stores it. */
  ghost predicate OpensTo(c: Codec, snap: Saved, log: seq<Byte>, d: Disk, q: nat) {
    var r := Open(c, snap, log);
    && r.Opened? && r.disk == d && r.sequence == q && r.size <= |log| && Trusted(d)
    && exists base: nat, records :: Stored(c, snap, log[..r.size], base, records, d, q)
  }

  /** Whatever a crash leaves opens to `d` or `alt`, with some prefix of the batch on top. */
  ghost predicate Recovers(c: Codec, files: Files, d: Disk, alt: Disk, q: nat, events: seq<Event>) {
    forall snap, log :: CrashLeaves(files, snap, log) ==>
      exists m: nat :: m <= |events| &&
        (OpensTo(c, snap, log, ApplyAll(d, events[..m]), q + m) || OpensTo(c, snap, log, ApplyAll(alt, events[..m]), q + m))
  }

  lemma StoredOpensTo(c: Codec, snap: Saved, log: seq<Byte>, base: nat, records: seq<Event>, d: Disk, q: nat, events: seq<Event>, k: nat)
    requires c.Faithful() && Stored(c, snap, log, base, records, d, q) && Loggable(c, d, q, events)
    requires k <= |Frames(c, q + 1, events)|
    ensures exists m: nat :: m <= |events| &&
              OpensTo(c, snap, log + Frames(c, q + 1, events)[..k], ApplyAll(d, events[..m]), q + m)
  {
    hide Frames, Complete, Open, Stored, ApplyAll, Trusted, Loggable, NoInteriorRecord, AllValid, Framable;
    LoggableParts(c, d, q, events);
    StoredOpens(c, snap, log, base, records, d, q, events, k);
    var m := Complete(c, q + 1, events, k);
    var cut, kept := log + Frames(c, q + 1, events)[..k], log + Frames(c, q + 1, events[..m]);
    assert cut[..|kept|] == kept;
    assert OpensTo(c, snap, cut, ApplyAll(d, events[..m]), q + m);
  }

  /** A partly written batch. */
  lemma CutAppendRecovers(c: Codec, files: Files, base: nat, records: seq<Event>, d: Disk, q: nat, events: seq<Event>)
    requires c.Faithful() && Stored(c, files.snap, files.log, base, records, d, q) && Loggable(c, d, q, events)
    requires files.newSnap.None? && files.newLog.None? && files.tail <= Frames(c, q + 1, events)
    ensures Recovers(c, files, d, d, q, events)
  {
    hide Stored, OpensTo, Frames, Trusted, AllValid, NoInteriorRecord, ApplyAll;
    forall snap, log | CrashLeaves(files, snap, log)
      ensures exists m: nat :: m <= |events| && OpensTo(c, snap, log, ApplyAll(d, events[..m]), q + m)
    {
      var k: nat :| k <= |files.tail| && log == files.log + files.tail[..k];
      assert files.tail[..k] == Frames(c, q + 1, events)[..k];
      StoredOpensTo(c, snap, files.log, base, records, d, q, events, k);
    }
  }

  lemma StoredStays(c: Codec, snap: Saved, log: seq<Byte>, base: nat, records: seq<Event>, d: Disk, q: nat)
    requires c.Faithful() && Stored(c, snap, log, base, records, d, q) && Trusted(d)
    ensures OpensTo(c, snap, log, d, q)
  {
    hide Frames, Open, Trusted, Complete;
    NoFrames(c, q + 1);
    assert Loggable(c, d, q, []);
    var none: seq<Event> := [];
    StoredOpens(c, snap, log, base, records, d, q, none, 0);
    assert log + Frames(c, q + 1, none)[..0] == log && none[..0] == none;
    hide Stored;
    assert log[..|log|] == log;
  }

  // ----- Checkpoints -----

  lemma {:induction false} AllSkipped(d: Disk, q: nat, first: nat, events: seq<Event>)
    requires first + |events| <= q + 1
    ensures CanCatchUp(d, q, first, events) && CatchUp(d, q, first, events) == d
    decreases |events|
  {
    hide Valid, Apply;
    if events != [] {
      AllSkipped(d, q, first + 1, events[1..]);
    }
  }

  /** A newer checkpoint beside the old log: all of its records are already part of the checkpoint. */
  lemma NewerCheckpoint(c: Codec, snap: Saved, log: seq<Byte>, base: nat, records: seq<Event>, d: Disk, q: nat, newer: Disk)
    requires Stored(c, snap, log, base, records, d, q) && Trusted(newer)
    ensures Stored(c, Saved(q, newer), log, base, records, newer, q)
  {
    hide Frames, FileHeader, Trusted, Writable;
    AllSkipped(newer, q, base + 1, records);
  }

  lemma FreshLog(c: Codec, newer: Disk, q: nat)
    requires Trusted(newer) && q < Pow(8)
    ensures Stored(c, Saved(q, newer), FileHeader(c, q), q, [], newer, q)
  {
    hide Trusted, FileHeader;
    assert Writable(c, q + 1, []);
    assert FileHeader(c, q) + [] == FileHeader(c, q);
  }

  lemma InvIsTrusted(terms: Terms, d: Disk)
    requires Inv(terms, d)
    ensures Trusted(d)
  {
    InvIsAccepted(terms, d);
    hide Snapshot;
  }

  /** Files whose every possible remainder opens to one of two states. */
  lemma QuietRecovers(c: Codec, files: Files, d: Disk, alt: Disk, q: nat)
    requires files.tail == []
    requires OneOf(c, files.snap, files.log, d, alt, q)
    requires files.newSnap.Some? ==> OneOf(c, files.newSnap.value, files.log, d, alt, q)
    requires files.newLog.Some? ==> OneOf(c, files.snap, files.newLog.value, d, alt, q)
    requires files.newSnap.Some? && files.newLog.Some? ==> OneOf(c, files.newSnap.value, files.newLog.value, d, alt, q)
    ensures Recovers(c, files, d, alt, q, [])
  {
    hide OpensTo;
    forall snap, log | CrashLeaves(files, snap, log)
      ensures exists m: nat :: m <= 0 && (OpensTo(c, snap, log, ApplyAll(d, [][..m]), q + m) || OpensTo(c, snap, log, ApplyAll(alt, [][..m]), q + m))
    {
      LeftQuietly(files, snap, log);
      assert OneOf(c, snap, log, d, alt, q);
      var none: seq<Event> := [];
      assert none[..0] == none && ApplyAll(d, none) == d && ApplyAll(alt, none) == alt;
      var m: nat := 0;
      assert OpensTo(c, snap, log, ApplyAll(d, none[..m]), q + m) || OpensTo(c, snap, log, ApplyAll(alt, none[..m]), q + m);
    }
  }

  ghost predicate OneOf(c: Codec, snap: Saved, log: seq<Byte>, d: Disk, alt: Disk, q: nat) {
    OpensTo(c, snap, log, d, q) || OpensTo(c, snap, log, alt, q)
  }

  lemma LeftQuietly(files: Files, snap: Saved, log: seq<Byte>)
    requires files.tail == [] && CrashLeaves(files, snap, log)
    ensures snap == files.snap || files.newSnap == Some(snap)
    ensures log == files.log || files.newLog == Some(log)
  {
    assert forall k: nat :: k <= |files.tail| ==> files.log + files.tail[..k] == files.log;
  }

  // ----- The journal -----

  class Journal {
    const codec: Codec
    var files: Files
    var state: Disk
    var sequence: nat

    ghost var base: nat
    ghost var records: seq<Event>

    ghost predicate Valid()
      reads this
    {
      && codec.Faithful() && Trusted(state) && sequence < Pow(8)
      && files.newSnap.None? && files.newLog.None? && files.tail == []
      && Stored(codec, files.snap, files.log, base, records, state, sequence)
    }

    /** Open whatever a crash left; the torn tail is cut off. */
    constructor Reopen(c: Codec, snap: Saved, log: seq<Byte>, ghost d: Disk, ghost q: nat)
      requires c.Faithful() && OpensTo(c, snap, log, d, q) && q < Pow(8)
      ensures Valid() && state == d && sequence == q && codec == c && files.snap == snap && files.log <= log
    {
      hide Open, Stored, Trusted, Pow;
      var r := OpenFiles(c, snap, log);
      codec := c;
      files := Files(snap, None, log[..r.size], [], None);
      state, sequence := r.disk, r.sequence;
      ghost var b: nat, rs :| Stored(c, snap, log[..r.size], b, rs, d, q);
      base, records := b, rs;
    }

    method EncodeBatch(events: seq<Event>) returns (ok: bool, batch: seq<Byte>)
      requires codec.Faithful() && sequence + |events| < Pow(8)
      ensures ok == Writable(codec, sequence + 1, events)
      ensures ok ==> batch == Frames(codec, sequence + 1, events)
    {
      hide Pow, Frames, Frame, Framable;
      ok, batch := true, [];
      var i := 0;
      assert events[..0] == [] && Writable(codec, sequence + 1, []);
      NoFrames(codec, sequence + 1);
      while i < |events|
        invariant 0 <= i <= |events|
        invariant Writable(codec, sequence + 1, events[..i]) && batch == Frames(codec, sequence + 1, events[..i])
      {
        var good, b := EncodeRecord(codec, sequence + i + 1, events[i]);
        if !good {
          assert !Framable(sequence + 1 + i, codec.encode(events[i]));
          return false, batch;
        }
        OneMoreFrame(codec, sequence + 1, events, i);
        batch := batch + b[..];
        i := i + 1;
      }
      assert events[..i] == events;
    }

    /**
     * Append a batch, write by write, and sync it; `writes` are the sizes that the file accepts before it fails.
     * If all of it is written the batch takes effect. If not, whatever a crash leaves opens to the old state with
     * some prefix of the batch.
     */
    method CommitBatch(events: seq<Event>, writes: seq<nat>) returns (ok: bool)
      requires Valid()
      requires Writable(codec, sequence + 1, events) ==> Loggable(codec, state, sequence, events)
      modifies this
      ensures ok ==> Valid() && state == ApplyAll(old(state), events) && sequence == old(sequence) + |events|
      ensures if ok then Recovers(codec, files, state, state, sequence, [])
              else Recovers(codec, files, old(state), old(state), old(sequence), events)
    {
      hide Stored, Pow, Frames, Trusted, Recovers, OpensTo, ApplyAll, Writable, Loggable;
      ok := false;
      UnwrittenRecovers(codec, files, base, records, state, sequence, events);
      if sequence + |events| >= Pow(8) { return; }
      var batch;
      ok, batch := EncodeBatch(events);
      if !ok { return; }
      ok := WriteAll(batch, writes);
      CutAppendRecovers(codec, files, base, records, state, sequence, events);
      if !ok { return; }
      BatchTakesEffect(codec, files.snap, files.log, base, records, state, sequence, events);
      files := files.(log := files.log + files.tail, tail := []);
      state := ApplyBatch(state, events);
      sequence := sequence + |events|;
      records := records + events;
      UnwrittenRecovers(codec, files, base, records, state, sequence, []);
    }

    /** Short writes are retried from where they stopped. */
    method WriteAll(batch: seq<Byte>, writes: seq<nat>) returns (ok: bool)
      requires files.tail == []
      modifies this`files
      ensures files == old(files).(tail := files.tail) && files.tail <= batch && (ok ==> files.tail == batch)
    {
      var p, i := batch, 0;
      while |p| > 0
        invariant 0 <= i <= |writes| && files == old(files).(tail := files.tail) && files.tail + p == batch
        decreases |writes| - i
      {
        if i == |writes| || writes[i] == 0 || writes[i] > |p| { return false; }
        files := files.(tail := files.tail + p[..writes[i]]);
        p := p[writes[i]..];
        i := i + 1;
      }
      ok := true;
    }

    /**
     * Replace the checkpoint, then the log. `fault` names the point where the machine stops: whatever is left opens
     * to the state before the checkpoint or to the same state without its forgotten leases.
     */
    method Checkpoint(now: int, fault: nat, ghost terms: Terms) returns (ok: bool)
      requires Valid() && Inv(terms, state)
      modifies this
      ensures state == Prune(old(state), now) && Inv(terms, state) && sequence == old(sequence)
      ensures Recovers(codec, files, state, old(state), sequence, [])
      ensures ok == (fault > 3)
      ensures ok ==> Valid() && files == Files(Saved(sequence, state), None, FileHeader(codec, sequence), [], None)
    {
      hide Stored, Pow, Trusted, Recovers, OpensTo, Inv, Prune, FileHeader;
      ghost var before := state;
      var forgotten;
      state, forgotten := PruneLeaseHistory(state, now);
      PruneKeepsInv(terms, before, now);
      InvIsTrusted(terms, state);
      ok := false;
      StoredStays(codec, files.snap, files.log, base, records, before, sequence);
      QuietRecovers(codec, files, state, before, sequence);
      if fault == 0 { return; }

      var next := Saved(sequence, state);
      files := files.(newSnap := Some(next));
      NewerCheckpoint(codec, files.snap, files.log, base, records, before, sequence, state);
      StoredStays(codec, next, files.log, base, records, state, sequence);
      QuietRecovers(codec, files, state, before, sequence);
      if fault == 1 { return; }

      files := files.(snap := next, newSnap := None);
      QuietRecovers(codec, files, state, before, sequence);
      if fault == 2 { return; }

      var header := FileHeader(codec, sequence);
      files := files.(newLog := Some(header));
      FreshLog(codec, state, sequence);
      StoredStays(codec, next, header, sequence, [], state, sequence);
      QuietRecovers(codec, files, state, before, sequence);
      if fault == 3 { return; }

      files := files.(log := header, newLog := None);
      QuietRecovers(codec, files, state, before, sequence);
      base, records := sequence, [];
      ok := true;
    }
  }

  method ApplyBatch(d: Disk, events: seq<Event>) returns (after: Disk)
    ensures after == ApplyAll(d, events)
  {
    hide Apply;
    after := d;
    var i := 0;
    while i < |events|
      invariant 0 <= i <= |events| && ApplyAll(after, events[i..]) == ApplyAll(d, events)
    {
      assert events[i..][1..] == events[i + 1..];
      after := ApplyTo(after, events[i]);
      i := i + 1;
    }
  }

  lemma OneMoreFrame(c: Codec, first: nat, events: seq<Event>, i: nat)
    requires i < |events| && Writable(c, first, events[..i]) && Framable(first + i, c.encode(events[i]))
    ensures Writable(c, first, events[..i + 1])
    ensures Frames(c, first, events[..i + 1]) == Frames(c, first, events[..i]) + Frame(c, first + i, c.encode(events[i]))
  {
    hide *;
    var a, b := events[..i], [events[i]];
    assert events[..i + 1] == a + b;
    OneFrame(c, first + i, events[i]);
    WritableAppend(c, first, a, b);
    FramesAppend(c, first, a, b);
  }

  lemma OneFrame(c: Codec, number: nat, e: Event)
    requires Framable(number, c.encode(e))
    ensures Writable(c, number, [e]) && Frames(c, number, [e]) == Frame(c, number, c.encode(e))
  {
    hide Frame, Framable;
    assert Writable(c, number, [e]);
    assert [e][1..] == [];
    assert Frame(c, number, c.encode(e)) + [] == Frame(c, number, c.encode(e));
  }

  lemma UnwrittenRecovers(c: Codec, files: Files, base: nat, records: seq<Event>, d: Disk, q: nat, events: seq<Event>)
    requires c.Faithful() && Stored(c, files.snap, files.log, base, records, d, q) && Trusted(d)
    requires files.newSnap.None? && files.newLog.None? && files.tail == []
    ensures Recovers(c, files, d, d, q, events)
  {
    hide OpensTo, Stored;
    StoredStays(c, files.snap, files.log, base, records, d, q);
    forall snap, log | CrashLeaves(files, snap, log)
      ensures exists m: nat :: m <= |events| && OpensTo(c, snap, log, ApplyAll(d, events[..m]), q + m)
    {
      assert files.log + files.tail[..0] == files.log;
      assert events[..0] == [] && ApplyAll(d, []) == d;
      assert OpensTo(c, snap, log, ApplyAll(d, events[..0]), q + 0);
    }
  }

  lemma BatchTakesEffect(c: Codec, snap: Saved, log: seq<Byte>, base: nat, records: seq<Event>, d: Disk, q: nat, events: seq<Event>)
    requires Stored(c, snap, log, base, records, d, q) && Writable(c, q + 1, events) && Loggable(c, d, q, events)
    ensures Stored(c, snap, log + Frames(c, q + 1, events), base, records + events, ApplyAll(d, events), q + |events|)
    ensures Trusted(ApplyAll(d, events))
  {
    hide Trusted, Stored, Frames, NoInteriorRecord;
    StoredGrows(c, snap, log, base, records, d, q, events);
    assert events[..|events|] == events;
  }
}
