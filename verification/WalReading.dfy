/**
 * What the reader makes of any bytes at all. A log opens if and only if it is a file header, records exactly as the
 * writer frames them, and a rest that a torn append can explain.
 */
module WalReading {
  import opened AgentTypes
  import opened AgentState
  import opened Bytes
  import opened WalFormat
  import WalFiles
  import opened AgentBatches
  import opened AgentRestore

  // ----- Intact records are frames -----

  /** The writer's record `number` with this payload starts the bytes. */
  predicate StartsWith(c: Codec, b: seq<Byte>, number: nat, payload: seq<Byte>) {
    Framable(number, payload) && Frame(c, number, payload) <= b
  }

  /** A header with its fields in place. */
  lemma HeaderIsFramed(c: Codec, h: seq<Byte>, payload: seq<Byte>)
    requires |h| == RECORD_HEADER && HeaderIntact(c, h) && Get(h[4..8]) == |payload| && c.Sum(h[..16] + payload) == Get(h[16..20])
    ensures |payload| < Pow(4) && Get(h[8..16]) < Pow(8) && h == FrameHeader(c, Get(h[8..16]), payload)
  {
    PutGet(h[4..8]);
    PutGet(h[8..16]);
    PutGet(h[16..20]);
    PutGet(h[20..24]);
    hide Get, Put, Pow;
    var head := RecordHead(|payload|, Get(h[8..16]));
    assert h[..16] == h[..4] + h[4..8] + h[8..16];
    assert h[..16] == head;
    assert h[..20] == h[..16] + h[16..20];
    assert h == h[..20] + h[20..24];
  }

  lemma FrameIsHeaded(c: Codec, b: seq<Byte>, number: nat, payload: seq<Byte>)
    requires StartsWith(c, b, number, payload)
    ensures RECORD_HEADER + |payload| <= |b| && b[..RECORD_HEADER] == FrameHeader(c, number, payload)
    ensures b[RECORD_HEADER..RECORD_HEADER + |payload|] == payload
    ensures var h := b[..RECORD_HEADER];
            && HeaderIntact(c, h) && Get(h[4..8]) == |payload| && Get(h[8..16]) == number && Get(h[16..20]) == c.Sum(h[..16] + payload)
  {
    HeaderFields(c, number, payload);
    hide Get, Put, Pow, HeaderIntact, FrameHeader;
    var f := Frame(c, number, payload);
    assert b[..|f|] == f;
    assert b[..RECORD_HEADER] == f[..RECORD_HEADER];
    assert b[RECORD_HEADER..RECORD_HEADER + |payload|] == f[RECORD_HEADER..];
  }

  /** An intact record found in the bytes is one that the writer framed. */
  lemma RecordIsFrame(c: Codec, b: seq<Byte>, i: nat, number: nat)
    requires i + RECORD_HEADER <= |b|
    ensures RecordAt(c, b, i, number) <==> exists m: nat, payload :: number < m && StartsWith(c, b[i..], m, payload)
  {
    var rest := b[i..];
    assert b[i..i + RECORD_HEADER] == rest[..RECORD_HEADER];
    if RecordAt(c, b, i, number) {
      var h := rest[..RECORD_HEADER];
      var n := Get(h[4..8]);
      var payload := b[i + RECORD_HEADER..i + RECORD_HEADER + n];
      assert payload == rest[RECORD_HEADER..RECORD_HEADER + n];
      HeaderIsFramed(c, h, payload);
      hide Get, HeaderIntact, FrameHeader;
      assert Frame(c, Get(h[8..16]), payload) == rest[..RECORD_HEADER + n];
      assert StartsWith(c, rest, Get(h[8..16]), payload);
    }
    if m: nat, payload :| number < m && StartsWith(c, rest, m, payload) {
      hide Get, HeaderIntact, FrameHeader;
      FrameIsHeaded(c, rest, m, payload);
      assert b[i + RECORD_HEADER..i + RECORD_HEADER + |payload|] == rest[RECORD_HEADER..RECORD_HEADER + |payload|];
    }
  }

  // ----- What a torn append can leave -----

  /**
   * Nothing; or less than a record header that starts like one; or the intact header of the record that is due, with less
   * than the bytes it announces, and no intact later record behind it.
   */
  ghost predicate TornRest(c: Codec, rest: seq<Byte>, number: nat) {
    || rest == []
    || (|rest| < 24 && forall i :: 0 <= i < 4 && i < |rest| ==> rest[i] == RecordMagic()[i])
    || (&& 24 <= |rest| <= 12_582_913 && rest[..4] == RecordMagic() && Get(rest[20..24]) == c.Sum(rest[..20])
        && Get(rest[8..16]) == number && 0 < Get(rest[4..8]) <= 4_194_304 && |rest| < 24 + Get(rest[4..8])
        && forall i: nat, m: nat, payload :: 1 <= i <= |rest| && number < m ==> !StartsWith(c, rest[i..], m, payload))
  }

  lemma NothingFollows(c: Codec, rest: seq<Byte>, number: nat)
    requires rest != []
    ensures !HasFollowing(c, rest[1..], number) <==>
              forall i: nat, m: nat, payload :: 1 <= i <= |rest| && number < m ==> !StartsWith(c, rest[i..], m, payload)
  {
    hide RecordAt, StartsWith;
    var b := rest[1..];
    if HasFollowing(c, b, number) {
      var i: nat :| i + RECORD_HEADER <= |b| && RecordAt(c, b, i, number);
      RecordIsFrame(c, b, i, number);
      var m: nat, payload :| number < m && StartsWith(c, b[i..], m, payload);
      assert b[i..] == rest[i + 1..];
    }
    if i: nat, m: nat, payload :| 1 <= i <= |rest| && number < m && StartsWith(c, rest[i..], m, payload) {
      assert b[i - 1..] == rest[i..];
      FrameIsHeaded(c, rest[i..], m, payload);
      RecordIsFrame(c, b, i - 1, number);
    }
  }

  lemma PrefixIs(rest: seq<Byte>)
    requires |rest| < 24
    ensures var prefix := if |rest| > 4 then 4 else |rest|;
            rest[..prefix] == RecordMagic()[..prefix] <==> forall i :: 0 <= i < 4 && i < |rest| ==> rest[i] == RecordMagic()[i]
  {
    var prefix := if |rest| > 4 then 4 else |rest|;
    if rest[..prefix] == RecordMagic()[..prefix] {
      forall i | 0 <= i < 4 && i < |rest| ensures rest[i] == RecordMagic()[i] {
        assert rest[..prefix][i] == RecordMagic()[..prefix][i];
      }
    }
  }

  /** The reader's verdict in terms of what a writer writes, for any bytes. */
  lemma ReadingMeans(c: Codec, rest: seq<Byte>, number: nat)
    requires rest != []
    ensures ReadRecord(c, rest, number) == Torn <==> TornRest(c, rest, number)
    ensures forall payload :: ReadRecord(c, rest, number) == Whole(payload) <==> StartsWith(c, rest, number, payload)
  {
    TornMeans(c, rest, number);
    forall payload ensures ReadRecord(c, rest, number) == Whole(payload) <==> StartsWith(c, rest, number, payload) {
      WholeMeans(c, rest, number, payload);
    }
  }

  lemma TornMeans(c: Codec, rest: seq<Byte>, number: nat)
    requires rest != []
    ensures ReadRecord(c, rest, number) == Torn <==> TornRest(c, rest, number)
  {
    hide HasFollowing, StartsWith, Get;
    NothingFollows(c, rest, number);
    if |rest| < RECORD_HEADER {
      PrefixIs(rest);
    } else {
      var h := rest[..RECORD_HEADER];
      assert h[..4] == rest[..4] && h[4..8] == rest[4..8] && h[8..16] == rest[8..16] && h[20..24] == rest[20..24] && h[..20] == rest[..20];
    }
  }

  lemma WholeMeans(c: Codec, rest: seq<Byte>, number: nat, payload: seq<Byte>)
    ensures ReadRecord(c, rest, number) == Whole(payload) <==> StartsWith(c, rest, number, payload)
  {
    if StartsWith(c, rest, number, payload) {
      var f := Frame(c, number, payload);
      assert rest == f + rest[|f|..];
      WholeIsRead(c, number, payload, rest[|f|..]);
    }
    if ReadRecord(c, rest, number) == Whole(payload) {
      var h := rest[..RECORD_HEADER];
      HeaderIsFramed(c, h, payload);
      hide Get, HeaderIntact, FrameHeader, HasFollowing;
      assert Frame(c, number, payload) == rest[..RECORD_HEADER + |payload|];
    }
  }

  // ----- Whole logs -----

  predicate AllFramable(first: nat, payloads: seq<seq<Byte>>) {
    forall i :: 0 <= i < |payloads| ==> Framable(first + i, payloads[i])
  }

  /** Records numbered from `first` on, as the writer frames them. */
  function Framed(c: Codec, first: nat, payloads: seq<seq<Byte>>): seq<Byte>
    requires AllFramable(first, payloads)
    decreases |payloads|
  {
    if payloads == [] then []
    else
      assert forall i :: 0 <= i < |payloads[1..]| ==> payloads[1..][i] == payloads[i + 1] && Framable(first + (i + 1), payloads[i + 1]);
      Frame(c, first, payloads[0]) + Framed(c, first + 1, payloads[1..])
  }

  /** The payloads above `sequence` decode to events that are accepted in turn and lead to `end`. */
  ghost predicate Leads(c: Codec, disk: Disk, sequence: nat, first: nat, payloads: seq<seq<Byte>>, end: Disk, last: nat)
    decreases |payloads|
  {
    if payloads == [] then end == disk && last == sequence
    else if first <= sequence then Leads(c, disk, sequence, first + 1, payloads[1..], end, last)
    else
      var e := c.decode(payloads[0]);
      e.Some? && Valid(disk, e.value) && Leads(c, Apply(disk, e.value), first, first + 1, payloads[1..], end, last)
  }

  /** The rest of a log: whole records, then what a torn append can leave. */
  ghost predicate Anatomy(c: Codec, rest: seq<Byte>, first: nat, payloads: seq<seq<Byte>>, disk: Disk, sequence: nat, end: Disk, last: nat) {
    && AllFramable(first, payloads) && Framed(c, first, payloads) <= rest
    && TornRest(c, rest[|Framed(c, first, payloads)|..], first + |payloads|)
    && Leads(c, disk, sequence, first, payloads, end, last)
  }

  lemma FramedTail(c: Codec, first: nat, payloads: seq<seq<Byte>>)
    requires AllFramable(first, payloads) && payloads != []
    ensures Framable(first, payloads[0]) && AllFramable(first + 1, payloads[1..])
    ensures Framed(c, first, payloads) == Frame(c, first, payloads[0]) + Framed(c, first + 1, payloads[1..])
  {
    hide Pow, Frame;
    assert Framable(first + 0, payloads[0]);
    forall i | 0 <= i < |payloads[1..]| ensures Framable(first + 1 + i, payloads[1..][i]) {
      assert payloads[1..][i] == payloads[i + 1] && first + 1 + i == first + (i + 1);
    }
  }

  lemma FramedCons(c: Codec, first: nat, payload: seq<Byte>, more: seq<seq<Byte>>)
    requires Framable(first, payload) && AllFramable(first + 1, more)
    ensures AllFramable(first, [payload] + more)
    ensures Framed(c, first, [payload] + more) == Frame(c, first, payload) + Framed(c, first + 1, more)
  {
    hide Pow, Frame, Framed;
    var all := [payload] + more;
    forall i | 0 <= i < |all| ensures Framable(first + i, all[i]) {
      if i > 0 {
        assert all[i] == more[i - 1] && first + i == first + 1 + (i - 1);
      }
    }
    FramedTail(c, first, all);
    assert all[1..] == more;
  }

  /** Whatever opens is what a writer wrote, up to a rest that a torn append explains. */
  lemma {:induction false} OpenedIsWritten(c: Codec, rest: seq<Byte>, offset: nat, number: nat, disk: Disk, sequence: nat)
    requires ReplayRest(c, rest, offset, number, disk, sequence).Opened?
    ensures var r := ReplayRest(c, rest, offset, number, disk, sequence);
            exists payloads :: && AllFramable(number, payloads) && Anatomy(c, rest, number, payloads, disk, sequence, r.disk, r.sequence)
                               && r.size == offset + |Framed(c, number, payloads)|
    decreases |rest|
  {
    hide ReadRecord, TornRest, Valid, Apply, Frame, Framable;
    var r := ReplayRest(c, rest, offset, number, disk, sequence);
    if rest != [] {
      ReadingMeans(c, rest, number);
    }
    if rest == [] || ReadRecord(c, rest, number) == Torn {
      var none: seq<seq<Byte>> := [];
      NothingFramed(c, rest, number, disk, sequence);
      assert Anatomy(c, rest, number, none, disk, sequence, r.disk, r.sequence);
    } else {
      var payload := ReadRecord(c, rest, number).payload;
      OneMoreWritten(c, rest, offset, number, disk, sequence, payload);
    }
  }

  lemma NothingFramed(c: Codec, rest: seq<Byte>, number: nat, disk: Disk, sequence: nat)
    requires rest == [] || TornRest(c, rest, number)
    ensures Anatomy(c, rest, number, [], disk, sequence, disk, sequence) && Framed(c, number, []) == []
  {
    assert rest[0..] == rest;
  }

  lemma OneMoreWritten(c: Codec, rest: seq<Byte>, offset: nat, number: nat, disk: Disk, sequence: nat, payload: seq<Byte>)
    requires rest != [] && ReadRecord(c, rest, number) == Whole(payload) && StartsWith(c, rest, number, payload)
    requires ReplayRest(c, rest, offset, number, disk, sequence).Opened?
    ensures var r := ReplayRest(c, rest, offset, number, disk, sequence);
            exists payloads :: && AllFramable(number, payloads) && Anatomy(c, rest, number, payloads, disk, sequence, r.disk, r.sequence)
                               && r.size == offset + |Framed(c, number, payloads)|
    decreases |rest|, 0
  {
    hide ReadRecord, TornRest, Valid, Apply, Frame, Framable, Anatomy;
    var size := RECORD_HEADER + |payload|;
    var r := ReplayRest(c, rest, offset, number, disk, sequence);
    assert |Frame(c, number, payload)| == size && rest == Frame(c, number, payload) + rest[size..];
    if number <= sequence {
      OpenedIsWritten(c, rest[size..], offset + size, number + 1, disk, sequence);
      var more :| AllFramable(number + 1, more) && Anatomy(c, rest[size..], number + 1, more, disk, sequence, r.disk, r.sequence) && r.size == offset + size + |Framed(c, number + 1, more)|;
      AnatomyCons(c, rest, number, payload, more, disk, sequence, disk, sequence, r.disk, r.sequence);
    } else {
      var e := c.decode(payload).value;
      OpenedIsWritten(c, rest[size..], offset + size, number + 1, Apply(disk, e), number);
      var more :| AllFramable(number + 1, more) && Anatomy(c, rest[size..], number + 1, more, Apply(disk, e), number, r.disk, r.sequence) && r.size == offset + size + |Framed(c, number + 1, more)|;
      AnatomyCons(c, rest, number, payload, more, disk, sequence, Apply(disk, e), number, r.disk, r.sequence);
    }
  }

  lemma AnatomyCons(c: Codec, rest: seq<Byte>, number: nat, payload: seq<Byte>, more: seq<seq<Byte>>, disk: Disk, sequence: nat, next: Disk, after: nat, end: Disk, last: nat)
    requires StartsWith(c, rest, number, payload) && Anatomy(c, rest[RECORD_HEADER + |payload|..], number + 1, more, next, after, end, last)
    requires if number <= sequence then next == disk && after == sequence
             else after == number && c.decode(payload).Some? && Valid(disk, c.decode(payload).value) && next == Apply(disk, c.decode(payload).value)
    ensures Anatomy(c, rest, number, [payload] + more, disk, sequence, end, last)
    ensures |Framed(c, number, [payload] + more)| == RECORD_HEADER + |payload| + |Framed(c, number + 1, more)|
  {
    hide TornRest, Valid, Apply, Frame, Framable, Framed;
    var size := RECORD_HEADER + |payload|;
    FramedCons(c, number, payload, more);
    assert rest == Frame(c, number, payload) + rest[size..];
    var tail := rest[size..];
    assert rest[size + |Framed(c, number + 1, more)|..] == tail[|Framed(c, number + 1, more)|..];
    assert ([payload] + more)[1..] == more;
  }

  /** And whatever a writer wrote opens, with any rest that a torn append explains. */
  lemma {:induction false} WrittenOpens(c: Codec, rest: seq<Byte>, offset: nat, number: nat, payloads: seq<seq<Byte>>, disk: Disk, sequence: nat, end: Disk, last: nat)
    requires Anatomy(c, rest, number, payloads, disk, sequence, end, last)
    ensures ReplayRest(c, rest, offset, number, disk, sequence) == Opened(end, last, offset + |Framed(c, number, payloads)|)
    decreases |payloads|
  {
    hide ReadRecord, TornRest, Valid, Apply, Frame, Framable;
    if rest != [] {
      ReadingMeans(c, rest, number);
    }
    if payloads == [] {
      assert rest[0..] == rest;
    } else {
      FramedTail(c, number, payloads);
      var f, later := Frame(c, number, payloads[0]), Framed(c, number + 1, payloads[1..]);
      var size := |f|;
      assert (f + later)[..size] == f;
      assert StartsWith(c, rest, number, payloads[0]);
      assert rest[size..][|later|..] == rest[size + |later|..];
      assert later <= rest[size..];
      if number <= sequence {
        WrittenOpens(c, rest[size..], offset + size, number + 1, payloads[1..], disk, sequence, end, last);
      } else {
        WrittenOpens(c, rest[size..], offset + size, number + 1, payloads[1..], Apply(disk, c.decode(payloads[0]).value), number, end, last);
      }
    }
  }

  /** The file starts with a header that the writer wrote for this base. */
  predicate Headed(c: Codec, log: seq<Byte>, base: nat) {
    base < Pow(8) && FileHeader(c, base) <= log
  }

  lemma HeaderMeans(c: Codec, log: seq<Byte>, base: nat)
    ensures Headed(c, log, base) <==>
              HEADER <= |log| && log[..8] == FileMagic() && Get(log[16..HEADER]) == c.Sum(log[..16]) && Get(log[8..16]) == base
  {
    if Headed(c, log, base) {
      assert log == FileHeader(c, base) + log[HEADER..];
      FileHeaderIsRead(c, base, log[HEADER..]);
    }
    if HEADER <= |log| && log[..8] == FileMagic() && Get(log[16..HEADER]) == c.Sum(log[..16]) && Get(log[8..16]) == base {
      PutGet(log[8..16]);
      PutGet(log[16..HEADER]);
      assert log[..16] == log[..8] + log[8..16];
      assert log[..HEADER] == log[..16] + log[16..HEADER];
    }
  }

  /** The log is the header of an epoch, its records, and a rest that a torn append explains. */
  ghost predicate Written(c: Codec, log: seq<Byte>, base: nat, payloads: seq<seq<Byte>>, disk: Disk, sequence: nat, end: Disk, last: nat, size: nat) {
    && Headed(c, log, base) && base <= sequence && AllFramable(base + 1, payloads) && HEADER <= |log|
    && Anatomy(c, log[HEADER..], base + 1, payloads, disk, sequence, end, last)
    && size == HEADER + |Framed(c, base + 1, payloads)|
  }

  /**
   * A log opens to a state if and only if it is the header of an epoch that the checkpoint covers, the records of that
   * epoch exactly as they are written, and a rest that a torn append explains. The state is what the records above the
   * checkpoint make of it, and the log is kept up to the last whole record.
   */
  lemma OpensIff(c: Codec, log: seq<Byte>, disk: Disk, sequence: nat, end: Disk, last: nat, size: nat)
    ensures Replay(c, log, disk, sequence) == Opened(end, last, size) <==>
              exists base: nat, payloads :: Written(c, log, base, payloads, disk, sequence, end, last, size)
  {
    hide ReplayRest, Anatomy, FileHeader, Get, Framed, AllFramable, Headed;
    if Replay(c, log, disk, sequence) == Opened(end, last, size) {
      var base := Get(log[8..16]);
      HeaderMeans(c, log, base);
      OpenedIsWritten(c, log[HEADER..], HEADER, base + 1, disk, sequence);
      var payloads :| && AllFramable(base + 1, payloads) && Anatomy(c, log[HEADER..], base + 1, payloads, disk, sequence, end, last)
                      && size == HEADER + |Framed(c, base + 1, payloads)|;
      assert Written(c, log, base, payloads, disk, sequence, end, last, size);
    }
    if base: nat, payloads :| Written(c, log, base, payloads, disk, sequence, end, last, size) {
      HeaderMeans(c, log, base);
      WrittenOpens(c, log[HEADER..], HEADER, base + 1, payloads, disk, sequence, end, last);
    }
  }

  lemma AfterSlice(b: seq<Byte>, i: nat, j: nat)
    requires i + j <= |b|
    ensures b[i..][j..] == b[i + j..]
  {
  }

  lemma OwnNumber(c: Codec, rest: seq<Byte>, m: nat, payload: seq<Byte>)
    requires StartsWith(c, rest, m, payload)
    ensures 24 <= |rest| && Get(rest[8..16]) == m
  {
    FrameIsHeaded(c, rest, m, payload);
    assert rest[..RECORD_HEADER][8..16] == rest[8..16];
  }

  lemma TornIsIncomplete(c: Codec, rest: seq<Byte>, number: nat)
    requires rest != [] && TornRest(c, rest, number)
    ensures || |rest| < 24
            || (&& rest[..4] == RecordMagic() && Get(rest[20..24]) == c.Sum(rest[..20]) && |rest| < 24 + Get(rest[4..8])
                && forall i: nat, m: nat, payload :: i <= |rest| && Get(rest[8..16]) < m ==> !StartsWith(c, rest[i..], m, payload))
  {
    hide StartsWith, Get;
    if 24 <= |rest| {
      forall i: nat, m: nat, payload | i <= |rest| && Get(rest[8..16]) < m && StartsWith(c, rest[i..], m, payload) ensures 1 <= i {
        if i == 0 {
          assert rest[0..] == rest;
          OwnNumber(c, rest, m, payload);
        }
      }
    }
  }

  /**
   * Nothing complete is ever cut off. Where a log is cut when it opens, there are fewer bytes than a record header, or
   * fewer than the intact header there announces with no record of the writer behind it.
   */
  lemma NothingCompleteIsCut(c: Codec, log: seq<Byte>, disk: Disk, sequence: nat)
    requires Replay(c, log, disk, sequence).Opened? && Replay(c, log, disk, sequence).size < |log|
    ensures var rest := log[Replay(c, log, disk, sequence).size..];
            || |rest| < 24
            || (&& rest[..4] == RecordMagic() && Get(rest[20..24]) == c.Sum(rest[..20]) && |rest| < 24 + Get(rest[4..8])
                && forall i: nat, m: nat, payload :: i <= |rest| && Get(rest[8..16]) < m ==> !StartsWith(c, rest[i..], m, payload))
  {
    hide Replay, StartsWith, Get, TornRest, Written;
    var r := Replay(c, log, disk, sequence);
    OpensIff(c, log, disk, sequence, r.disk, r.sequence, r.size);
    var base: nat, payloads :| Written(c, log, base, payloads, disk, sequence, r.disk, r.sequence, r.size);
    RestIsTorn(c, log, base, payloads, disk, sequence, r.disk, r.sequence, r.size);
    TornIsIncomplete(c, log[r.size..], base + 1 + |payloads|);
  }

  lemma RestIsTorn(c: Codec, log: seq<Byte>, base: nat, payloads: seq<seq<Byte>>, disk: Disk, sequence: nat, end: Disk, last: nat, size: nat)
    requires Written(c, log, base, payloads, disk, sequence, end, last, size)
    ensures size <= |log| && TornRest(c, log[size..], base + 1 + |payloads|)
  {
    hide TornRest, Leads, Framed, Headed;
    AfterSlice(log, HEADER, |Framed(c, base + 1, payloads)|);
  }

  // ----- Opening and recovering -----

  /**
   * Files that open are sound, whoever wrote them: the checkpoint passes the check, the log is one that a writer wrote over
   * it, and the state that it leads to passes the check as well, so that it can be recovered.
   */
  lemma OpenedIsSound(c: Codec, terms: Terms, snap: WalFiles.Saved, log: seq<Byte>, ids: seq<Id>, now: int, l: Id)
    requires WalFiles.Open(c, snap, log).Opened?
    ensures var r := WalFiles.Open(c, snap, log);
            var d := snap.disk.(leases := WalFiles.AddMissing(snap.disk.leases, LeasesOf(snap.disk.config.rules)));
            && Snapshot(d) && Snapshot(r.disk)
            && (exists base: nat, payloads :: Written(c, log, base, payloads, d, snap.sequence, r.disk, r.sequence, r.size))
            && (Numbered(r.disk) && Lists(r.disk.windows, ids) && (forall id :: id in r.disk.windows ==> r.disk.windows[id].startedAt <= now)
                && Agrees(terms, r.disk.leases) && ConfigOk(terms, r.disk.config) && Ids(LeasesOf(r.disk.config.rules)) <= r.disk.leases.Keys
                ==> Restorable(r.disk, ids, now) && Inv(terms, Restored(r.disk, ids, now)))
  {
    var r := WalFiles.Open(c, snap, log);
    var d := snap.disk.(leases := WalFiles.AddMissing(snap.disk.leases, LeasesOf(snap.disk.config.rules)));
    hide Snapshot, Replay, Written, Restorable, Restored, Numbered, Lists, Agrees, ConfigOk, LeasesOf;
    OpensIff(c, log, d, snap.sequence, r.disk, r.sequence, r.size);
    if Numbered(r.disk) && Lists(r.disk.windows, ids) && (forall id :: id in r.disk.windows ==> r.disk.windows[id].startedAt <= now)
       && Agrees(terms, r.disk.leases) && ConfigOk(terms, r.disk.config) && Ids(LeasesOf(r.disk.config.rules)) <= r.disk.leases.Keys {
      SnapshotIsEnough(terms, r.disk, ids, now, l);
    }
  }
}
