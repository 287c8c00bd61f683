/**
 * The log on disk: a header naming the sequence number that it starts after, then framed records. A reader that
 * finds a torn record at the end keeps everything before it; any other damage is an error.
 */
module WalFormat {
  import opened AgentTypes
  import opened AgentState
  import opened Bytes

  const HEADER: nat := 20
  const RECORD_HEADER: nat := 24
  const MAX_RECORD: nat := 4_194_304
  const RECOVERY_BOUND: nat := 12_582_912

  /** "TFPWAL02" and "EV01". */
  function FileMagic(): seq<Byte> { [84, 70, 80, 87, 65, 76, 48, 50] }
  function RecordMagic(): seq<Byte> { [69, 86, 48, 49] }

  /** The serialisation of events and the checksum are parameters. */
  datatype Codec = Codec(encode: Event -> seq<Byte>, decode: seq<Byte> -> Option<Event>, crc: seq<Byte> -> nat)
  {
    function Sum(b: seq<Byte>): (n: nat)
      ensures n < Pow(4)
    {
      crc(b) % Pow(4)
    }

    ghost predicate Faithful() {
      forall e :: decode(encode(e)) == Some(e) && encode(e) != []
    }
  }

  function FileHeader(c: Codec, base: nat): (b: seq<Byte>)
    requires base < Pow(8)
    ensures |b| == HEADER
  {
    var h := FileMagic() + Put(base, 8);
    h + Put(c.Sum(h), 4)
  }

  function RecordHead(n: nat, number: nat): (b: seq<Byte>)
    requires n < Pow(4) && number < Pow(8)
    ensures |b| == 16
  {
    RecordMagic() + Put(n, 4) + Put(number, 8)
  }

  predicate Framable(number: nat, payload: seq<Byte>) {
    0 < |payload| <= MAX_RECORD && |payload| < Pow(4) && number < Pow(8)
  }

  function FrameHeader(c: Codec, number: nat, payload: seq<Byte>): (b: seq<Byte>)
    requires |payload| < Pow(4) && number < Pow(8)
    ensures |b| == RECORD_HEADER
  {
    var h := RecordHead(|payload|, number);
    var checked := h + Put(c.Sum(h + payload), 4);
    checked + Put(c.Sum(checked), 4)
  }

  function Frame(c: Codec, number: nat, payload: seq<Byte>): (b: seq<Byte>)
    requires Framable(number, payload)
    ensures |b| == RECORD_HEADER + |payload|
  {
    FrameHeader(c, number, payload) + payload
  }

  // ----- Reading one record -----

  /** The fields of a complete record header. */
  predicate HeaderIntact(c: Codec, h: seq<Byte>)
    requires |h| == RECORD_HEADER
  {
    h[..4] == RecordMagic() && Get(h[20..24]) == c.Sum(h[..20])
  }

  /** A complete, intact record starts at `i` and is numbered above `number`. */
  predicate RecordAt(c: Codec, b: seq<Byte>, i: nat, number: nat)
    requires i + RECORD_HEADER <= |b|
  {
    var h := b[i..i + RECORD_HEADER];
    && HeaderIntact(c, h)
    && var n := Get(h[4..8]);
       && 0 < n <= MAX_RECORD && n <= |b| - i - RECORD_HEADER && Get(h[8..16]) > number
       && c.Sum(h[..16] + b[i + RECORD_HEADER..i + RECORD_HEADER + n]) == Get(h[16..20])
  }

  ghost predicate HasFollowing(c: Codec, b: seq<Byte>, number: nat) {
    exists i: nat :: i + RECORD_HEADER <= |b| && RecordAt(c, b, i, number)
  }

  datatype Reading = Corrupt | Torn | Whole(payload: seq<Byte>)

  /** What a reader that expects record `number` makes of the rest of the log. */
  ghost function ReadRecord(c: Codec, rest: seq<Byte>, number: nat): (r: Reading)
    ensures r.Whole? ==> 0 < |r.payload| && RECORD_HEADER + |r.payload| <= |rest|
  {
    if |rest| < RECORD_HEADER then
      var prefix := if |rest| > 4 then 4 else |rest|;
      if rest[..prefix] == RecordMagic()[..prefix] then Torn else Corrupt
    else
      var h := rest[..RECORD_HEADER];
      var n := Get(h[4..8]);
      if !HeaderIntact(c, h) || n == 0 || n > MAX_RECORD || Get(h[8..16]) != number then Corrupt
      else if n > |rest| - RECORD_HEADER then
        if |rest| - 1 > RECOVERY_BOUND || HasFollowing(c, rest[1..], number) then Corrupt else Torn
      else
        var payload := rest[RECORD_HEADER..RECORD_HEADER + n];
        if c.Sum(h[..16] + payload) != Get(h[16..20]) then Corrupt else Whole(payload)
  }

  // ----- Replaying a log -----

  datatype Opened = Failed | Opened(disk: Disk, sequence: nat, size: nat)

  /**
   * Replay the rest of a log that starts at `offset`. Records above `sequence` are applied; older ones are already
   * part of the state.
   */
  ghost function ReplayRest(c: Codec, rest: seq<Byte>, offset: nat, number: nat, disk: Disk, sequence: nat): Opened
    decreases |rest|
  {
    if rest == [] then Opened(disk, sequence, offset)
    else
      match ReadRecord(c, rest, number)
      case Corrupt => Failed
      case Torn => Opened(disk, sequence, offset)
      case Whole(payload) =>
        var size := RECORD_HEADER + |payload|;
        if number <= sequence then ReplayRest(c, rest[size..], offset + size, number + 1, disk, sequence)
        else
          var e := c.decode(payload);
          if e.None? || !Valid(disk, e.value) then Failed
          else ReplayRest(c, rest[size..], offset + size, number + 1, Apply(disk, e.value), number)
  }

  ghost function Replay(c: Codec, log: seq<Byte>, disk: Disk, sequence: nat): Opened {
    if |log| < HEADER || log[..8] != FileMagic() || Get(log[16..HEADER]) != c.Sum(log[..16]) || Get(log[8..16]) > sequence
    then Failed
    else ReplayRest(c, log[HEADER..], HEADER, Get(log[8..16]) + 1, disk, sequence)
  }

  // ----- Writing and reading agree -----

  lemma HeaderFields(c: Codec, number: nat, payload: seq<Byte>)
    requires |payload| < Pow(4) && number < Pow(8)
    ensures var h := FrameHeader(c, number, payload);
            && HeaderIntact(c, h) && Get(h[4..8]) == |payload| && Get(h[8..16]) == number
            && Get(h[16..20]) == c.Sum(h[..16] + payload)
  {
    var h := FrameHeader(c, number, payload);
    var head := RecordHead(|payload|, number);
    var checked := head + Put(c.Sum(head + payload), 4);
    assert h[..16] == head && h[..20] == checked;
    assert h[..4] == RecordMagic();
    assert h[4..8] == Put(|payload|, 4) && h[8..16] == Put(number, 8);
    assert h[16..20] == Put(c.Sum(head + payload), 4) && h[20..24] == Put(c.Sum(checked), 4);
    GetPut(|payload|, 4);
    GetPut(number, 8);
    GetPut(c.Sum(head + payload), 4);
    GetPut(c.Sum(checked), 4);
  }

  /** A record that was written completely is read back, whatever follows it. */
  lemma WholeIsRead(c: Codec, number: nat, payload: seq<Byte>, more: seq<Byte>)
    requires Framable(number, payload)
    ensures ReadRecord(c, Frame(c, number, payload) + more, number) == Whole(payload)
  {
    var rest := Frame(c, number, payload) + more;
    HeaderFields(c, number, payload);
    assert rest[..RECORD_HEADER] == FrameHeader(c, number, payload);
    assert rest[RECORD_HEADER..RECORD_HEADER + |payload|] == payload;
    hide FrameHeader, HeaderIntact;
  }

  /** No cut of this record looks like a later record from the inside. */
  ghost predicate NoInteriorRecord(c: Codec, number: nat, payload: seq<Byte>)
    requires Framable(number, payload)
  {
    forall k :: 1 <= k < RECORD_HEADER + |payload| ==> !HasFollowing(c, Frame(c, number, payload)[1..k], number)
  }

  /** A record cut anywhere is recognised as torn, never as damage. */
  lemma CutIsTorn(c: Codec, number: nat, payload: seq<Byte>, k: nat)
    requires Framable(number, payload) && 0 < k < RECORD_HEADER + |payload|
    requires NoInteriorRecord(c, number, payload)
    ensures ReadRecord(c, Frame(c, number, payload)[..k], number) == Torn
  {
    var rest := Frame(c, number, payload)[..k];
    HeaderFields(c, number, payload);
    if k < RECORD_HEADER {
      MagicFirst(c, number, payload);
      var prefix := if k > 4 then 4 else k;
      assert rest[..prefix] == Frame(c, number, payload)[..4][..prefix];
    } else {
      assert rest[..RECORD_HEADER] == FrameHeader(c, number, payload);
      assert rest[1..] == Frame(c, number, payload)[1..k];
    }
  }

  lemma MagicFirst(c: Codec, number: nat, payload: seq<Byte>)
    requires Framable(number, payload)
    ensures Frame(c, number, payload)[..4] == RecordMagic()
  {
    HeaderFields(c, number, payload);
    assert Frame(c, number, payload)[..4] == FrameHeader(c, number, payload)[..4];
  }

  lemma FileHeaderIsRead(c: Codec, base: nat, more: seq<Byte>)
    requires base < Pow(8)
    ensures var log := FileHeader(c, base) + more;
            log[..8] == FileMagic() && Get(log[16..HEADER]) == c.Sum(log[..16]) && Get(log[8..16]) == base
  {
    var log := FileHeader(c, base) + more;
    var h := FileMagic() + Put(base, 8);
    assert log[..16] == h && log[8..16] == Put(base, 8) && log[16..HEADER] == Put(c.Sum(h), 4);
    GetPut(base, 8);
    GetPut(c.Sum(h), 4);
  }

  // ----- Whole logs -----

  /** Every event has a payload that fits a record, and the numbers do not run out. */
  ghost predicate Writable(c: Codec, first: nat, events: seq<Event>) {
    forall i :: 0 <= i < |events| ==> Framable(first + i, c.encode(events[i]))
  }

  ghost function Frames(c: Codec, first: nat, events: seq<Event>): seq<Byte>
    requires Writable(c, first, events)
    decreases |events|
  {
    if events == [] then []
    else
      assert forall i :: 0 <= i < |events[1..]| ==> events[1..][i] == events[i + 1];
      Frame(c, first, c.encode(events[0])) + Frames(c, first + 1, events[1..])
  }

  lemma WritableTail(c: Codec, first: nat, events: seq<Event>)
    requires Writable(c, first, events) && events != []
    ensures Framable(first, c.encode(events[0])) && Writable(c, first + 1, events[1..])
    ensures Frames(c, first, events) == Frame(c, first, c.encode(events[0])) + Frames(c, first + 1, events[1..])
  {
    hide Pow, NoInteriorRecord, Frame;
    assert events[0] == events[0 + 0] && Framable(first + 0, c.encode(events[0]));
    forall i | 0 <= i < |events[1..]| ensures Framable(first + 1 + i, c.encode(events[1..][i])) {
      assert events[1..][i] == events[i + 1] && first + 1 + i == first + (i + 1);
    }
  }

  /** How many records are complete within the first `k` bytes. */
  ghost function Complete(c: Codec, first: nat, events: seq<Event>, k: nat): (m: nat)
    requires Writable(c, first, events)
    ensures m <= |events|
    decreases |events|
  {
    if events == [] then 0
    else
      WritableTail(c, first, events);
      var size := RECORD_HEADER + |c.encode(events[0])|;
      if k < size then 0 else 1 + Complete(c, first + 1, events[1..], k - size)
  }

  /** If the log ends inside a record, that record holds no other record. */
  ghost predicate CleanCut(c: Codec, first: nat, events: seq<Event>, k: nat)
    requires Writable(c, first, events)
  {
    var m := Complete(c, first, events, k);
    m < |events| ==> NoInteriorRecord(c, first + m, c.encode(events[m]))
  }

  /** The effect of the records above `sequence`. */
  ghost function CatchUp(disk: Disk, sequence: nat, first: nat, events: seq<Event>): Disk
    decreases |events|
  {
    if events == [] then disk
    else if first <= sequence then CatchUp(disk, sequence, first + 1, events[1..])
    else CatchUp(Apply(disk, events[0]), first, first + 1, events[1..])
  }

  ghost predicate CanCatchUp(disk: Disk, sequence: nat, first: nat, events: seq<Event>)
    decreases |events|
  {
    events == []
    || (if first <= sequence then CanCatchUp(disk, sequence, first + 1, events[1..])
        else Valid(disk, events[0]) && CanCatchUp(Apply(disk, events[0]), first, first + 1, events[1..]))
  }

  function Later(a: nat, b: nat): nat {
    if a < b then b else a
  }

  lemma WholeReplays(c: Codec, e: Event, more: seq<Byte>, offset: nat, number: nat, disk: Disk, sequence: nat)
    requires c.Faithful() && Framable(number, c.encode(e)) && (number > sequence ==> Valid(disk, e))
    ensures var frame := Frame(c, number, c.encode(e));
            ReplayRest(c, frame + more, offset, number, disk, sequence)
            == if number <= sequence then ReplayRest(c, more, offset + |frame|, number + 1, disk, sequence)
               else ReplayRest(c, more, offset + |frame|, number + 1, Apply(disk, e), number)
  {
    hide Valid, Apply, Frame, ReadRecord;
    var frame := Frame(c, number, c.encode(e));
    WholeIsRead(c, number, c.encode(e), more);
    assert (frame + more)[|frame|..] == more;
  }

  lemma TornReplays(c: Codec, e: Event, k: nat, offset: nat, number: nat, disk: Disk, sequence: nat)
    requires Framable(number, c.encode(e)) && NoInteriorRecord(c, number, c.encode(e)) && k < |Frame(c, number, c.encode(e))|
    ensures ReplayRest(c, Frame(c, number, c.encode(e))[..k], offset, number, disk, sequence) == Opened(disk, sequence, offset)
  {
    hide Valid, Apply, Frame, ReadRecord, NoInteriorRecord;
    if k > 0 {
      CutIsTorn(c, number, c.encode(e), k);
    }
  }

  lemma WritablePrefix(c: Codec, first: nat, events: seq<Event>, m: nat)
    requires Writable(c, first, events) && m <= |events|
    ensures Writable(c, first, events[..m])
  {
    forall i | 0 <= i < m ensures Framable(first + i, c.encode(events[..m][i])) {
      assert events[..m][i] == events[i];
    }
  }

  /** The replay of a log, cut after `k` bytes, keeps exactly its complete records. */
  ghost predicate Replays(c: Codec, offset: nat, first: nat, events: seq<Event>, k: nat, disk: Disk, sequence: nat)
    requires Writable(c, first, events) && k <= |Frames(c, first, events)| && 0 < first
  {
    var m := Complete(c, first, events, k);
    WritablePrefix(c, first, events, m);
    ReplayRest(c, Frames(c, first, events)[..k], offset, first, disk, sequence)
    == Opened(CatchUp(disk, sequence, first, events[..m]), Later(sequence, first + m - 1),
              offset + |Frames(c, first, events[..m])|)
  }

  lemma ReplaysWhole(c: Codec, offset: nat, first: nat, events: seq<Event>, k: nat, disk: Disk, sequence: nat)
    requires c.Faithful() && Writable(c, first, events) && events != [] && 0 < first <= sequence + 1
    requires Writable(c, first + 1, events[1..]) && Framable(first, c.encode(events[0]))
    requires k <= |Frames(c, first, events)| && (first > sequence ==> Valid(disk, events[0]))
    ensures var size := |Frame(c, first, c.encode(events[0]))|;
            k >= size ==>
              && k - size <= |Frames(c, first + 1, events[1..])|
              && (if first <= sequence then Replays(c, offset + size, first + 1, events[1..], k - size, disk, sequence)
                  else Replays(c, offset + size, first + 1, events[1..], k - size, Apply(disk, events[0]), first))
              ==> Replays(c, offset, first, events, k, disk, sequence)
  {
    hide Frame, Valid, Apply, ReplayRest, Framable, Writable;
    WritableTail(c, first, events);
    var frame, later := Frame(c, first, c.encode(events[0])), Frames(c, first + 1, events[1..]);
    if k >= |frame| {
      var m := Complete(c, first, events, k);
      WritablePrefix(c, first, events, m);
      WritablePrefix(c, first + 1, events[1..], m - 1);
      assert events[..m][1..] == events[1..][..m - 1] && events[..m][0] == events[0];
      assert (frame + later)[..k] == frame + later[..k - |frame|];
      WholeReplays(c, events[0], later[..k - |frame|], offset, first, disk, sequence);
      WritableTail(c, first, events[..m]);
    }
  }

  lemma ReplaysTorn(c: Codec, offset: nat, first: nat, events: seq<Event>, k: nat, disk: Disk, sequence: nat)
    requires Writable(c, first, events) && CleanCut(c, first, events, k) && events != [] && 0 < first <= sequence + 1
    requires Framable(first, c.encode(events[0])) && k <= |Frames(c, first, events)|
    requires k < |Frame(c, first, c.encode(events[0]))|
    ensures Replays(c, offset, first, events, k, disk, sequence)
  {
    hide Frame, ReplayRest, NoInteriorRecord;
    WritableTail(c, first, events);
    var frame, later := Frame(c, first, c.encode(events[0])), Frames(c, first + 1, events[1..]);
    assert (frame + later)[..k] == frame[..k];
    TornReplays(c, events[0], k, offset, first, disk, sequence);
    assert events[..0] == [];
  }

  /**
   * A log that was cut anywhere replays exactly its complete records, in order, and is trimmed to them. Nothing
   * about the checksum is assumed except that no torn record contains another record.
   */
  lemma {:induction false} CutLogReplays(c: Codec, offset: nat, first: nat, events: seq<Event>, k: nat, disk: Disk, sequence: nat)
    requires c.Faithful() && Writable(c, first, events) && CleanCut(c, first, events, k)
    requires k <= |Frames(c, first, events)| && CanCatchUp(disk, sequence, first, events) && 0 < first <= sequence + 1
    ensures Replays(c, offset, first, events, k, disk, sequence)
    decreases |events|
  {
    hide *;
    if events == [] {
      ReplaysNone(c, offset, first, k, disk, sequence);
    } else {
      WritableTail(c, first, events);
      CatchUpTail(disk, sequence, first, events);
      var size := |Frame(c, first, c.encode(events[0]))|;
      if k < size {
        ReplaysTorn(c, offset, first, events, k, disk, sequence);
      } else {
        ReplaysWhole(c, offset, first, events, k, disk, sequence);
        CleanCutTail(c, first, events, k);
        if first <= sequence {
          CutLogReplays(c, offset + size, first + 1, events[1..], k - size, disk, sequence);
        } else {
          CutLogReplays(c, offset + size, first + 1, events[1..], k - size, Apply(disk, events[0]), first);
        }
      }
    }
  }

  lemma CleanCutTail(c: Codec, first: nat, events: seq<Event>, k: nat)
    requires Writable(c, first, events) && CleanCut(c, first, events, k) && events != []
    requires Framable(first, c.encode(events[0])) && k >= |Frame(c, first, c.encode(events[0]))|
    ensures Writable(c, first + 1, events[1..]) && CleanCut(c, first + 1, events[1..], k - |Frame(c, first, c.encode(events[0]))|)
  {
    hide NoInteriorRecord, Frames;
    WritableTail(c, first, events);
  }

  lemma ReplaysNone(c: Codec, offset: nat, first: nat, k: nat, disk: Disk, sequence: nat)
    requires Writable(c, first, []) && k <= |Frames(c, first, [])| && 0 < first <= sequence + 1
    ensures Replays(c, offset, first, [], k, disk, sequence)
  {
    assert Frames(c, first, [])[..k] == [];
  }

  lemma CatchUpTail(disk: Disk, sequence: nat, first: nat, events: seq<Event>)
    requires CanCatchUp(disk, sequence, first, events) && events != []
    ensures if first <= sequence then CanCatchUp(disk, sequence, first + 1, events[1..])
            else Valid(disk, events[0]) && CanCatchUp(Apply(disk, events[0]), first, first + 1, events[1..])
  {
    hide Valid, Apply;
  }

  // ----- Appending -----

  lemma WritableAppend(c: Codec, first: nat, a: seq<Event>, b: seq<Event>)
    requires Writable(c, first, a) && Writable(c, first + |a|, b)
    ensures Writable(c, first, a + b)
  {
    forall i | 0 <= i < |a + b| ensures Framable(first + i, c.encode((a + b)[i])) {
      if i >= |a| {
        assert (a + b)[i] == b[i - |a|] && first + i == first + |a| + (i - |a|);
      }
    }
  }

  lemma {:induction false} FramesAppend(c: Codec, first: nat, a: seq<Event>, b: seq<Event>)
    requires Writable(c, first, a) && Writable(c, first + |a|, b) && Writable(c, first, a + b)
    ensures Frames(c, first, a + b) == Frames(c, first, a) + Frames(c, first + |a|, b)
    decreases |a|
  {
    hide *;
    if a == [] {
      assert a + b == b;
      NoFrames(c, first);
    } else {
      WritableTail(c, first, a);
      WritableTail(c, first, a + b);
      assert (a + b)[1..] == a[1..] + b && (a + b)[0] == a[0];
      FramesAppend(c, first + 1, a[1..], b);
      Regroup(Frame(c, first, c.encode(a[0])), Frames(c, first + 1, a[1..]), Frames(c, first + |a|, b));
    }
  }

  lemma NoFrames(c: Codec, first: nat)
    requires Writable(c, first, [])
    ensures Frames(c, first, []) == []
  {
  }

  lemma Regroup(a: seq<Byte>, b: seq<Byte>, c: seq<Byte>)
    ensures a + (b + c) == a + b + c
  {
  }

  lemma CompleteTail(c: Codec, first: nat, events: seq<Event>, k: nat)
    requires Writable(c, first, events) && events != [] && Writable(c, first + 1, events[1..])
    requires Framable(first, c.encode(events[0]))
    ensures var size := |Frame(c, first, c.encode(events[0]))|;
            k >= size ==> Complete(c, first, events, k) == 1 + Complete(c, first + 1, events[1..], k - size)
  {
    hide Framable, Writable;
  }

  /** How many records of a longer log a cut leaves. */
  lemma {:induction false} CompleteAppend(c: Codec, first: nat, a: seq<Event>, b: seq<Event>, k: nat)
    requires Writable(c, first, a) && Writable(c, first + |a|, b) && Writable(c, first, a + b)
    ensures Complete(c, first, a + b, |Frames(c, first, a)| + k) == |a| + Complete(c, first + |a|, b, k)
    decreases |a|
  {
    hide *;
    if a == [] {
      assert a + b == b;
      NoFrames(c, first);
    } else {
      WritableTail(c, first, a);
      WritableTail(c, first, a + b);
      assert (a + b)[1..] == a[1..] + b && (a + b)[0] == a[0];
      CompleteTail(c, first, a + b, |Frames(c, first, a)| + k);
      CompleteAppend(c, first + 1, a[1..], b, k);
    }
  }

  lemma {:induction false} CatchUpAppend(disk: Disk, sequence: nat, first: nat, a: seq<Event>, b: seq<Event>)
    requires CanCatchUp(disk, sequence, first, a) && sequence < first + |a|
    requires AllValid(CatchUp(disk, sequence, first, a), b)
    ensures CanCatchUp(disk, sequence, first, a + b)
    ensures CatchUp(disk, sequence, first, a + b) == ApplyAll(CatchUp(disk, sequence, first, a), b)
    decreases |a| + |b|
  {
    hide Apply, Valid;
    if a == [] {
      assert a + b == b;
      if b != [] {
        CatchUpAppend(Apply(disk, b[0]), first, first + 1, [], b[1..]);
        assert [] + b[1..] == b[1..];
      }
    } else {
      assert (a + b)[1..] == a[1..] + b;
      CatchUpTail(disk, sequence, first, a);
      if first <= sequence {
        CatchUpAppend(disk, sequence, first + 1, a[1..], b);
      } else {
        CatchUpAppend(Apply(disk, a[0]), first, first + 1, a[1..], b);
      }
    }
  }

  /** The complete records are a prefix of what the cut leaves. */
  lemma {:induction false} CompleteFits(c: Codec, first: nat, events: seq<Event>, k: nat)
    requires Writable(c, first, events) && k <= |Frames(c, first, events)|
    ensures var m := Complete(c, first, events, k);
            && Writable(c, first, events[..m])
            && |Frames(c, first, events[..m])| <= k && Frames(c, first, events[..m]) <= Frames(c, first, events)
    decreases |events|
  {
    hide Frames, Framable, Writable, Frame;
    var m := Complete(c, first, events, k);
    WritablePrefix(c, first, events, m);
    if m == 0 {
      assert events[..m] == [];
      NoFrames(c, first);
    } else {
      WritableTail(c, first, events);
      WritableTail(c, first, events[..m]);
      assert events[..m][1..] == events[1..][..m - 1];
      CompleteFits(c, first + 1, events[1..], k - (RECORD_HEADER + |c.encode(events[0])|));
    }
  }
}
