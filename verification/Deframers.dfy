/** The incremental deframers of the encoder worker: RFC 4571 packets and newline-terminated lines. */
module Deframers {
  import opened Basics

  const MIN_PACKET: nat := 12
  const MAX_PACKET: nat := 1500
  const MAX_LINE: nat := 8192
  const NEWLINE: Byte := 0x0a

  type Bytes = seq<Byte>

  /** What was delivered, what stays buffered, and whether the framing failed. */
  datatype Split = Split(items: seq<Bytes>, rest: Bytes, bad: bool)

  function Concat(chunks: seq<Bytes>): Bytes {
    if chunks == [] then [] else chunks[0] + Concat(chunks[1..])
  }

  // ---- RFC 4571 packets ----

  predicate InRange(length: nat) {
    MIN_PACKET <= length <= MAX_PACKET
  }

  /** A whole packet in range stands at the front. */
  predicate Complete(bytes: Bytes) {
    |bytes| >= 2 && InRange(ReadU16(bytes, 0)) && |bytes| >= 2 + ReadU16(bytes, 0)
  }

  predicate Broken(bytes: Bytes) {
    |bytes| >= 2 && !InRange(ReadU16(bytes, 0))
  }

  function First(bytes: Bytes): (packet: Bytes)
    requires Complete(bytes)
  {
    bytes[2..2 + ReadU16(bytes, 0)]
  }

  function After(bytes: Bytes): (rest: Bytes)
    requires Complete(bytes)
    ensures |rest| < |bytes|
  {
    bytes[2 + ReadU16(bytes, 0)..]
  }

  /** All the complete packets at the front of the buffered bytes. */
  function Packets(bytes: Bytes): Split
    decreases |bytes|
  {
    if !Complete(bytes) then Split([], bytes, Broken(bytes))
    else
      var more := Packets(After(bytes));
      Split([First(bytes)] + more.items, more.rest, more.bad)
  }

  /** Feeding the chunks one by one; a failure at any chunk counts. */
  function FeedPackets(pending: Bytes, chunks: seq<Bytes>): Split
    decreases |chunks|
  {
    if chunks == [] then Split([], pending, false)
    else
      var first := Packets(pending + chunks[0]);
      var more := FeedPackets(first.rest, chunks[1..]);
      Split(first.items + more.items, more.rest, first.bad || more.bad)
  }

  /** What is parsed first does not depend on what follows it. */
  lemma HeadAppend(a: Bytes, b: Bytes)
    ensures Broken(a) ==> Broken(a + b)
    ensures Complete(a) ==> Complete(a + b) && First(a + b) == First(a) && After(a + b) == After(a) + b
  {}

  lemma {:induction false} PacketsAppend(a: Bytes, b: Bytes)
    ensures var s := Packets(a);
            var t := Packets(s.rest + b);
            Packets(a + b) == Split(s.items + t.items, t.rest, t.bad) && (s.bad ==> t == Split([], s.rest + b, true))
    decreases |a|
  {
    HeadAppend(a, b);
    if Complete(a) {
      var more := Packets(After(a));
      PacketsAppend(After(a), b);
      var t := Packets(more.rest + b);
      assert [First(a)] + more.items + t.items == [First(a)] + (more.items + t.items);
    }
  }

  lemma {:induction false} FeedFrom(pending: Bytes, chunks: seq<Bytes>)
    requires chunks != []
    ensures FeedPackets(pending, chunks) == Packets(pending + Concat(chunks))
    decreases |chunks|
  {
    var arrived := pending + chunks[0];
    var first := Packets(arrived);
    PacketsAppend(arrived, Concat(chunks[1..]));
    assert arrived + Concat(chunks[1..]) == pending + Concat(chunks);
    if |chunks| == 1 {
      assert chunks[1..] == [] && arrived + [] == arrived;
    } else {
      FeedFrom(first.rest, chunks[1..]);
    }
  }

  /** Any two ways of cutting the same bytes deliver the same packets, keep the same bytes and agree on failure. */
  lemma PacketsIgnoreChunks(chunks: seq<Bytes>, others: seq<Bytes>)
    requires Concat(chunks) == Concat(others)
    ensures FeedPackets([], chunks) == FeedPackets([], others) == Packets(Concat(chunks))
  {
    if chunks != [] { FeedFrom([], chunks); assert [] + Concat(chunks) == Concat(chunks); }
    if others != [] { FeedFrom([], others); assert [] + Concat(others) == Concat(others); }
  }

  predicate AllInRange(packets: seq<Bytes>) {
    forall i :: 0 <= i < |packets| ==> InRange(|packets[i]|)
  }

  /** The RFC 4571 writer: each packet behind its length. */
  function Frame(packets: seq<Bytes>): Bytes
    requires AllInRange(packets)
  {
    if packets == [] then [] else U16Bytes(|packets[0]|) + packets[0] + Frame(packets[1..])
  }

  lemma FramedHead(packet: Bytes, tail: Bytes)
    requires InRange(|packet|)
    ensures var bytes := U16Bytes(|packet|) + packet + tail;
            Complete(bytes) && First(bytes) == packet && After(bytes) == tail
  {
    var head := U16Bytes(|packet|);
    var bytes := head + packet + tail;
    assert bytes[0] == head[0] && bytes[1] == head[1];
    assert ReadU16(bytes, 0) == ReadU16(head, 0) == |packet|;
  }

  lemma PacketsHead(packet: Bytes, tail: Bytes)
    requires InRange(|packet|)
    ensures var after := Packets(tail);
            Packets(U16Bytes(|packet|) + packet + tail) == Split([packet] + after.items, after.rest, after.bad)
  {
    FramedHead(packet, tail);
  }

  /** Framings of packets in range are read back exactly, in front of whatever follows. */
  lemma {:induction false} FramesReadBack(packets: seq<Bytes>, tail: Bytes)
    requires AllInRange(packets)
    ensures var after := Packets(tail);
            Packets(Frame(packets) + tail) == Split(packets + after.items, after.rest, after.bad)
    decreases |packets|
  {
    if packets == [] {
      assert [] + tail == tail;
      assert [] + Packets(tail).items == Packets(tail).items;
    } else {
      var more := Frame(packets[1..]) + tail;
      Associative(U16Bytes(|packets[0]|) + packets[0], Frame(packets[1..]), tail);
      PacketsHead(packets[0], more);
      FramesReadBack(packets[1..], tail);
      Associative([packets[0]], packets[1..], Packets(tail).items);
      assert [packets[0]] + packets[1..] == packets;
    }
  }

  lemma SplitHead(bytes: Bytes)
    requires Complete(bytes)
    ensures InRange(|First(bytes)|) && bytes == U16Bytes(|First(bytes)|) + First(bytes) + After(bytes)
  {
    var length := ReadU16(bytes, 0);
    assert U16Bytes(length) == bytes[..2];
  }

  /** Nothing is lost or invented: the delivered packets and the buffered rest are the bytes received. */
  lemma {:induction false} PacketsConserve(bytes: Bytes)
    ensures var s := Packets(bytes);
            && AllInRange(s.items)
            && Frame(s.items) + s.rest == bytes
            && (!s.bad ==> |s.rest| <= MAX_PACKET + 1)
            && (s.bad <==> Broken(s.rest))
    decreases |bytes|
  {
    if Complete(bytes) {
      var more := Packets(After(bytes));
      PacketsConserve(After(bytes));
      SplitHead(bytes);
      FrameOneMore(First(bytes), more.items);
      Associative(U16Bytes(|First(bytes)|) + First(bytes), Frame(more.items), more.rest);
    } else {
      assert [] + bytes == bytes;
    }
  }

  lemma FrameOneMore(packet: Bytes, packets: seq<Bytes>)
    requires InRange(|packet|) && AllInRange(packets)
    ensures AllInRange([packet] + packets)
    ensures Frame([packet] + packets) == U16Bytes(|packet|) + packet + Frame(packets)
  {
    assert ([packet] + packets)[1..] == packets;
  }

  /** The packet deframer: `pending` is consumed packet by packet as chunks arrive. */
  class PacketReader {
    var pending: Bytes

    constructor ()
      ensures pending == []
    {
      pending := [];
    }

    method Feed(chunk: Bytes) returns (packets: seq<Bytes>, failed: bool)
      modifies this
      ensures Split(packets, pending, failed) == Packets(old(pending) + chunk)
    {
      hide ReadU16;
      pending := pending + chunk;
      packets := [];
      ghost var all := Packets(pending);
      while true
        invariant all == Split(packets + Packets(pending).items, Packets(pending).rest, Packets(pending).bad)
        decreases |pending|
      {
        if |pending| < 2 { return packets, false; }
        var length := ReadU16(pending, 0);
        if length < MIN_PACKET || length > MAX_PACKET { return packets, true; }
        if |pending| < 2 + length { return packets, false; }
        packets := packets + [pending[2..2 + length]];
        pending := pending[2 + length..];
      }
    }
  }

  // ---- Newline-terminated lines ----

  function IndexOf(bytes: Bytes): (end: Option<nat>)
    ensures end.Some? ==> end.value < |bytes| && bytes[end.value] == NEWLINE
    ensures end.Some? ==> forall i :: 0 <= i < end.value ==> bytes[i] != NEWLINE
    ensures end.None? ==> forall i :: 0 <= i < |bytes| ==> bytes[i] != NEWLINE
  {
    if bytes == [] then None
    else if bytes[0] == NEWLINE then Some(0)
    else
      var later := IndexOf(bytes[1..]);
      if later.None? then None else Some(later.value + 1)
  }

  predicate NoNewline(bytes: Bytes) {
    forall i :: 0 <= i < |bytes| ==> bytes[i] != NEWLINE
  }

  /** A line, its terminator and the rest are cut at the terminator. */
  lemma IndexOfLine(line: Bytes, rest: Bytes)
    requires NoNewline(line)
    ensures var bytes := line + [NEWLINE] + rest;
            IndexOf(bytes) == Some(|line|) && bytes[..|line|] == line && bytes[|line| + 1..] == rest
  {
    var bytes := line + [NEWLINE] + rest;
    assert bytes[|line|] == NEWLINE;
    assert forall i :: 0 <= i < |line| ==> bytes[i] == line[i];
  }

  lemma NoIndexOf(bytes: Bytes)
    requires NoNewline(bytes)
    ensures IndexOf(bytes).None?
  {}

  /** The lines terminated so far, empty ones skipped, and the unterminated rest. */
  function Lines(bytes: Bytes): Split
    decreases |bytes|
  {
    var end := IndexOf(bytes);
    if end.None? then Split([], bytes, false)
    else
      var more := Lines(bytes[end.value + 1..]);
      Split(Taken(bytes[..end.value]) + more.items, more.rest, false)
  }

  /** An empty line is not a line. */
  function Taken(line: Bytes): seq<Bytes> {
    if line == [] then [] else [line]
  }

  /** The first terminator of the bytes ends their first line. */
  lemma LinesFirst(bytes: Bytes)
    ensures IndexOf(bytes).None? ==> Lines(bytes) == Split([], bytes, false)
    ensures IndexOf(bytes).Some? ==>
      var end := IndexOf(bytes).value;
      var more := Lines(bytes[end + 1..]);
      Lines(bytes) == Split(Taken(bytes[..end]) + more.items, more.rest, false)
  {
    hide IndexOf, Taken;
  }

  /** Feeding chunk by chunk; a chunk fails when it leaves more than `MAX_LINE` bytes unterminated. */
  function FeedLines(pending: Bytes, chunks: seq<Bytes>): Split
    decreases |chunks|
  {
    if chunks == [] then Split([], pending, false)
    else
      var first := Lines(pending + chunks[0]);
      var more := FeedLines(first.rest, chunks[1..]);
      Split(first.items + more.items, more.rest, |first.rest| > MAX_LINE || more.bad)
  }

  lemma IndexOfAppend(a: Bytes, b: Bytes)
    requires IndexOf(a).Some?
    ensures IndexOf(a + b) == IndexOf(a)
    ensures var end := IndexOf(a).value; (a + b)[..end] == a[..end] && (a + b)[end + 1..] == a[end + 1..] + b
  {
    var end := IndexOf(a).value;
    assert (a + b)[end] == NEWLINE;
    assert forall i :: 0 <= i < end ==> (a + b)[i] == a[i];
  }

  lemma {:induction false} LinesAppend(a: Bytes, b: Bytes)
    ensures var s := Lines(a);
            var t := Lines(s.rest + b);
            Lines(a + b) == Split(s.items + t.items, t.rest, false)
    decreases |a|
  {
    hide IndexOf, Taken;
    var end := IndexOf(a);
    if end.Some? {
      var more := Lines(a[end.value + 1..]);
      IndexOfAppend(a, b);
      LinesAppend(a[end.value + 1..], b);
      Associative(Taken(a[..end.value]), more.items, Lines(more.rest + b).items);
    }
  }

  lemma {:induction false} FeedLinesFrom(pending: Bytes, chunks: seq<Bytes>)
    requires chunks != []
    ensures var all, fed := Lines(pending + Concat(chunks)), FeedLines(pending, chunks);
            fed.items == all.items && fed.rest == all.rest && (|all.rest| > MAX_LINE ==> fed.bad)
    decreases |chunks|
  {
    var arrived := pending + chunks[0];
    var first := Lines(arrived);
    LinesAppend(arrived, Concat(chunks[1..]));
    assert arrived + Concat(chunks[1..]) == pending + Concat(chunks);
    if |chunks| == 1 {
      assert chunks[1..] == [] && arrived + [] == arrived;
    } else {
      FeedLinesFrom(first.rest, chunks[1..]);
    }
  }

  /** Any two ways of cutting the same bytes emit the same lines and keep the same rest. */
  lemma LinesIgnoreChunks(chunks: seq<Bytes>, others: seq<Bytes>)
    requires Concat(chunks) == Concat(others)
    ensures var fed, refed := FeedLines([], chunks), FeedLines([], others);
            fed.items == refed.items == Lines(Concat(chunks)).items && fed.rest == refed.rest
  {
    if chunks != [] { FeedLinesFrom([], chunks); assert [] + Concat(chunks) == Concat(chunks); }
    if others != [] { FeedLinesFrom([], others); assert [] + Concat(others) == Concat(others); }
  }

  // ---- When a line is too long ----

  lemma {:induction false} RestUnterminated(bytes: Bytes)
    ensures NoNewline(Lines(bytes).rest)
    decreases |bytes|
  {
    var end := IndexOf(bytes);
    if end.Some? { RestUnterminated(bytes[end.value + 1..]); }
  }

  /** After `k` chunks more than `MAX_LINE` bytes are unterminated. */
  predicate OverAfter(pending: Bytes, chunks: seq<Bytes>, k: nat) {
    0 < k <= |chunks| && |Lines(pending + Concat(chunks[..k])).rest| > MAX_LINE
  }

  lemma FeedFirst(pending: Bytes, chunks: seq<Bytes>)
    ensures chunks == [] ==> !FeedLines(pending, chunks).bad
    ensures chunks != [] ==>
      var rest := Lines(pending + chunks[0]).rest;
      FeedLines(pending, chunks).bad <==> |rest| > MAX_LINE || FeedLines(rest, chunks[1..]).bad
  {
    hide Lines;
  }

  /** Feeding fails exactly when some chunk ends more than `MAX_LINE` bytes into an unterminated line. */
  lemma {:induction false} FeedingFailsExactly(pending: Bytes, chunks: seq<Bytes>)
    ensures FeedLines(pending, chunks).bad <==> exists k :: OverAfter(pending, chunks, k)
    decreases |chunks|
  {
    hide Lines, FeedLines, Concat;
    FeedFirst(pending, chunks);
    if chunks != [] {
      var rest := Lines(pending + chunks[0]).rest;
      FeedingFailsExactly(rest, chunks[1..]);
      RestAfter(pending, chunks, 1);
      if k: nat :| OverAfter(pending, chunks, k) {
        RestAfter(pending, chunks, k);
        assert k == 1 || OverAfter(rest, chunks[1..], k - 1);
      }
      if |rest| > MAX_LINE {
        assert OverAfter(pending, chunks, 1);
      } else if k: nat :| OverAfter(rest, chunks[1..], k) {
        RestAfter(pending, chunks, k + 1);
        assert OverAfter(pending, chunks, k + 1);
      }
    }
  }

  lemma RestAfter(pending: Bytes, chunks: seq<Bytes>, k: nat)
    requires 0 < k <= |chunks|
    ensures var rest := Lines(pending + chunks[0]).rest;
            Lines(pending + Concat(chunks[..k])).rest ==
              if k == 1 then rest else Lines(rest + Concat(chunks[1..][..k - 1])).rest
  {
    var tail := chunks[1..][..k - 1];
    assert chunks[..k][0] == chunks[0] && chunks[..k][1..] == tail;
    LinesAppend(pending + chunks[0], Concat(tail));
    Associative(pending, chunks[0], Concat(tail));
    if k == 1 { assert tail == [] && pending + (chunks[0] + []) == pending + chunks[0]; }
  }

  /** No emitted line and no rest exceeds the limit. */
  predicate Short(s: Split) {
    |s.rest| <= MAX_LINE && forall i :: 0 <= i < |s.items| ==> |s.items[i]| <= MAX_LINE
  }

  /** What an unterminated line has reached is part of the line it becomes. */
  lemma RestIsPart(rest: Bytes, more: Bytes)
    requires NoNewline(rest) && Short(Lines(rest + more))
    ensures |rest| <= MAX_LINE
  {
    var all := rest + more;
    var end := IndexOf(all);
    if end.Some? {
      assert forall i :: 0 <= i < |rest| ==> all[i] == rest[i];
      if rest != [] { assert Lines(all).items[0] == all[..end.value]; }
    }
  }

  lemma PrefixShort(a: Bytes, b: Bytes)
    requires Short(Lines(a + b))
    ensures |Lines(a).rest| <= MAX_LINE
  {
    var s := Lines(a);
    var t := Lines(s.rest + b);
    LinesAppend(a, b);
    RestUnterminated(a);
    forall i | 0 <= i < |t.items| ensures |t.items[i]| <= MAX_LINE {
      assert (s.items + t.items)[|s.items| + i] == t.items[i];
    }
    RestIsPart(s.rest, b);
  }

  lemma {:induction false} ConcatCut(chunks: seq<Bytes>, k: nat)
    requires k <= |chunks|
    ensures Concat(chunks) == Concat(chunks[..k]) + Concat(chunks[k..])
  {
    if k == 0 {
      assert chunks[0..] == chunks && [] + Concat(chunks) == Concat(chunks);
    } else {
      assert chunks[..k][0] == chunks[0] && chunks[..k][1..] == chunks[1..][..k - 1];
      assert chunks[1..][k - 1..] == chunks[k..];
      ConcatCut(chunks[1..], k - 1);
      Associative(chunks[0], Concat(chunks[1..][..k - 1]), Concat(chunks[k..]));
    }
  }

  lemma ShortNeverFails(chunks: seq<Bytes>)
    requires Short(Lines(Concat(chunks)))
    ensures !FeedLines([], chunks).bad
  {
    FeedingFailsExactly([], chunks);
    forall k: nat ensures !OverAfter([], chunks, k) {
      if 0 < k <= |chunks| { PrefixNotOver(chunks, k); }
    }
  }

  lemma PrefixNotOver(chunks: seq<Bytes>, k: nat)
    requires Short(Lines(Concat(chunks))) && k <= |chunks|
    ensures !OverAfter([], chunks, k)
  {
    ConcatCut(chunks, k);
    assert [] + Concat(chunks[..k]) == Concat(chunks[..k]);
    PrefixShort(Concat(chunks[..k]), Concat(chunks[k..]));
  }

  /** Whole lines in front change nothing about the rest. */
  lemma RestBehindLine(line: Bytes, tail: Bytes)
    requires NoNewline(line)
    ensures Lines(line + [NEWLINE] + tail).rest == Lines(tail).rest
  {
    IndexOfLine(line, tail);
  }

  lemma RestOfLine(line: Bytes)
    requires NoNewline(line)
    ensures Lines(line).rest == line
  {}

  /** The item at `i` is the first line, or an item of what follows it. */
  lemma ItemOf(bytes: Bytes, i: nat) returns (line: Bytes, tail: Bytes, j: nat)
    requires i < |Lines(bytes).items|
    ensures bytes == line + [NEWLINE] + tail && NoNewline(line)
    ensures Lines(bytes).items[i] == line || (j < |Lines(tail).items| && Lines(tail).items[j] == Lines(bytes).items[i])
  {
    hide IndexOf, Lines;
    LinesFirst(bytes);
    var end := IndexOf(bytes).value;
    line, tail := bytes[..end], bytes[end + 1..];
    j := if i < |Taken(line)| then 0 else i - |Taken(line)|;
  }

  /** A line over the limit can be cut inside itself. */
  lemma {:induction false} LongItemCut(bytes: Bytes, i: nat) returns (a: Bytes, b: Bytes)
    requires i < |Lines(bytes).items| && |Lines(bytes).items[i]| > MAX_LINE
    ensures bytes == a + b && |Lines(a).rest| > MAX_LINE
    decreases |bytes|
  {
    hide Lines, NoNewline;
    var line, tail, j := ItemOf(bytes, i);
    if |line| > MAX_LINE {
      RestOfLine(line);
      a, b := line, [NEWLINE] + tail;
      Associative(line, [NEWLINE], tail);
    } else {
      var c, d := LongItemCut(tail, j);
      a, b := line + [NEWLINE] + c, d;
      RestBehindLine(line, c);
      Associative(line + [NEWLINE], c, d);
    }
  }

  lemma ConcatOne(a: Bytes)
    ensures Concat([a]) == a
  {
    assert [a][1..] == [] && a + [] == a;
  }

  lemma FeedOne(pending: Bytes, chunk: Bytes)
    ensures FeedLines(pending, [chunk]).bad == (|Lines(pending + chunk).rest| > MAX_LINE)
  {
    assert [chunk][1..] == [];
  }

  lemma TwoChunks(a: Bytes, b: Bytes)
    ensures Concat([a, b]) == a + b && Concat([a + b]) == a + b
    ensures FeedLines([], [a + b]).bad == (|Lines(a + b).rest| > MAX_LINE)
    ensures |Lines(a).rest| > MAX_LINE ==> FeedLines([], [a, b]).bad
  {
    assert [a, b][1..] == [b] && [] + a == a && [] + (a + b) == a + b;
    ConcatOne(b);
    ConcatOne(a + b);
    FeedOne([], a + b);
  }

  /** All ways of cutting the bytes into chunks agree on the length failure. */
  ghost predicate CutsAgree(bytes: Bytes) {
    forall chunks: seq<Bytes>, others: seq<Bytes> ::
      chunks != [] && others != [] && Concat(chunks) == bytes == Concat(others) ==>
        FeedLines([], chunks).bad == FeedLines([], others).bad
  }

  lemma LongItemDisagrees(bytes: Bytes)
    requires |Lines(bytes).rest| <= MAX_LINE && !Short(Lines(bytes))
    ensures !CutsAgree(bytes)
  {
    hide Lines, FeedLines, Concat;
    var all := Lines(bytes);
    var i :| 0 <= i < |all.items| && |all.items[i]| > MAX_LINE;
    var a, b := LongItemCut(bytes, i);
    TwoChunks(a, b);
    assert FeedLines([], [a, b]).bad && !FeedLines([], [a + b]).bad;
  }

  lemma OverFails(chunks: seq<Bytes>)
    requires chunks != [] && |Lines(Concat(chunks)).rest| > MAX_LINE
    ensures FeedLines([], chunks).bad
  {
    FeedLinesFrom([], chunks);
    assert [] + Concat(chunks) == Concat(chunks);
  }

  /**
   * The length failure does not depend on the chunks exactly when the unterminated rest is over the limit,
   * or neither it nor any emitted line is.
   */
  lemma LengthFailureExactly(bytes: Bytes)
    ensures CutsAgree(bytes) <==> |Lines(bytes).rest| > MAX_LINE || Short(Lines(bytes))
  {
    hide Lines, FeedLines, Concat, Short;
    if |Lines(bytes).rest| > MAX_LINE || Short(Lines(bytes)) {
      forall chunks: seq<Bytes>, others: seq<Bytes> |
        chunks != [] && others != [] && Concat(chunks) == bytes == Concat(others)
        ensures FeedLines([], chunks).bad == FeedLines([], others).bad
      {
        if Short(Lines(bytes)) {
          ShortNeverFails(chunks);
          ShortNeverFails(others);
        } else {
          OverFails(chunks);
          OverFails(others);
        }
      }
    } else {
      LongItemDisagrees(bytes);
    }
  }

  /** Segments put back behind their terminators. */
  function Unlines(segments: seq<Bytes>): Bytes {
    if segments == [] then [] else segments[0] + [NEWLINE] + Unlines(segments[1..])
  }

  function NonEmpty(segments: seq<Bytes>): seq<Bytes> {
    if segments == [] then []
    else Taken(segments[0]) + NonEmpty(segments[1..])
  }

  /** A whole line in front is emitted first, unless it is empty. */
  lemma LineBehind(line: Bytes, tail: Bytes)
    requires NoNewline(line)
    ensures Lines(line + [NEWLINE] + tail) == Split(Taken(line) + Lines(tail).items, Lines(tail).rest, false)
  {
    hide IndexOf, Lines, Taken;
    IndexOfLine(line, tail);
    LinesFirst(line + [NEWLINE] + tail);
  }

  lemma RestAlone(rest: Bytes)
    requires NoNewline(rest)
    ensures Lines(rest) == Split([], rest, false)
  {
    hide Lines;
    NoIndexOf(rest);
    LinesFirst(rest);
  }

  /** Whatever the segments of a stream are, exactly the non-empty ones are emitted, in order. */
  lemma {:induction false} LinesReadBack(segments: seq<Bytes>, rest: Bytes)
    requires NoNewline(rest) && forall i :: 0 <= i < |segments| ==> NoNewline(segments[i])
    ensures Lines(Unlines(segments) + rest) == Split(NonEmpty(segments), rest, false)
    decreases |segments|
  {
    hide IndexOf, Lines, Taken, NoNewline;
    if segments == [] {
      assert [] + rest == rest;
      RestAlone(rest);
    } else {
      LinesReadBack(segments[1..], rest);
      LineBehind(segments[0], Unlines(segments[1..]) + rest);
      Associative(segments[0] + [NEWLINE], Unlines(segments[1..]), rest);
    }
  }

  /** The line deframer. */
  class LineReader {
    var pending: Bytes

    constructor ()
      ensures pending == []
    {
      pending := [];
    }

    method Feed(chunk: Bytes) returns (emitted: seq<Bytes>, failed: bool)
      modifies this
      ensures var all := Lines(old(pending) + chunk);
              emitted == all.items && pending == all.rest && failed == (|all.rest| > MAX_LINE)
    {
      pending := pending + chunk;
      emitted := [];
      ghost var all := Lines(pending);
      var end := IndexOf(pending);
      while end.Some?
        invariant end == IndexOf(pending)
        invariant all == Split(emitted + Lines(pending).items, Lines(pending).rest, false)
        decreases |pending|
      {
        ghost var before, more := emitted, Lines(pending[end.value + 1..]);
        var line := pending[..end.value];
        pending := pending[end.value + 1..];
        if |line| > 0 { emitted := emitted + [line]; }
        assert emitted == before + Taken(line);
        Associative(before, Taken(line), more.items);
        end := IndexOf(pending);
      }
      assert emitted + [] == emitted;
      failed := |pending| > MAX_LINE;
    }
  }
}
