/** Replay of a recorded RTP stream: parsing into frames, and the player that loops and seeks over them. */
module FixtureModel {
  import opened Basics

  type Bytes = seq<Byte>

  const HEADER: nat := 12
  const FU_A: nat := 28
  const SPS: nat := 7
  const TICKS_PER_MS: nat := 90

  /** One decodable unit: the packets sharing an RTP timestamp. */
  datatype Frame = Frame(packets: seq<Bytes>, keyframe: bool, timestamp: Uint32)

  /** A packet is long enough to carry a header and one payload byte, and its length fits the prefix. */
  predicate Packet(bytes: Bytes) {
    HEADER < |bytes| < U16
  }

  function Timestamp(packet: Bytes): Uint32
    requires Packet(packet)
  {
    ReadU32(packet, 4)
  }

  /** A parameter set, whole or as the fragment that starts it; a missing fragment header reads as zero. */
  predicate Joinable(packet: Bytes)
    requires Packet(packet)
  {
    var kind := packet[HEADER] % 32;
    if kind == FU_A then |packet| > HEADER + 1 && packet[HEADER + 1] % 32 == SPS else kind == SPS
  }

  /** The whole packet at an offset, if its length is in range and all of it is there. */
  function PacketAt(fixture: Bytes, offset: nat): (packet: Option<Bytes>)
    requires offset + 2 <= |fixture|
    ensures packet.Some? ==> Packet(packet.value)
  {
    var length := ReadU16(fixture, offset);
    if length < HEADER + 1 || offset + 2 + length > |fixture| then None
    else Some(fixture[offset + 2..offset + 2 + length])
  }

  /** The framed packets of a recording; trailing bytes too few for a length are ignored. */
  function Unframe(fixture: Bytes): (packets: Result<seq<Bytes>>)
    ensures packets.Ok? ==> forall i :: 0 <= i < |packets.value| ==> Packet(packets.value[i])
    decreases |fixture|
  {
    if |fixture| < 2 then Ok([])
    else
      var packet := PacketAt(fixture, 0);
      if packet.None? then Err("fixture is not a framed RTP recording")
      else
        var rest := Unframe(fixture[2 + |packet.value|..]);
        if rest.Err? then rest else Ok([packet.value] + rest.value)
  }

  /** The RFC 4571 writer. */
  function Framed(packets: seq<Bytes>): Bytes
    requires forall i :: 0 <= i < |packets| ==> Packet(packets[i])
  {
    if packets == [] then []
    else
      assert Packet(packets[0]);
      U16Bytes(|packets[0]|) + packets[0] + Framed(packets[1..])
  }

  /** A packet joins the last frame if it shares its timestamp, and opens a new one otherwise. */
  function AddPacket(frames: seq<Frame>, packet: Bytes): seq<Frame>
    requires Packet(packet)
  {
    if frames != [] && frames[|frames| - 1].timestamp == Timestamp(packet) then
      var last := frames[|frames| - 1];
      frames[..|frames| - 1] + [Frame(last.packets + [packet], last.keyframe || Joinable(packet), last.timestamp)]
    else frames + [Frame([packet], Joinable(packet), Timestamp(packet))]
  }

  function Group(packets: seq<Bytes>): seq<Frame>
    requires forall i :: 0 <= i < |packets| ==> Packet(packets[i])
  {
    if packets == [] then [] else AddPacket(Group(packets[..|packets| - 1]), packets[|packets| - 1])
  }

  predicate HasKeyframe(frames: seq<Frame>) {
    exists i :: 0 <= i < |frames| && frames[i].keyframe
  }

  function Parse(fixture: Bytes): Result<seq<Frame>> {
    var packets := Unframe(fixture);
    if packets.Err? then Err(packets.reason)
    else if !HasKeyframe(Group(packets.value)) then Err("fixture contains no keyframe")
    else Ok(Group(packets.value))
  }

  // ---- Parsing ----

  function Packets(frames: seq<Frame>): seq<Bytes> {
    if frames == [] then [] else Packets(frames[..|frames| - 1]) + frames[|frames| - 1].packets
  }

  /** Frames hold packets of their timestamp, neighbours differ, and a frame is joinable if a packet of it is. */
  predicate FramesOk(frames: seq<Frame>) {
    && (forall f :: 0 <= f < |frames| ==> FrameOk(frames[f]))
    && (forall f :: 0 < f < |frames| ==> frames[f - 1].timestamp != frames[f].timestamp)
  }

  predicate FrameOk(frame: Frame) {
    && frame.packets != []
    && (forall p :: 0 <= p < |frame.packets| ==>
          Packet(frame.packets[p]) && Timestamp(frame.packets[p]) == frame.timestamp)
    && (frame.keyframe <==>
          exists p :: 0 <= p < |frame.packets| && Packet(frame.packets[p]) && Joinable(frame.packets[p]))
  }

  lemma AddToFrame(frame: Frame, packet: Bytes)
    requires FrameOk(frame) && Packet(packet) && Timestamp(packet) == frame.timestamp
    ensures FrameOk(Frame(frame.packets + [packet], frame.keyframe || Joinable(packet), frame.timestamp))
  {
    var packets := frame.packets + [packet];
    assert packets[|frame.packets|] == packet;
    assert forall p :: 0 <= p < |frame.packets| ==> packets[p] == frame.packets[p];
  }

  lemma AddPacketKeeps(frames: seq<Frame>, packet: Bytes)
    requires FramesOk(frames) && Packet(packet)
    ensures FramesOk(AddPacket(frames, packet)) && Packets(AddPacket(frames, packet)) == Packets(frames) + [packet]
  {
    var later := AddPacket(frames, packet);
    assert later[..|later| - 1] == if |later| == |frames| then frames[..|frames| - 1] else frames;
    if |later| == |frames| {
      AddToFrame(frames[|frames| - 1], packet);
      var before := Packets(frames[..|frames| - 1]);
      assert before + (frames[|frames| - 1].packets + [packet]) == (before + frames[|frames| - 1].packets) + [packet];
    } else {
      assert [packet][0] == packet;
    }
  }

  lemma EmptyOk()
    ensures FramesOk([]) && Packets([]) == []
  {}

  /** Grouping loses, invents and reorders nothing. */
  lemma {:induction false} GroupKeeps(packets: seq<Bytes>)
    requires forall i :: 0 <= i < |packets| ==> Packet(packets[i])
    ensures FramesOk(Group(packets)) && Packets(Group(packets)) == packets
  {
    hide FramesOk, AddPacket, Packet;
    if packets == [] {
      EmptyOk();
    } else {
      GroupKeeps(packets[..|packets| - 1]);
      AddPacketKeeps(Group(packets[..|packets| - 1]), packets[|packets| - 1]);
      assert packets[..|packets| - 1] + [packets[|packets| - 1]] == packets;
    }
  }

  lemma UnframeHead(packet: Bytes, tail: Bytes)
    requires Packet(packet)
    ensures var fixture := U16Bytes(|packet|) + packet + tail;
            && |fixture| >= 2 && PacketAt(fixture, 0) == Some(packet) && fixture[2 + |packet|..] == tail
  {
    var head := U16Bytes(|packet|);
    var fixture := head + packet + tail;
    assert fixture[0] == head[0] && fixture[1] == head[1];
    assert ReadU16(fixture, 0) == ReadU16(head, 0);
    assert fixture[2..2 + |packet|] == packet;
  }

  lemma {:induction false} UnframeFramed(packets: seq<Bytes>)
    requires forall i :: 0 <= i < |packets| ==> Packet(packets[i])
    ensures Unframe(Framed(packets)) == Ok(packets)
  {
    if packets != [] {
      UnframeHead(packets[0], Framed(packets[1..]));
      UnframeFramed(packets[1..]);
      assert packets == [packets[0]] + packets[1..];
    }
  }

  lemma FrameSplits(fixture: Bytes, packet: Bytes)
    requires |fixture| >= 2 && PacketAt(fixture, 0) == Some(packet)
    ensures 2 + |packet| <= |fixture| && fixture == U16Bytes(|packet|) + packet + fixture[2 + |packet|..]
  {
    assert U16Bytes(|packet|) == fixture[..2] && packet == fixture[2..2 + |packet|];
  }

  lemma FramedFirst(packet: Bytes, packets: seq<Bytes>)
    requires Packet(packet) && forall i :: 0 <= i < |packets| ==> Packet(packets[i])
    ensures Framed([packet] + packets) == U16Bytes(|packet|) + packet + Framed(packets)
  {
    assert ([packet] + packets)[1..] == packets;
  }

  lemma FramedMore(packet: Bytes, packets: seq<Bytes>, rest: Bytes)
    requires Packet(packet) && forall i :: 0 <= i < |packets| ==> Packet(packets[i])
    ensures Framed([packet] + packets) + rest == U16Bytes(|packet|) + packet + (Framed(packets) + rest)
  {
    hide Framed, U16Bytes;
    FramedFirst(packet, packets);
    Associative(U16Bytes(|packet|) + packet, Framed(packets), rest);
  }

  /**
   * What is unframed is all there was: framing it again gives the recording, up to a last byte too few for a
   * length.
   */
  lemma {:induction false} UnframeConserves(fixture: Bytes) returns (rest: Bytes)
    requires Unframe(fixture).Ok?
    ensures fixture == Framed(Unframe(fixture).value) + rest && |rest| < 2
    decreases |fixture|
  {
    hide PacketAt, Framed, U16Bytes;
    if |fixture| < 2 {
      rest := fixture;
      assert Unframe(fixture).value == [];
      FramedNothing(rest);
    } else {
      var packet := PacketAt(fixture, 0).value;
      FrameSplits(fixture, packet);
      rest := UnframeConserves(fixture[2 + |packet|..]);
      FramedMore(packet, Unframe(fixture[2 + |packet|..]).value, rest);
    }
  }

  lemma FramedNothing(rest: Bytes)
    ensures Framed([]) + rest == rest
  {}

  /**
   * A framed recording with a joinable packet parses, and the concatenated frames are its packets in order;
   * without one it is refused.
   */
  lemma ParseExactly(packets: seq<Bytes>)
    requires forall i :: 0 <= i < |packets| ==> Packet(packets[i])
    ensures var parsed := Parse(Framed(packets));
            && (parsed.Ok? <==> exists i :: 0 <= i < |packets| && Joinable(packets[i]))
            && (parsed.Ok? ==> FramesOk(parsed.value) && Packets(parsed.value) == packets && parsed.value != [])
  {
    UnframeFramed(packets);
    GroupKeeps(packets);
    KeyframeExactly(Group(packets));
  }

  /** Some frame is joinable exactly when some packet is. */
  lemma {:induction false} KeyframeExactly(frames: seq<Frame>)
    requires FramesOk(frames)
    ensures forall i :: 0 <= i < |Packets(frames)| ==> Packet(Packets(frames)[i])
    ensures HasKeyframe(frames) <==> exists i :: 0 <= i < |Packets(frames)| && Joinable(Packets(frames)[i])
  {
    if frames != [] {
      var init, last := frames[..|frames| - 1], frames[|frames| - 1];
      KeyframeExactly(init);
      var before := Packets(init);
      assert forall i :: 0 <= i < |before| ==> Packets(frames)[i] == before[i];
      assert forall p :: 0 <= p < |last.packets| ==> Packets(frames)[|before| + p] == last.packets[p];
      assert FrameOk(last);
      if HasKeyframe(frames) {
        var i :| 0 <= i < |frames| && frames[i].keyframe;
        if i < |init| { assert init[i].keyframe; }
      }
      if HasKeyframe(init) { var i :| 0 <= i < |init| && init[i].keyframe; assert frames[i].keyframe; }
    }
  }

  // ---- Playing ----

  function RoundHalfUp(x: real): int {
    (x + 0.5).Floor
  }

  /** How long a frame is held, in milliseconds: its own gap, or for the last frame the gap before it. */
  function Delay(frames: seq<Frame>, i: nat): (delay: nat)
    requires i < |frames|
    ensures delay >= 1
  {
    var from := if i + 1 < |frames| then i else |frames| - 2;
    var gap := if from < 0 then 1.0
               else (frames[from + 1].timestamp - frames[from].timestamp) as real / TICKS_PER_MS as real;
    if RoundHalfUp(gap) < 1 then 1 else RoundHalfUp(gap)
  }

  /** A packet with the player's numbering; nothing else of it changes. */
  function Rewrite(packet: Bytes, sequence: nat, timestamp: Uint32): (copy: Bytes)
    requires Packet(packet)
    ensures |copy| == |packet| && ReadU16(copy, 2) == sequence % U16 && ReadU32(copy, 4) == timestamp
    ensures copy[..2] == packet[..2] && copy[8..] == packet[8..]
  {
    var copy := packet[..2] + U16Bytes(sequence % U16) + U32Bytes(timestamp) + packet[8..];
    assert copy[2..4] == U16Bytes(sequence % U16) && copy[4..8] == U32Bytes(timestamp);
    assert ReadU16(copy, 2) == ReadU16(copy[2..4], 0) && ReadU32(copy, 4) == ReadU32(copy[4..8], 0);
    copy
  }

  function RewriteAll(packets: seq<Bytes>, sequence: nat, timestamp: Uint32): (copies: seq<Bytes>)
    requires forall p :: 0 <= p < |packets| ==> Packet(packets[p])
    ensures |copies| == |packets|
    ensures forall p :: 0 <= p < |packets| ==> copies[p] == Rewrite(packets[p], sequence + p, timestamp)
  {
    if packets == [] then []
    else RewriteAll(packets[..|packets| - 1], sequence, timestamp)
         + [Rewrite(packets[|packets| - 1], sequence + |packets| - 1, timestamp)]
  }

  datatype Player = Player(cursor: nat, sequence: nat, timestamp: Uint32, emitted: seq<Bytes>)

  predicate PlayerOk(frames: seq<Frame>, p: Player) {
    p.cursor < |frames| && p.sequence == |p.emitted|
  }

  /** Emit the frame at the cursor and move on. */
  function Play(frames: seq<Frame>, p: Player): Player
    requires FramesOk(frames) && p.cursor < |frames|
  {
    var frame := frames[p.cursor];
    assert FrameOk(frame);
    Player((p.cursor + 1) % |frames|, p.sequence + |frame.packets|,
           (p.timestamp + TICKS_PER_MS * Delay(frames, p.cursor)) % U32,
           p.emitted + RewriteAll(frame.packets, p.sequence, p.timestamp))
  }

  /** The first keyframe at or after a position; the number of frames if there is none. */
  function NextKeyframe(frames: seq<Frame>, from: nat): (at: nat)
    requires from <= |frames|
    ensures from <= at <= |frames| && (at < |frames| ==> frames[at].keyframe)
    ensures forall i :: from <= i < at ==> !frames[i].keyframe
    decreases |frames| - from
  {
    if from == |frames| || frames[from].keyframe then from else NextKeyframe(frames, from + 1)
  }

  function Seek(frames: seq<Frame>, p: Player): (later: Player)
    requires p.cursor < |frames|
    ensures HasKeyframe(frames) ==> later.cursor < |frames|
  {
    var at := NextKeyframe(frames, p.cursor);
    p.(cursor := if at < |frames| then at else NextKeyframe(frames, 0))
  }

  /** The position `d` frames ahead in the loop. */
  function Ahead(cursor: nat, d: nat, n: nat): (at: nat)
    requires cursor < n && d < n
    ensures at == (cursor + d) % n && at < n
  {
    if cursor + d < n then cursor + d
    else
      assert cursor + d == n * 1 + (cursor + d - n);
      cursor + d - n
  }

  /** A keyframe request moves the cursor to the cyclically nearest keyframe at or after it. */
  lemma SeekIsNearest(frames: seq<Frame>, p: Player) returns (distance: nat)
    requires p.cursor < |frames| && HasKeyframe(frames)
    ensures var later := Seek(frames, p);
            && distance < |frames| && later == p.(cursor := Ahead(p.cursor, distance, |frames|))
            && frames[later.cursor].keyframe
            && (forall d :: 0 <= d < distance ==> !frames[Ahead(p.cursor, d, |frames|)].keyframe)
  {
    var i :| 0 <= i < |frames| && frames[i].keyframe;
    var at := NextKeyframe(frames, p.cursor);
    distance := if at < |frames| then at - p.cursor else |frames| - p.cursor + NextKeyframe(frames, 0);
  }

  datatype Act = DoPlay | DoSeek

  function Run(frames: seq<Frame>, p: Player, acts: seq<Act>): (later: Player)
    requires FramesOk(frames) && HasKeyframe(frames) && PlayerOk(frames, p)
    decreases |acts|
  {
    if acts == [] then p
    else
      Run(frames, if acts[0].DoPlay? then Play(frames, p) else Seek(frames, p), acts[1..])
  }

  /** The i-th packet sent is a recorded packet numbered i, modulo 2^16. */
  predicate Contiguous(frames: seq<Frame>, emitted: seq<Bytes>) {
    forall i :: 0 <= i < |emitted| ==>
      && HEADER < |emitted[i]| && ReadU16(emitted[i], 2) == i % U16
      && exists f, k :: 0 <= f < |frames| && 0 <= k < |frames[f].packets| && Recorded(frames[f].packets[k], emitted[i])
  }

  /** Equal but for the sequence number and the timestamp. */
  predicate Recorded(packet: Bytes, copy: Bytes) {
    |copy| == |packet| >= 8 && copy[..2] == packet[..2] && copy[8..] == packet[8..]
  }

  lemma PlayContiguous(frames: seq<Frame>, p: Player)
    requires FramesOk(frames) && PlayerOk(frames, p) && Contiguous(frames, p.emitted)
    ensures PlayerOk(frames, Play(frames, p)) && Contiguous(frames, Play(frames, p).emitted)
  {
    var later := Play(frames, p);
    var frame := frames[p.cursor];
    assert FrameOk(frame);
    forall i | 0 <= i < |later.emitted|
      ensures HEADER < |later.emitted[i]| && ReadU16(later.emitted[i], 2) == i % U16
      ensures exists f, k ::
        0 <= f < |frames| && 0 <= k < |frames[f].packets| && Recorded(frames[f].packets[k], later.emitted[i])
    {
      if i < |p.emitted| {
        assert later.emitted[i] == p.emitted[i];
      } else {
        var k := i - |p.emitted|;
        assert later.emitted[i] == Rewrite(frame.packets[k], i, p.timestamp);
        assert Recorded(frames[p.cursor].packets[k], later.emitted[i]);
      }
    }
  }

  /** Through loops and seeks, the packets sent are recorded ones, numbered 0, 1, 2, ... modulo 2^16. */
  lemma {:induction false} RunContiguous(frames: seq<Frame>, p: Player, acts: seq<Act>)
    requires FramesOk(frames) && HasKeyframe(frames) && PlayerOk(frames, p) && Contiguous(frames, p.emitted)
    ensures PlayerOk(frames, Run(frames, p, acts)) && Contiguous(frames, Run(frames, p, acts).emitted)
    decreases |acts|
  {
    if acts != [] {
      var distance := SeekIsNearest(frames, p);
      PlayContiguous(frames, p);
      RunContiguous(frames, if acts[0].DoPlay? then Play(frames, p) else Seek(frames, p), acts[1..]);
    }
  }
}

/** The `fixture` backend as an object. */
module FixtureReplay {
  import opened Basics
  import F = FixtureModel
  import opened FixtureModel

  lemma PacketFrom(fixture: Bytes, offset: nat)
    requires offset + 2 <= |fixture|
    ensures PacketAt(fixture[offset..], 0) == PacketAt(fixture, offset)
  {
    var tail := fixture[offset..];
    assert ReadU16(tail, 0) == ReadU16(fixture, offset);
    var length := ReadU16(fixture, offset);
    if offset + 2 + length <= |fixture| { assert tail[2..2 + length] == fixture[offset + 2..offset + 2 + length]; }
  }

  /** What the whole parses to, given what was found and what the rest parses to. */
  function Continue(packets: seq<Bytes>, rest: Result<seq<Bytes>>): Result<seq<Bytes>> {
    if rest.Err? then rest else Ok(packets + rest.value)
  }

  lemma OneMore(packets: seq<Bytes>, packet: Bytes, fixture: Bytes, offset: nat)
    requires offset + 2 <= |fixture| && PacketAt(fixture, offset) == Some(packet)
    ensures offset + 2 + |packet| <= |fixture|
    ensures Continue(packets, Unframe(fixture[offset..])) ==
            Continue(packets + [packet], Unframe(fixture[offset + 2 + |packet|..]))
  {
    PacketFrom(fixture, offset);
    assert fixture[offset..][2 + |packet|..] == fixture[offset + 2 + |packet|..];
    var rest := Unframe(fixture[offset + 2 + |packet|..]);
    if rest.Ok? { assert packets + ([packet] + rest.value) == (packets + [packet]) + rest.value; }
  }

  lemma Refused(packets: seq<Bytes>, fixture: Bytes, offset: nat)
    requires offset + 2 <= |fixture|
    ensures PacketAt(fixture, offset).None? ==>
      Continue(packets, Unframe(fixture[offset..])) == Err("fixture is not a framed RTP recording")
  {
    PacketFrom(fixture, offset);
  }

  lemma Finished(packets: seq<Bytes>, fixture: Bytes, offset: nat)
    requires offset <= |fixture| < offset + 2
    ensures Continue(packets, Unframe(fixture[offset..])) == Ok(packets)
  {
    assert packets + [] == packets;
  }

  lemma Nothing(fixture: Bytes)
    ensures Unframe(fixture) == Continue([], Unframe(fixture[0..]))
  {
    assert fixture[0..] == fixture;
    if Unframe(fixture).Ok? { assert [] + Unframe(fixture).value == Unframe(fixture).value; }
  }

  lemma NothingGrouped()
    ensures Group([]) == []
  {}

  lemma GroupMore(packets: seq<Bytes>, packet: Bytes)
    requires Packet(packet) && forall i :: 0 <= i < |packets| ==> Packet(packets[i])
    ensures forall i :: 0 <= i <= |packets| ==> Packet((packets + [packet])[i])
    ensures Group(packets + [packet]) == AddPacket(Group(packets), packet)
  {
    hide AddPacket, Packet;
    assert (packets + [packet])[..|packets|] == packets;
  }

  /** Adding a packet changes the last frame or starts another. */
  lemma AddsToLast(frames: seq<Frame>, packet: Bytes)
    requires Packet(packet)
    ensures var last := |frames| - 1;
            AddPacket(frames, packet) ==
              if last >= 0 && frames[last].timestamp == Timestamp(packet) then
                frames[last := Frame(frames[last].packets + [packet], frames[last].keyframe || Joinable(packet),
                                     frames[last].timestamp)]
              else frames + [Frame([packet], Joinable(packet), Timestamp(packet))]
  {
    hide Joinable, Timestamp;
  }

  method ParseFixture(fixture: Bytes) returns (r: Result<seq<Frame>>)
    ensures r == Parse(fixture)
  {
    hide Unframe, Joinable, Timestamp, Continue, Group, AddPacket;
    assert Group([]) == [] by { NothingGrouped(); }
    var frames: seq<Frame> := [];
    ghost var packets: seq<Bytes> := [];
    var offset := 0;
    Nothing(fixture);
    while offset + 2 <= |fixture|
      invariant 0 <= offset <= |fixture|
      invariant forall i :: 0 <= i < |packets| ==> Packet(packets[i])
      invariant frames == Group(packets)
      invariant Unframe(fixture) == Continue(packets, Unframe(fixture[offset..]))
      decreases |fixture| - offset
    {
      var length := ReadU16(fixture, offset);
      Refused(packets, fixture, offset);
      if length < HEADER + 1 || offset + 2 + length > |fixture| { return Err("fixture is not a framed RTP recording"); }
      var packet := fixture[offset + 2..offset + 2 + length];
      OneMore(packets, packet, fixture, offset);
      offset := offset + 2 + length;
      AddsToLast(frames, packet);
      var last := |frames| - 1;
      if last >= 0 && frames[last].timestamp == Timestamp(packet) {
        frames := frames[last := Frame(frames[last].packets + [packet], frames[last].keyframe || Joinable(packet),
                                       frames[last].timestamp)];
      } else {
        frames := frames + [Frame([packet], Joinable(packet), Timestamp(packet))];
      }
      GroupMore(packets, packet);
      packets := packets + [packet];
    }
    Finished(packets, fixture, offset);
    var i := 0;
    while i < |frames| && !frames[i].keyframe
      invariant 0 <= i <= |frames| && forall k :: 0 <= k < i ==> !frames[k].keyframe
    {
      i := i + 1;
    }
    if i == |frames| { return Err("fixture contains no keyframe"); }
    r := Ok(frames);
  }

  class FixtureSource {
    const fixture: Bytes
    var recording: seq<Frame>
    var cursor: nat
    var sequence: nat
    var timestamp: Uint32
    /** Everything handed to the packet sink. */
    ghost var emitted: seq<Bytes>

    ghost predicate Valid()
      reads this
    {
      && (recording == [] || Parse(fixture) == Ok(recording))
      && (recording == [] ==> cursor == 0)
      && (recording != [] ==> FramesOk(recording) && HasKeyframe(recording) && cursor < |recording|)
    }

    ghost function View(): Player
      reads this
    {
      Player(cursor, sequence, timestamp, emitted)
    }

    constructor (fixture: Bytes)
      ensures Valid() && recording == [] && View() == Player(0, 0, 0, []) && this.fixture == fixture
    {
      this.fixture := fixture;
      recording, cursor, sequence, timestamp := [], 0, 0, 0;
      emitted := [];
    }

    /** Parse, then play the first frame before returning. */
    method Start() returns (r: Result<()>)
      requires Valid()
      modifies this
      ensures Valid() && r.Ok? == Parse(fixture).Ok?
      ensures r.Ok? ==> recording == Parse(fixture).value && recording != [] && old(cursor) < |recording|
                        && FramesOk(recording) && View() == F.Play(recording, old(View()))
      ensures r.Err? ==> View() == old(View()) && recording == old(recording)
    {
      var parsed := ParseFixture(fixture);
      if parsed.Err? { return Err(parsed.reason); }
      ParsedFrames(fixture);
      recording := parsed.value;
      Play();
      r := Ok(());
    }

    /** Emit one frame under the player's own numbering. */
    method Play()
      requires Valid() && recording != []
      modifies this`cursor, this`sequence, this`timestamp, this`emitted
      ensures Valid() && View() == F.Play(recording, old(View()))
    {
      hide Rewrite, RewriteAll, Delay, Parse, HasKeyframe;
      var frame := recording[cursor];
      assert FrameOk(frame);
      var held := Delay(recording, cursor);
      cursor := (cursor + 1) % |recording|;
      var k := 0;
      RewriteNone(sequence, timestamp);
      while k < |frame.packets|
        invariant 0 <= k <= |frame.packets| && sequence == old(sequence) + k
        invariant cursor == (old(cursor) + 1) % |recording| && timestamp == old(timestamp)
        invariant emitted == old(emitted) + RewriteAll(frame.packets[..k], old(sequence), timestamp)
      {
        var copy := Copy(frame.packets[k], sequence, timestamp);
        RewriteOneMore(frame.packets, k, old(sequence), timestamp);
        emitted := emitted + [copy[..]];
        sequence := sequence + 1;
        k := k + 1;
      }
      assert frame.packets[..k] == frame.packets;
      timestamp := (timestamp + TICKS_PER_MS * held) % U32;
    }

    /** A copy of a packet, its sequence number and timestamp rewritten in place. */
    method Copy(packet: Bytes, number: nat, time: Uint32) returns (copy: array<Byte>)
      requires Packet(packet)
      ensures fresh(copy) && copy[..] == Rewrite(packet, number, time)
    {
      copy := new Byte[|packet|](i requires 0 <= i < |packet| => packet[i]);
      var high, low := U16Bytes(number % U16), U32Bytes(time);
      copy[2], copy[3] := high[0], high[1];
      copy[4], copy[5], copy[6], copy[7] := low[0], low[1], low[2], low[3];
      assert copy[..] == packet[..2] + high + low + packet[8..];
    }

    /** Resume from the next joinable frame, past the last one from the first. */
    method RequestKeyframe()
      requires Valid()
      modifies this`cursor
      ensures Valid()
      ensures View() == if recording == [] then old(View()) else F.Seek(recording, old(View()))
    {
      if recording == [] { return; }
      var at := cursor;
      while at < |recording| && !recording[at].keyframe
        invariant cursor <= at <= |recording| && NextKeyframe(recording, at) == NextKeyframe(recording, cursor)
      {
        at := at + 1;
      }
      if at == |recording| {
        at := 0;
        while !recording[at].keyframe
          invariant 0 <= at < |recording| && NextKeyframe(recording, at) == NextKeyframe(recording, 0)
          invariant exists i :: at <= i < |recording| && recording[i].keyframe
          decreases |recording| - at
        {
          at := at + 1;
        }
      }
      cursor := at;
    }
  }

  lemma RewriteNone(sequence: nat, timestamp: Uint32)
    ensures RewriteAll([], sequence, timestamp) == []
  {}

  lemma RewriteOneMore(packets: seq<Bytes>, k: nat, sequence: nat, timestamp: Uint32)
    requires k < |packets| && forall p :: 0 <= p < |packets| ==> Packet(packets[p])
    ensures RewriteAll(packets[..k + 1], sequence, timestamp) ==
            RewriteAll(packets[..k], sequence, timestamp) + [Rewrite(packets[k], sequence + k, timestamp)]
  {
    assert packets[..k + 1][..k] == packets[..k];
  }

  lemma ParsedFrames(fixture: Bytes)
    requires Parse(fixture).Ok?
    ensures var frames := Parse(fixture).value; FramesOk(frames) && HasKeyframe(frames) && frames != []
  {
    GroupKeeps(Unframe(fixture).value);
  }
}
