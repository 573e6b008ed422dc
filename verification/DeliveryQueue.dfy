/** The send queue as an object that owns its payload buffers: what it stores and what it shows are copies. */
module DeliveryQueues {
  import opened Basics
  import Q = QueueModel
  import opened QueueModel
  import opened Validation

  /** A registered stream; `messages` are buffers of the queue's own. */
  datatype Held = Held(policy: Policy, maxMessages: Positive, messages: seq<array<Byte>>, stopped: bool)

  /** Every buffer the queue owns. */
  ghost function Stored(streams: map<string, Held>): set<array<Byte>> {
    set id, i | id in streams && 0 <= i < |streams[id].messages| :: streams[id].messages[i]
  }

  predicate At(streams: map<string, Held>, id: string, i: int) {
    id in streams && 0 <= i < |streams[id].messages|
  }

  /** No buffer is stored twice. */
  ghost predicate Apart(streams: map<string, Held>) {
    forall id, i, other, j :: At(streams, id, i) && At(streams, other, j) && (id != other || i != j) ==>
      streams[id].messages[i] != streams[other].messages[j]
  }

  /** The buffers hold the payloads the stream is to deliver. */
  ghost predicate Mirrors(h: Held, s: Stream)
    reads h.messages
  {
    && h.policy == s.policy && h.maxMessages == s.maxMessages && h.stopped == s.stopped
    && |h.messages| == |s.pending| && forall i :: 0 <= i < |h.messages| ==> h.messages[i][..] == s.pending[i]
  }

  /** The buffers of every stream hold what its model says, and none of them is stored twice. */
  ghost predicate Holds(streams: map<string, Held>, model: map<string, Stream>)
    reads Stored(streams)
  {
    && streams.Keys == model.Keys && Apart(streams)
    && (forall id :: id in streams ==> (StoredHas(streams, id); Mirrors(streams[id], model[id])))
  }

  lemma StoredHas(streams: map<string, Held>, id: string)
    requires id in streams
    ensures forall buffer :: buffer in streams[id].messages ==> buffer in Stored(streams)
  {}

  /** One stream changes, to one whose buffers are its own. */
  lemma ReplaceHolds(streams: map<string, Held>, model: map<string, Stream>, id: string, h: Held, s: Stream)
    requires Holds(streams, model) && Mirrors(h, s) && Apart(streams[id := h])
    ensures Holds(streams[id := h], model[id := s])
  {
    hide Apart, Stored;
    var later := streams[id := h];
    forall other | other in later ensures Mirrors(later[other], model[id := s][other]) {
      if other != id { assert Mirrors(streams[other], model[other]); }
    }
  }

  /** A stream that keeps only its latest messages. */
  lemma ShortenApart(streams: map<string, Held>, id: string, h: Held, from: nat)
    requires Apart(streams) && id in streams && from <= |streams[id].messages|
    requires h.messages == streams[id].messages[from..]
    ensures Apart(streams[id := h]) && Stored(streams[id := h]) <= Stored(streams)
    ensures from == 1 ==> Stored(streams[id := h]) == Stored(streams) - {streams[id].messages[0]}
  {
    var later := streams[id := h];
    forall other, i | At(later, other, i)
      ensures At(streams, other, if other == id then i + from else i)
      ensures later[other].messages[i] == streams[other].messages[if other == id then i + from else i]
    {}
    if from == 1 {
      forall other, i | At(streams, other, i) && (other != id || i != 0)
        ensures streams[other].messages[i] in Stored(later)
      {
        var k := if other == id then i - 1 else i;
        assert At(later, other, k) && later[other].messages[k] == streams[other].messages[i];
      }
      assert At(streams, id, 0);
    }
  }

  /** A stream that stores one more buffer. */
  lemma AppendApart(streams: map<string, Held>, id: string, h: Held, buffer: array<Byte>)
    requires Apart(streams) && id in streams && h.messages == streams[id].messages + [buffer]
    requires buffer !in Stored(streams)
    ensures Apart(streams[id := h]) && Stored(streams[id := h]) == Stored(streams) + {buffer}
  {
    var later, last := streams[id := h], |streams[id].messages|;
    assert At(later, id, last) && later[id].messages[last] == buffer;
    forall other, i | At(later, other, i) && (other != id || i != last)
      ensures At(streams, other, i) && later[other].messages[i] == streams[other].messages[i]
      ensures later[other].messages[i] in Stored(streams)
    {}
    forall other, i | At(streams, other, i) ensures streams[other].messages[i] in Stored(later) {
      assert At(later, other, i);
    }
  }

  lemma RemoveHolds(streams: map<string, Held>, model: map<string, Stream>, id: string)
    requires Holds(streams, model)
    ensures Holds(streams - {id}, model - {id}) && Stored(streams - {id}) <= Stored(streams)
  {
    var later := streams - {id};
    forall other, i | At(later, other, i)
      ensures At(streams, other, i) && later[other].messages[i] == streams[other].messages[i] {}
    forall other | other in later ensures Mirrors(later[other], (model - {id})[other]) {
      assert Mirrors(streams[other], model[other]);
    }
  }

  lemma SameApart(streams: map<string, Held>, id: string, h: Held)
    requires Apart(streams) && id in streams && h.messages == streams[id].messages
    ensures Apart(streams[id := h]) && Stored(streams[id := h]) == Stored(streams)
  {
    var later := streams[id := h];
    forall other, i | At(later, other, i) || At(streams, other, i)
      ensures At(streams, other, i) && At(later, other, i) && later[other].messages[i] == streams[other].messages[i] {}
  }

  lemma CopyApart(streams: map<string, Held>, model: map<string, Stream>, id: string, h: Held, buffer: array<Byte>,
                  payload: Bytes)
    requires Holds(streams, model) && id in streams && h == streams[id] && buffer !in Stored(streams)
    requires buffer[..] == payload
    ensures var longer := h.(messages := h.messages + [buffer]);
            && Apart(streams[id := longer]) && Stored(streams[id := longer]) == Stored(streams) + {buffer}
            && Mirrors(longer, model[id].(pending := model[id].pending + [payload]))
  {
    hide Apart, Stored;
    AppendApart(streams, id, h.(messages := h.messages + [buffer]), buffer);
    AppendMirrors(h, model[id], buffer, payload);
  }

  lemma AppendMirrors(h: Held, s: Stream, buffer: array<Byte>, payload: Bytes)
    requires Mirrors(h, s) && buffer[..] == payload
    ensures Mirrors(h.(messages := h.messages + [buffer]), s.(pending := s.pending + [payload]))
  {}

  lemma EmptyApart(streams: map<string, Held>, id: string, h: Held)
    requires Apart(streams) && id !in streams && h.messages == []
    ensures Apart(streams[id := h]) && Stored(streams[id := h]) == Stored(streams)
  {
    var later := streams[id := h];
    forall other, i | At(later, other, i) || At(streams, other, i)
      ensures At(streams, other, i) && At(later, other, i) && later[other].messages[i] == streams[other].messages[i] {}
  }

  lemma EmptyMirrors(h: Held, s: Stream)
    requires h.policy == s.policy && h.maxMessages == s.maxMessages && h.stopped == s.stopped
    requires h.messages == [] && s.pending == []
    ensures Mirrors(h, s)
  {}

  class DeliveryQueue {
    const maxStreams: Positive
    const maxBytes: Positive
    const maxMessageBytes: Positive
    var streams: map<string, Held>
    var bytes: int
    var dropped: nat
    /** The streams with their payloads and their history. */
    ghost var model: map<string, Stream>
    ghost var retired: nat

    ghost function View(): Queue
      reads this
    {
      Queue(maxStreams, maxBytes, maxMessageBytes, model, bytes, dropped, retired)
    }

    /** The buffers that nobody but the queue may write. */
    ghost function Repr(): set<array<Byte>>
      reads this
    {
      Stored(streams)
    }

    ghost predicate Valid()
      reads this, Repr()
    {
      Holds(streams, model)
    }

    constructor (maxStreams: Positive, maxBytes: Positive, maxMessageBytes: Positive)
      ensures Valid() && Repr() == {} && View() == Initial(maxStreams, maxBytes, maxMessageBytes)
    {
      this.maxStreams, this.maxBytes, this.maxMessageBytes := maxStreams, maxBytes, maxMessageBytes;
      streams, bytes, dropped, model, retired := map[], 0, 0, map[], 0;
    }

    method Register(id: string, policy: Policy, maxMessages: int) returns (r: Result<()>)
      requires Valid()
      modifies this
      ensures Valid() && Repr() == old(Repr())
      ensures (View(), r) == Q.Register(old(View()), id, policy, maxMessages)
    {
      hide Apart, Stored, Mirrors;
      if !Identifier(id) { return Err("invalid_identifier"); }
      if !PositiveLimit(maxMessages) { return Err("invalid_limit"); }
      if policy == Latest && maxMessages != 1 { return Err("invalid_limit"); }
      if id in streams { return Err("duplicate_stream"); }
      assert |streams.Keys| == |model.Keys|;
      if |streams| >= maxStreams { return Err("stream_limit"); }
      EmptyApart(streams, id, Held(policy, maxMessages, [], false));
      EmptyMirrors(Held(policy, maxMessages, [], false), Stream(policy, maxMessages, [], false, [], [], 0));
      ReplaceHolds(streams, model, id, Held(policy, maxMessages, [], false),
        Stream(policy, maxMessages, [], false, [], [], 0));
      streams := streams[id := Held(policy, maxMessages, [], false)];
      model := model[id := Stream(policy, maxMessages, [], false, [], [], 0)];
      r := Ok(());
    }

    function Lookup(id: string): (stream: Result<Held>)
      requires Valid()
      reads this, Repr()
      ensures stream.Err? <==> Running(View(), id).Err?
      ensures if stream.Err? then stream.reason == Running(View(), id).reason
              else id in streams && stream.value == streams[id] && Running(View(), id).value == model[id]
    {
      if id !in streams then Err("unknown_stream")
      else if streams[id].stopped then Err("slow_consumer")
      else Ok(streams[id])
    }

    /** What `Valid` says of one stream. */
    lemma Agrees(id: string)
      requires Valid() && id in streams
      ensures id in model && Apart(streams)
      ensures var h, s := streams[id], model[id];
              && h.policy == s.policy && h.maxMessages == s.maxMessages && h.stopped == s.stopped
              && |h.messages| == |s.pending| && forall i :: 0 <= i < |h.messages| ==> h.messages[i][..] == s.pending[i]
    {
      hide Apart, Stored;
      assert Mirrors(streams[id], model[id]);
    }

    /** Put a stream in place of one, with its model. */
    method Put(id: string, h: Held, ghost s: Stream)
      requires Valid() && id in streams && Mirrors(h, s) && Apart(streams[id := h])
      modifies this`streams, this`model
      ensures Valid() && streams == old(streams)[id := h] && model == old(model)[id := s]
    {
      ReplaceHolds(streams, model, id, h, s);
      streams, model := streams[id := h], model[id := s];
    }

    /** Change anything about a stream but what it stores. */
    method Revise(id: string, h: Held, ghost s: Stream)
      requires Valid() && id in streams && id in model
      requires h.messages == streams[id].messages && s.pending == model[id].pending
      requires h.policy == s.policy && h.maxMessages == s.maxMessages && h.stopped == s.stopped
      modifies this`streams, this`model
      ensures Valid() && Repr() == old(Repr()) && streams == old(streams)[id := h] && model == old(model)[id := s]
    {
      hide Apart, Stored;
      SameApart(streams, id, h);
      assert Mirrors(h, s) by { assert Mirrors(streams[id], model[id]); }
      Put(id, h, s);
    }

    /** Give back the bytes of every pending message of a stream, and the buffers. */
    method Release(id: string)
      requires Valid() && id in streams
      modifies this`streams, this`model, this`bytes
      ensures Valid() && Repr() <= old(Repr())
      ensures streams == old(streams)[id := old(streams[id]).(messages := [])]
      ensures model == old(model)[id := old(model[id]).(pending := [])]
      ensures bytes == old(bytes) - Weight(old(model[id]).pending)
    {
      var h := streams[id];
      ghost var pending := model[id].pending;
      for i := 0 to |h.messages|
        modifies this`bytes
        invariant bytes - Weight(pending[i..]) == old(bytes) - Weight(pending)
      {
        assert pending[i..][1..] == pending[i + 1..] && h.messages[i][..] == pending[i];
        bytes := bytes - h.messages[i].Length;
      }
      ShortenApart(streams, id, h.(messages := []), |h.messages|);
      EmptyMirrors(h.(messages := []), model[id].(pending := []));
      Put(id, h.(messages := []), model[id].(pending := []));
    }

    static method Copy(payload: Bytes) returns (buffer: array<Byte>)
      ensures fresh(buffer) && buffer[..] == payload
    {
      buffer := new Byte[|payload|](i requires 0 <= i < |payload| => payload[i]);
    }

    method CountDropped(n: nat)
      requires Valid()
      modifies this`dropped
      ensures Valid() && dropped == old(dropped) + n
    {
      dropped := dropped + n;
    }

    /** A latest stream discards the sample it holds. */
    method Evict(id: string)
      requires Valid() && id in streams && id in model
      modifies this
      ensures Valid() && Repr() <= old(Repr()) && id in streams
      ensures View() == MakeRoom(old(View()), id)
    {
      hide Apart, Mirrors, Stored;
      Agrees(id);
      var h := streams[id];
      if h.policy == Latest && |h.messages| > 0 {
        CountDropped(|h.messages|);
        Release(id);
        Revise(id, streams[id], model[id].(lost := model[id].lost + |h.messages|));
      }
      assert model == old(model)[id := model[id]];
    }

    /** Store a copy of the message: true if stored, false if dropped. */
    method Enqueue(id: string, message: array<Byte>) returns (r: Result<bool>)
      requires Valid()
      modifies this
      ensures Valid() && fresh(Repr() - old(Repr()))
      ensures (View(), r) == Q.Enqueue(old(View()), id, old(message[..]))
    {
      hide Holds, Apart, Admit, MakeRoom;
      var stream := Lookup(id);
      if stream.Err? { return Err(stream.reason); }
      if message.Length == 0 || message.Length > maxMessageBytes { return Err("message_size"); }
      Evict(id);
      r := Store(id, message);
    }

    /** The capacity decision of `Enqueue`. */
    method Store(id: string, message: array<Byte>) returns (r: Result<bool>)
      requires Valid() && id in streams
      modifies this
      ensures Valid() && fresh(Repr() - old(Repr()))
      ensures (View(), r) == Admit(old(View()), id, old(message[..]))
    {
      hide Holds, Stored;
      Agrees(id);
      if |streams[id].messages| >= streams[id].maxMessages || message.Length > maxBytes - bytes {
        r := Refuse(id, message);
      } else {
        Keep(id, message);
        r := Ok(true);
      }
    }

    /** Stop a reliable stream that has no room, drop the sample of a latest one. */
    method Refuse(id: string, message: array<Byte>) returns (r: Result<bool>)
      requires Valid() && id in streams && id in model
      requires |model[id].pending| >= model[id].maxMessages || message.Length > maxBytes - bytes
      modifies this
      ensures Valid() && Repr() <= old(Repr())
      ensures (View(), r) == Admit(old(View()), id, old(message[..]))
    {
      hide Apart, Mirrors, Stored;
      Agrees(id);
      ghost var s := model[id];
      if streams[id].policy == Reliable {
        Release(id);
        Revise(id, streams[id].(stopped := true), model[id].(stopped := true, offered := s.offered + [message[..]]));
        assert model == old(model)[id := model[id]];
        return Err("slow_consumer");
      }
      CountDropped(1);
      Revise(id, streams[id], s.(offered := s.offered + [message[..]], lost := s.lost + 1));
      r := Ok(false);
    }

    /** A copy of the message becomes the last pending one. */
    method Keep(id: string, message: array<Byte>)
      requires Valid() && id in streams && id in model
      modifies this`streams, this`model, this`bytes
      ensures Valid() && fresh(Repr() - old(Repr())) && bytes == old(bytes) + message.Length
      ensures var s, payload := old(model)[id], old(message[..]);
              model == old(model)[id := s.(pending := s.pending + [payload], offered := s.offered + [payload])]
    {
      var h := streams[id];
      ghost var s, payload := model[id], message[..];
      var copy := Copy(message[..]);
      CopyApart(streams, model, id, h, copy, payload);
      bytes := bytes + copy.Length;
      Put(id, h.(messages := h.messages + [copy]),
        s.(pending := s.pending + [payload], offered := s.offered + [payload]));
    }

    /** Remove the head and hand its buffer to the caller. */
    method Dequeue(id: string) returns (r: Result<Option<array<Byte>>>)
      requires Valid()
      modifies this
      ensures Valid()
      ensures var (later, answer) := Q.Dequeue(old(View()), id);
              && View() == later && r.Err? == answer.Err? && (r.Err? ==> r.reason == answer.reason)
              && (r.Ok? ==> r.value.Some? == answer.value.Some?)
              && (r.Ok? && r.value.Some? ==> r.value.value[..] == answer.value.value)
      ensures Repr() == old(Repr()) - if r.Ok? && r.value.Some? then {r.value.value} else {}
      ensures r.Ok? && r.value.Some? ==> r.value.value in old(Repr())
    {
      var stream := Lookup(id);
      if stream.Err? { return Err(stream.reason); }
      var h := stream.value;
      ghost var s := model[id];
      if h.messages == [] { return Ok(None); }
      var head := h.messages[0];
      StoredHas(streams, id);
      ShortenApart(streams, id, h.(messages := h.messages[1..]), 1);
      Put(id, h.(messages := h.messages[1..]), s.(pending := s.pending[1..], taken := s.taken + [Oldest(s)]));
      bytes := bytes - head.Length;
      r := Ok(Some(head));
    }

    /** A copy of the unsent head. */
    method Peek(id: string) returns (r: Result<Option<array<Byte>>>)
      requires Valid()
      ensures var answer := Q.Peek(View(), id);
              && r.Err? == answer.Err? && (r.Err? ==> r.reason == answer.reason)
              && (r.Ok? ==> r.value.Some? == answer.value.Some?)
              && (r.Ok? && r.value.Some? ==> fresh(r.value.value) && r.value.value[..] == answer.value.value)
    {
      var stream := Lookup(id);
      if stream.Err? { return Err(stream.reason); }
      if stream.value.messages == [] { return Ok(None); }
      var buffer := Copy(stream.value.messages[0][..]);
      r := Ok(Some(buffer));
    }

    method CloseStream(id: string) returns (r: Result<()>)
      requires Valid()
      modifies this
      ensures Valid() && Repr() <= old(Repr())
      ensures (View(), r) == Q.CloseStream(old(View()), id)
    {
      hide Apart, Mirrors;
      if id !in streams { return Err("unknown_stream"); }
      Release(id);
      RemoveHolds(streams, model, id);
      retired := retired + model[id].lost;
      streams, model := streams - {id}, model - {id};
      assert model == old(model) - {id};
      r := Ok(());
    }

    method Clear()
      modifies this
      ensures Valid() && Repr() == {} && View() == Q.Clear(old(View()))
    {
      streams, bytes, model := map[], 0, map[];
      retired := dropped;
    }
  }

  method Overwrite(buffer: array<Byte>, junk: Byte)
    modifies buffer
    ensures forall i :: 0 <= i < buffer.Length ==> buffer[i] == junk
  {
    for i := 0 to buffer.Length
      invariant forall k :: 0 <= k < i ==> buffer[k] == junk
    {
      buffer[i] := junk;
    }
  }

  /** Offering a buffer, and writing it right after. */
  method OfferAndReuse(queue: DeliveryQueue, id: string, buffer: array<Byte>, junk: Byte) returns (stored: Result<bool>)
    requires queue.Valid() && buffer !in queue.Repr()
    modifies queue, buffer
    ensures (queue.View(), stored) == Q.Enqueue(old(queue.View()), id, old(buffer[..]))
    ensures queue.Valid() && fresh(queue.Repr() - old(queue.Repr()))
    ensures forall i :: 0 <= i < buffer.Length ==> buffer[i] == junk
  {
    hide Apart, Q.Enqueue;
    stored := queue.Enqueue(id, buffer);
    Overwrite(buffer, junk);
  }

  /** Looking at the head, and writing what was shown. */
  method LookAndReuse(queue: DeliveryQueue, id: string, junk: Byte) returns (shown: Result<Option<Bytes>>)
    requires queue.Valid()
    ensures shown == Q.Peek(queue.View(), id) && queue.Valid()
  {
    hide Apart, Q.Peek;
    var head := queue.Peek(id);
    if head.Err? { return Err(head.reason); }
    if head.value.None? { return Ok(None); }
    shown := Ok(Some(head.value.value[..]));
    Overwrite(head.value.value, junk);
  }

  /** Taking the head, and writing it. */
  method TakeAndReuse(queue: DeliveryQueue, id: string, junk: Byte) returns (delivered: Result<Option<Bytes>>)
    requires queue.Valid()
    modifies queue, queue.Repr()
    ensures (queue.View(), delivered) == Q.Dequeue(old(queue.View()), id)
    ensures queue.Valid() && queue.Repr() <= old(queue.Repr())
  {
    hide Apart, Q.Dequeue;
    var head := queue.Dequeue(id);
    if head.Err? { return Err(head.reason); }
    if head.value.None? { return Ok(None); }
    delivered := Ok(Some(head.value.value[..]));
    Overwrite(head.value.value, junk);
  }

  /**
   * Callers own the buffers they offer, are shown and are handed, and may write them all. Whatever the stream
   * and whatever it holds, the queue shows and delivers what was offered, and keeps what it should.
   */
  method ReuseBuffers(queue: DeliveryQueue, id: string, buffer: array<Byte>, junk: Byte)
    returns (stored: Result<bool>, shown: Result<Option<Bytes>>, delivered: Result<Option<Bytes>>)
    requires queue.Valid() && buffer !in queue.Repr()
    modifies queue, buffer, queue.Repr()
    ensures var (offered, answer) := Q.Enqueue(old(queue.View()), id, old(buffer[..]));
            && stored == answer && shown == Q.Peek(offered, id)
            && (queue.View(), delivered) == Q.Dequeue(offered, id)
    ensures queue.Valid() && buffer !in queue.Repr()
  {
    hide Holds, Stored, Q.Enqueue, Q.Peek, Q.Dequeue;
    stored := OfferAndReuse(queue, id, buffer, junk);
    shown := LookAndReuse(queue, id, junk);
    delivered := TakeAndReuse(queue, id, junk);
  }
}
