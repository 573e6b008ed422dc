/** What every turn of a session keeps, whatever its surroundings answer. */
module RouterSafety {
  import opened Basics
  import opened MediaTypes
  import opened QueueModel
  import opened DeliveryModel
  import opened DeliverySafety
  import opened RouterModel
  import C = CacheModel
  import V = VideoModel
  import QueueSafety
  import Decimal
  import Validation

  /** Between turns: the delivery invariant, and no stream of an open session stopped. */
  ghost predicate Sound(c: Core) {
    Inv(c) && Flowing(c)
  }

  predicate FlagsAgree(bound: seq<V.Binding>) {
    forall i :: 0 <= i < |bound| ==> bound[i].watching == bound[i].attached
  }

  predicate Silent(c: Core) {
    c.queue.streams == map[] && c.subs == []
  }

  /** The flags of a track agree, and a closed session has released everything unless the plane kept it from it. */
  predicate Settled(r: Router) {
    FlagsAgree(r.video.bound) && (r.core.closed && !r.world.planeDown ==> Silent(r.core))
  }

  ghost predicate Good(r: Router) {
    Sound(r.core) && Settled(r)
  }

  /** Within a turn the control stream may have overflowed, which only reporting notices. */
  predicate Nearly(c: Core) {
    !c.closed ==> forall id :: id in c.queue.streams && id != CONTROL ==> !c.queue.streams[id].stopped
  }

  lemma EnqueueControlNearly(c: Core, bytes: Bytes)
    requires Inv(c) && Nearly(c)
    ensures var (later, threw) := EnqueueControl(c, bytes);
            Inv(later) && Nearly(later) && later.closed == c.closed && (!threw ==> Flowing(later))
  {
    hide Inv, Enqueue;
    EnqueueControlKeeps(c, bytes);
    EnqueueEffect(c.queue, CONTROL, bytes);
    var queue := Enqueue(c.queue, CONTROL, bytes).0;
    assert EnqueueControl(c, bytes).0 == c.(queue := queue);
    assert forall id :: id in queue.streams && id != CONTROL ==> queue.streams[id] == c.queue.streams[id];
  }

  lemma RespondKeeps(r: Router, wire: Wire)
    requires Inv(r.core) && Nearly(r.core)
    ensures var (later, threw) := Respond(r, wire);
            && Inv(later.core) && Nearly(later.core) && later.core.closed == r.core.closed
            && (!threw ==> Sound(later.core))
  {
    hide Inv, Nearly, Flowing, EnqueueControl;
    if !r.core.closed { EnqueueControlNearly(r.core, r.core.plan.encode(wire)); }
  }

  // ---- Draining ----

  /** What a stream must be before its head may be handed over. */
  predicate Drainable(c: Core, id: string) {
    && !c.closed && id in c.queue.streams
    && (id != CONTROL ==> ControlQueued(c.queue) == 0 && AuthorizedAt(c.trace, |c.trace|, id))
  }

  lemma HandOverDrainable(c: Core, id: string, payload: Bytes)
    requires Sound(c) && Drainable(c, id) && Peek(c.queue, id) == Ok(Some(payload))
    ensures Sound(HandOver(c, id, payload)) && Drainable(HandOver(c, id, payload), id)
  {
    hide Inv, Flowing, AuthorizedAt, HandOver;
    HandOverKeeps(c, id, payload);
    HandOverFlows(c, id, payload);
    HandOverStays(c, id, payload);
  }

  lemma HandOverStays(c: Core, id: string, payload: Bytes)
    requires Peek(c.queue, id) == Ok(Some(payload))
    ensures id in HandOver(c, id, payload).queue.streams
  {}

  /** A flowing stream can always be looked at. */
  lemma PeekWorks(c: Core, id: string)
    requires Flowing(c) && !c.closed && id in c.queue.streams
    ensures Peek(c.queue, id).Ok?
    ensures id == CONTROL && Peek(c.queue, id).value.None? ==> ControlQueued(c.queue) == 0
  {}

  lemma {:induction false} DrainKeeps(r: Router, id: string)
    requires Sound(r.core) && Drainable(r.core, id)
    ensures var (later, outcome) := Drain(r, id);
            && Sound(later.core) && Drainable(later.core, id) && !outcome.Threw?
            && (id == CONTROL && outcome.Emptied? ==> ControlQueued(later.core.queue) == 0)
    decreases Pending(r.core, id)
  {
    hide Sound, HandOver, ControlQueued, AuthorizedAt;
    OpenSound(r.core);
    PeekWorks(r.core, id);
    var next := Peek(r.core.queue, id);
    if next.value.Some? {
      var (sent, asked) := Ask(r);
      if sent {
        HandOverDrainable(asked.core, id, next.value.value);
        HandOverShrinks(asked.core, id, next.value.value);
        DrainKeeps(asked.(core := HandOver(asked.core, id, next.value.value)), id);
      }
    }
  }

  lemma OpenSound(c: Core)
    requires Sound(c)
    ensures Inv(c) && Flowing(c) && Nearly(c)
  {}

  lemma HandOverShrinks(c: Core, id: string, payload: Bytes)
    requires Peek(c.queue, id) == Ok(Some(payload))
    ensures Pending(HandOver(c, id, payload), id) < Pending(c, id)
  {}

  lemma GrantDrainable(c: Core, id: string)
    requires Sound(c) && !c.closed && Has(c, id) && ControlQueued(c.queue) == 0
    ensures Sound(Grant(c, id)) && Drainable(Grant(c, id), id)
  {
    hide TraceOk, NamesOk, StreamsOk, AuthorizedAt, ControlQueued, QueueSafety.StreamsSafe;
    GrantKeeps(c, id);
    SubKnown(c, id);
    assert Flowing(Grant(c, id));
  }

  lemma HasNth(c: Core, i: nat)
    requires i < |c.subs|
    ensures Has(c, c.subs[i].id)
  {
    assert c.subs[i].id == c.subs[i].id;
  }

  lemma {:induction false} DrainSubsKeeps(r: Router, i: nat)
    requires Good(r) && !r.core.closed && ControlQueued(r.core.queue) == 0
    ensures Good(DrainSubs(r, i).0)
    decreases Load(r), 1, |r.core.subs| - i
  {
    hide Sound, Flowing, Inv, Silent, FlagsAgree, ControlQueued, AuthorizedAt, Peek, Grant, Expel;
    hide Drain, Revalidate, Flush, Event, Notice, Error;
    if i < |r.core.subs| {
      var sub := r.core.subs[i];
      HasNth(r.core, i);
      var (granted, asked) := Permitted(r, sub.topic, RosToWeb);
      if !granted {
        var (failed, after) := Ask(asked.(core := Expel(asked.core, sub.id)));
        OpenSound(asked.core);
        ExpelKeeps(asked.core, sub.id);
        MakeSound(after.core);
        ExpelOpen(asked.core, sub.id);
        if !failed { ErrorKeeps(after, None); }
      } else {
        var ready := asked.(core := Grant(asked.core, sub.id));
        GrantDrainable(asked.core, sub.id);
        DrainKeeps(ready, sub.id);
        GrantSubs(asked.core, sub.id);
        var (drained, outcome) := Drain(ready, sub.id);
        if outcome.Emptied? {
          DataDrainable(drained.core, sub.id, asked.core);
          DrainSubsKeeps(drained, i + 1);
        }
      }
    }
  }

  lemma ExpelOpen(c: Core, id: string)
    requires Has(c, id)
    ensures Expel(c, id).closed == c.closed
  {}

  lemma GrantSubs(c: Core, id: string)
    ensures Grant(c, id).subs == c.subs
  {}

  lemma DataDrainable(c: Core, id: string, before: Core)
    requires Drainable(c, id) && Has(before, id) && Sound(before) && !before.closed
    ensures ControlQueued(c.queue) == 0 && !c.closed
  {
    hide ControlQueued, AuthorizedAt, TraceOk, StreamsOk, QueueSafety.StreamsSafe;
    SubKnown(before, id);
  }

  lemma MakeSound(c: Core)
    requires Inv(c) && Flowing(c)
    ensures Sound(c) && Nearly(c)
  {}

  // ---- Flushing, reporting, revoking ----

  lemma LetGoSettled(r: Router, i: nat)
    requires Good(r) && i < |r.video.bound|
    ensures Good(RouterModel.LetGo(r, i).0)
  {
    hide Sound, Silent;
  }

  lemma {:induction false} RevalidateKeeps(r: Router, i: nat)
    requires Good(r)
    ensures Good(Revalidate(r, i).0)
    decreases Load(r), 1, |r.video.bound| - i
  {
    hide Sound, FlagsAgree, Silent, Drain, DrainSubs, Flush, Event, Notice, Error;
    if i < |r.video.bound| {
      if !r.video.bound[i].watching {
        RevalidateKeeps(r, i + 1);
      } else {
        var (allowed, asked) := Ask(r);
        if allowed {
          RevalidateKeeps(asked, i + 1);
        } else {
          V.WatchedFlag(r.video, i, false);
          LetGoSettled(asked, i);
          var (released, threw) := RouterModel.LetGo(asked, i);
          if !threw {
            NoticeKeeps(released, i, Failed);
            var (told, failed) := Notice(released, i, Failed);
            if !failed { RevalidateKeeps(told, i + 1); }
          }
        }
      }
    }
  }

  /** A plane that is down throws at the first track to be let go of, before anybody is told anything. */
  lemma {:induction false} RevalidateDown(r: Router, i: nat)
    requires FlagsAgree(r.video.bound) && r.world.planeDown
    ensures Revalidate(r, i).0.core == r.core
    decreases |r.video.bound| - i
  {
    hide Drain, DrainSubs, Flush, Event, Notice, Error;
    if i < |r.video.bound| {
      if r.video.bound[i].watching {
        assert r.video.bound[i].attached;
        var (allowed, asked) := Ask(r);
        if allowed { RevalidateDown(asked, i + 1); }
      } else {
        RevalidateDown(r, i + 1);
      }
    }
  }

  lemma NoticeKeeps(r: Router, i: nat, phase: Phase)
    requires Good(r) && i < |r.video.bound|
    ensures Good(Notice(r, i, phase).0)
    decreases Load(r), 5
  {
    hide Sound, Silent, Drain, DrainSubs, Flush, Event, Revalidate, Error;
    V.WatchedFlag(r.video, i, false);
    var told := if phase == Failed then r.(video := V.FlagAt(r.video, i, false)) else r;
    EventKeeps(told, VideoState(told.video.bound[i].track, told.video.bound[i].slot.mid, phase));
  }

  lemma EventKeeps(r: Router, wire: Wire)
    requires Good(r)
    ensures Good(Event(r, wire).0)
    decreases Load(r), 4
  {
    hide Sound, Inv, Nearly, Silent, FlagsAgree, Respond, Drain, DrainSubs, Flush, Notice, Revalidate, Error;
    OpenSound(r.core);
    RespondKeeps(r, wire);
    RespondSettled(r, wire);
    var (queued, threw) := Respond(r, wire);
    if threw {
      ErrorKeeps(queued, None);
    } else {
      FlushKeeps(queued);
      var (flushed, failed) := Flush(queued);
      if failed { OpenSound(flushed.core); ErrorKeeps(flushed, None); }
    }
  }

  lemma RespondSettled(r: Router, wire: Wire)
    requires Settled(r)
    ensures Settled(Respond(r, wire).0) && (r.core.closed ==> Respond(r, wire) == (r, true))
  {
    hide EnqueueControl;
    EnqueueControlOpen(r.core, r.core.plan.encode(wire));
  }

  lemma EnqueueControlOpen(c: Core, bytes: Bytes)
    ensures EnqueueControl(c, bytes).0 == c.(queue := EnqueueControl(c, bytes).0.queue)
  {}

  lemma ErrorKeeps(r: Router, id: Option<string>)
    requires Inv(r.core) && Nearly(r.core) && Settled(r)
    ensures Good(Error(r, id).0)
    decreases Load(r), 3
  {
    hide Sound, Inv, Nearly, Silent, FlagsAgree, Respond, Drain, DrainSubs, Flush, Notice, Revalidate, Event, Close;
    if r.core.closed {
      ClosedSound(r.core);
    } else {
      RespondKeeps(r, Rejected(id));
      RespondSettled(r, Rejected(id));
      var (queued, threw) := Respond(r, Rejected(id));
      if threw {
        CloseKeeps(queued);
      } else {
        FlushKeeps(queued);
        var (flushed, failed) := Flush(queued);
        if failed { OpenSound(flushed.core); CloseKeeps(flushed); }
      }
    }
  }

  lemma ClosedSound(c: Core)
    requires Inv(c) && c.closed
    ensures Sound(c)
  {}

  lemma FlushKeeps(r: Router)
    requires Good(r)
    ensures Good(Flush(r).0)
    decreases Load(r), 2
  {
    hide Sound, FlagsAgree, Drain, DrainSubs, Notice, Revalidate, Event, Error, ControlQueued, AuthorizedAt;
    if !r.core.closed {
      RevalidateKeeps(r, 0);
      if r.world.planeDown { RevalidateDown(r, 0); }
      var (valid, threw) := Revalidate(r, 0);
      if !threw {
        if valid.core.closed {
          DrainSilent(valid);
        } else {
          ControlDrainable(valid.core);
          DrainKeeps(valid, CONTROL);
          DrainOpen(valid, CONTROL);
          var (drained, outcome) := Drain(valid, CONTROL);
          if outcome.Emptied? { DrainSubsKeeps(drained, 0); }
        }
      }
    }
  }

  lemma DrainSilent(r: Router)
    requires Silent(r.core)
    ensures Drain(r, CONTROL) == (r, Threw)
  {}

  lemma {:induction false} DrainOpen(r: Router, id: string)
    ensures Drain(r, id).0.core.closed == r.core.closed
    decreases Pending(r.core, id)
  {
    var next := Peek(r.core.queue, id);
    if next.Ok? && next.value.Some? {
      var (sent, asked) := Ask(r);
      if sent { DrainOpen(asked.(core := HandOver(asked.core, id, next.value.value)), id); }
    }
  }

  lemma ControlDrainable(c: Core)
    requires Sound(c) && !c.closed
    ensures Drainable(c, CONTROL)
  {}

  // ---- Closing ----

  lemma {:induction false} CloseVideoFlags(r: Router, i: nat)
    requires FlagsAgree(r.video.bound)
    ensures var (later, threw) := CloseVideo(r, i);
            FlagsAgree(later.video.bound) && (threw ==> r.world.planeDown)
    decreases |r.video.bound| - i
  {
    if i < |r.video.bound| {
      var (released, threw) := RouterModel.LetGo(r, i);
      if !threw { CloseVideoFlags(released, i + 1); }
    }
  }

  lemma CloseKeeps(r: Router)
    requires Inv(r.core) && Settled(r)
    ensures Good(Close(r).0) && Close(r).0.core.closed
  {
    hide Sound, Inv, FlagsAgree, CloseVideo, Unlisten, MarkClosed, Empty;
    if r.core.closed {
      ClosedSound(r.core);
    } else {
      MarkClosedKeeps(r.core);
      Marked(r.core);
      var marked := r.(core := MarkClosed(r.core));
      ClosedSound(marked.core);
      CloseVideoFlags(marked, 0);
      var (silent, threw) := CloseVideo(marked, 0);
      if !threw {
        EmptyKeeps(silent.core);
        Emptied(silent.core);
        ClosedSound(Empty(silent.core));
      }
    }
  }

  lemma Marked(c: Core)
    ensures MarkClosed(c).closed
  {}

  lemma Emptied(c: Core)
    ensures Silent(Empty(c)) && Empty(c).closed == c.closed
  {}

  // ---- Samples ----

  /** What giving up a subscription needs of the state it finds. */
  ghost predicate Droppable(r: Router, id: string, denied: bool) {
    && Settled(r)
    && (if Has(r.core, id) then Sound(if denied then Expel(r.core, id) else Remove(r.core, id)) else Sound(r.core))
  }

  lemma RemovedOpen(c: Core, id: string)
    requires Has(c, id)
    ensures Remove(c, id).closed == c.closed && Expel(c, id).closed == c.closed
  {}

  lemma SilentHasNone(c: Core, id: string)
    requires Silent(c)
    ensures !Has(c, id)
  {}

  lemma DropKeeps(r: Router, id: string, denied: bool)
    requires Droppable(r, id, denied)
    ensures Good(Drop(r, id, denied).0)
  {
    hide Sound, Inv, Silent, FlagsAgree, Has, Expel, Remove, Error;
    if !Has(r.core, id) {
      OpenSound(r.core);
      ErrorKeeps(r, None);
    } else {
      RemovedOpen(r.core, id);
      if r.core.closed && !r.world.planeDown { SilentHasNone(r.core, id); }
      var (failed, after) := Ask(r.(core := if denied then Expel(r.core, id) else Remove(r.core, id)));
      OpenSound(after.core);
      if !failed { ErrorKeeps(after, None); }
    }
  }

  lemma GoodDroppable(r: Router, id: string, denied: bool)
    requires Good(r)
    ensures Droppable(r, id, denied)
  {
    hide Inv, Flowing, Expel, Remove;
    if Has(r.core, id) {
      RemoveKeeps(r.core, id);
      ExpelKeeps(r.core, id);
    }
  }

  lemma OfferDroppable(r: Router, id: string, data: Data, nextAt: Time)
    requires Good(r) && !r.core.closed && Has(r.core, id)
    ensures var (core, threw) := Offer(r.core, id, data, nextAt);
            Droppable(r.(core := core), id, false) && (!threw ==> Good(r.(core := core)))
  {
    hide TraceOk, NamesOk, SubsOk, StreamsOk, QueueSafety.StreamsSafe, Flowing, Offer, Remove, Has;
    OfferKeeps(r.core, id, data, nextAt);
    OfferFlows(r.core, id, data, nextAt);
  }

  lemma SampleKeeps(r: Router, id: string, encoded: Option<Data>)
    requires Good(r)
    ensures Good(Sample(r, id, encoded).0)
  {
    hide Good, Sound, Settled, Droppable, Drop, Offer, Flush, Validation.Sequence;
    if Has(r.core, id) && r.core.subs[Find(r.core.subs, id)].ready {
      var sub := r.core.subs[Find(r.core.subs, id)];
      var (granted, asked) := Permitted(r, sub.topic, RosToWeb);
      OtherWorld(r, asked);
      GoodDroppable(asked, id, !granted);
      if !granted {
        DropKeeps(asked, id, true);
      } else {
        var (now, read) := Now(asked);
        OtherWorld(asked, read);
        GoodDroppable(read, id, false);
        DropKeeps(read, id, false);
        if now.Ok? && encoded.Some? {
          var nextAt := now.value + r.core.plan.topics[sub.topic].gapMs;
          OfferDroppable(read, id, encoded.value, nextAt);
          var (core, threw) := Offer(read.core, id, encoded.value, nextAt);
          var offered := read.(core := core);
          if threw {
            DropKeeps(offered, id, false);
          } else {
            FlushKeeps(offered);
            var flushed := Flush(offered).0;
            GoodDroppable(flushed, id, false);
            DropKeeps(flushed, id, false);
          }
        }
      }
    }
  }

  /** Only the core, the flags and the plane matter. */
  lemma OtherWorld(r: Router, later: Router)
    requires later.core == r.core && later.video == r.video && later.world.planeDown == r.world.planeDown
    ensures Good(r) ==> Good(later)
  {}

  // ---- Requests ----

  lemma OpenSubscriptionKeeps(r: Router, topic: string, id: string)
    requires Good(r) && topic in r.core.plan.topics && !r.core.closed
    ensures Good(OpenSubscription(r, topic, id).0)
  {
    hide Inv, FlagsAgree, Silent, Flowing, OpenStream, Registers;
    var (failed, asked) := Ask(r);
    OpenStreamKeeps(r.core, topic, false);
    OpenStreamKeeps(r.core, topic, !failed);
  }

  lemma NextKeeps(c: Core)
    requires Sound(c)
    ensures Sound(c.(nextId := c.nextId + 1))
  {
    hide TraceOk, SubsOk, StreamsOk, QueueSafety.StreamsSafe;
    var later := c.(nextId := c.nextId + 1);
    NextAlone(c, later);
  }

  lemma OpenHandleKeeps(r: Router, body: Body, id: string)
    requires Good(r) && (body.Subscribe? || body.Advertise?)
    ensures Good(OpenHandle(r, body, id).0)
  {
    hide Sound, FlagsAgree, Silent, OpenSubscription, Validation.Identifier;
    if Validation.Identifier(body.topic) {
      var (granted, asked) := Permitted(r, body.topic, if body.Subscribe? then RosToWeb else WebToRos);
      if granted {
        if body.Subscribe? { OpenSubscriptionKeeps(asked, body.topic, id); }
        NextKeeps(asked.core);
      }
    }
  }

  lemma CloseSubscriptionKeeps(r: Router, stream: string, id: string)
    requires Good(r)
    ensures Good(CloseSubscription(r, stream, id).0)
  {
    hide Inv, FlagsAgree, Flowing, Validation.Identifier, Remove;
    if Has(r.core, stream) {
      RemoveKeeps(r.core, stream);
      RemovedOpen(r.core, stream);
    }
  }

  lemma UseHandleKeeps(r: Router, body: Body, id: string)
    requires Good(r) && (body.Unadvertise? || body.Arm?)
    ensures Good(UseHandle(r, body, id).0)
  {
    hide Sound, FlagsAgree, Silent;
  }

  lemma {:induction false} AnnouncedKeeps(r: Router, i: nat, phases: seq<Phase>)
    requires Good(r) && i < |r.video.bound|
    ensures Good(Announced(r, i, phases).0)
    decreases |phases|
  {
    hide Good, Notice;
    if phases != [] {
      NoticeKeeps(r, i, phases[0]);
      var (told, threw) := Notice(r, i, phases[0]);
      if !threw { AnnouncedKeeps(told, i, phases[1..]); }
    }
  }

  lemma BindAgrees(r: Router, track: string, wanted: nat)
    requires Good(r) && V.Bind(r.video, track, wanted).Ok?
    ensures Good(r.(video := V.Bind(r.video, track, wanted).value))
  {
    hide Sound, Silent;
  }

  lemma FlagAgrees(r: Router, i: nat, on: bool)
    requires Good(r) && i < |r.video.bound|
    ensures Good(r.(video := V.FlagAt(r.video, i, on)))
  {
    hide Sound, Silent;
  }

  lemma WatchTrackKeeps(r: Router, track: string, during: seq<Phase>, id: string)
    requires Good(r)
    ensures Good(WatchTrack(r, track, during, id).0)
  {
    hide Good, Announced, V.Bind, V.FlagAt;
    var (granted, asked) := Ask(r);
    OtherWorld(r, asked);
    if granted && track in r.limits.profiles {
      var bound := V.Bind(asked.video, track, r.limits.profiles[track]);
      if bound.Ok? {
        BindAgrees(asked, track, r.limits.profiles[track]);
        var ready := asked.(video := bound.value);
        var i := V.Position(ready.video.bound, track);
        var (refused, told) := Ask(ready);
        OtherWorld(ready, told);
        AnnouncedKeeps(told, i, during);
        FlagAgrees(Announced(told, i, during).0, i, true);
      }
    }
  }

  lemma UnwatchTrackKeeps(r: Router, mid: string, id: string)
    requires Good(r)
    ensures Good(UnwatchTrack(r, mid, id).0)
  {
    hide Good, RouterModel.LetGo;
    var i := V.OnMid(r.video.bound, mid);
    if i < |r.video.bound| { LetGoSettled(r, i); }
  }

  lemma OperationKeeps(r: Router, body: Body, id: string)
    requires Good(r)
    ensures Good(Operation(r, body, id).0)
  {
    hide Good, OpenHandle, CloseSubscription, WatchTrack, UnwatchTrack, UseHandle;
    match body
    case Subscribe(_) => OpenHandleKeeps(r, body, id);
    case Advertise(_, _) => OpenHandleKeeps(r, body, id);
    case Unsubscribe(stream) => CloseSubscriptionKeeps(r, stream, id);
    case VideoSubscribe(track, during) => WatchTrackKeeps(r, track, during, id);
    case VideoUnsubscribe(mid) => UnwatchTrackKeeps(r, mid, id);
    case Unadvertise(_) => UseHandleKeeps(r, body, id);
    case Arm(_) => UseHandleKeeps(r, body, id);
    case _ =>
  }

  /** What a turn may leave before it is reported: the control stream may have overflowed, nothing else. */
  ghost predicate Usable(r: Router, threw: bool) {
    Inv(r.core) && Nearly(r.core) && Settled(r) && (!threw ==> Sound(r.core))
  }

  lemma GoodUsable(r: Router, threw: bool)
    requires Good(r)
    ensures Usable(r, threw)
  {
    hide Inv, Flowing, Settled, Nearly;
    OpenSound(r.core);
  }

  lemma QueuedUsable(r: Router, bytes: Bytes, later: Router)
    requires Good(r) && later.core == EnqueueControl(r.core, bytes).0
    requires later.video == r.video && later.world.planeDown == r.world.planeDown
    ensures Usable(later, EnqueueControl(r.core, bytes).1)
  {
    hide Inv, Nearly, Flowing, EnqueueControl, FlagsAgree;
    OpenSound(r.core);
    EnqueueControlNearly(r.core, bytes);
    EnqueueControlOpen(r.core, bytes);
    if r.core.closed && !r.world.planeDown { EnqueueSilent(r.core, bytes); }
  }

  lemma EnqueueSilent(c: Core, bytes: Bytes)
    requires Silent(c)
    ensures EnqueueControl(c, bytes) == (c, true)
  {}

  lemma ExecuteKeeps(r: Router, body: Body, id: string, input: string, now: Time)
    requires Good(r)
    ensures var (later, threw) := Execute(r, body, id, input, now); Usable(later, threw)
  {
    hide Good, Usable, Operation, EnqueueControl, C.Store;
    OperationKeeps(r, body, id);
    var (done, response) := Operation(r, body, id);
    GoodUsable(done, true);
    if response.Some? {
      var bytes := r.core.plan.encode(response.value);
      var (core, threw) := EnqueueControl(done.core, bytes);
      QueuedUsable(done, bytes, done.(cache := C.Store(done.cache, id, input, bytes, now), core := core));
    }
  }

  lemma RequestKeeps(r: Router, body: Body, id: string, input: string)
    requires Good(r)
    ensures var (later, threw) := Request(r, body, id, input); Usable(later, threw)
  {
    hide Good, Usable, Execute, EnqueueControl, C.Lookup, C.Reserve, C.Units;
    var (now, read) := Now(r);
    OtherWorld(r, read);
    GoodUsable(read, true);
    if now.Ok? {
      var (cache, found) := C.Lookup(read.cache, id, input, now.value);
      var looked := read.(cache := cache);
      OtherWorld(read, looked);
      GoodUsable(looked, true);
      ExecuteKeeps(looked, body, id, input, now.value);
      if found.Ok? && found.value.Some? {
        QueuedUsable(looked, found.value.value, looked.(core := EnqueueControl(looked.core, found.value.value).0));
      }
    }
  }

  lemma ReadySubs(c: Core, later: Core, at: nat)
    requires SubsOk(c) && StreamsOk(c) && at < |c.subs|
    requires later == c.(subs := c.subs[at := c.subs[at].(ready := true)])
    ensures SubsOk(later) && StreamsOk(later)
  {
    hide Offers, Enveloped;
    forall i | 0 <= i < |later.subs| ensures SubOk(later, later.subs[i]) { assert SubOk(c, c.subs[i]); }
    forall other | other in later.queue.streams ensures other == CONTROL || Has(later, other) {
      SameIds(c.subs, later.subs, other);
    }
  }

  lemma ReadyKeeps(c: Core, id: string)
    requires Sound(c) && Has(c, id)
    ensures var at := Find(c.subs, id); Sound(c.(subs := c.subs[at := c.subs[at].(ready := true)]))
  {
    hide TraceOk, SubsOk, StreamsOk, QueueSafety.StreamsSafe;
    var at := Find(c.subs, id);
    var later := c.(subs := c.subs[at := c.subs[at].(ready := true)]);
    TraceAlone(c, later);
    if !c.closed { ReadySubs(c, later, at); }
  }

  lemma ControlKeeps(r: Router, id: Option<string>, body: Body, input: string)
    requires Good(r)
    ensures var (later, threw) := Control(r, id, body, input); Usable(later, threw)
  {
    hide Sound, Usable, Request, Respond, FlagsAgree, Validation.Identifier;
    GoodUsable(r, true);
    if body.Hello? {
      if !r.welcomed {
        var wire := Welcome(body.catalog * r.core.plan.topics.Keys, body.tracks);
        OpenSound(r.core);
        RespondUsable(r, wire);
        var (queued, threw) := Respond(r, wire);
        UsableAlone(queued, queued.(welcomed := true), threw);
      }
    } else if body.Ready? {
      if Has(r.core, body.stream) {
        ReadyKeeps(r.core, body.stream);
        var at := Find(r.core.subs, body.stream);
        var later := r.(core := r.core.(subs := r.core.subs[at := r.core.subs[at].(ready := true)]));
        if r.core.closed && !r.world.planeDown { SilentHasNone(r.core, body.stream); }
        GoodUsable(later, false);
      }
    } else if id.Some? {
      RequestKeeps(r, body, id.value, input);
    }
  }

  lemma RespondUsable(r: Router, wire: Wire)
    requires Good(r)
    ensures Usable(Respond(r, wire).0, Respond(r, wire).1)
  {
    hide Inv, Nearly, Flowing, Respond, FlagsAgree, Silent;
    OpenSound(r.core);
    RespondKeeps(r, wire);
    RespondSettled(r, wire);
  }

  lemma UsableAlone(r: Router, later: Router, threw: bool)
    requires later.core == r.core && later.video == r.video && later.world.planeDown == r.world.planeDown
    ensures Usable(r, threw) ==> Usable(later, threw)
  {}

  lemma PublishingKeeps(r: Router, body: Body, publisher: Publisher, sequence: nat, now: Time)
    requires Good(r) && body.Publish? && publisher.topic in r.core.plan.topics
    ensures var (later, threw) := Publishing(r, body, publisher, sequence, now); Usable(later, threw)
  {
    hide Good, Usable, Respond;
    var (refused, asked) := if publisher.guarded then Ask(r) else (body.leased, r);
    OtherWorld(r, asked);
    GoodUsable(asked, true);
    if !refused {
      var gap := r.core.plan.topics[publisher.topic].gapMs;
      var recorded := asked.(publishers :=
        asked.publishers[body.handle := publisher.(sequence := sequence, nextAt := now + gap)]);
      var (revoked, current) := if publisher.guarded then Ask(recorded) else (false, recorded);
      OtherWorld(asked, current);
      GoodUsable(current, true);
      var (sent, failed) := SendToRos(current, publisher.topic);
      OtherWorld(current, sent);
      GoodUsable(sent, true);
      var done := sent.(published := sent.published + [Published(body.handle, publisher.topic, sequence, now)]);
      OtherWorld(sent, done);
      RespondUsable(done, PublishedToRos(body.handle, sequence));
    }
  }

  lemma PublishMessageKeeps(r: Router, channel: Channel, body: Body)
    requires Good(r)
    ensures var (later, threw) := PublishMessage(r, channel, body); Usable(later, threw)
  {
    hide Good, Usable, Publishing, Validation.Identifier, Validation.Sequence;
    GoodUsable(r, true);
    if body.Publish? && body.handle in r.publishers {
      var publisher := r.publishers[body.handle];
      var (granted, asked) := Permitted(r, publisher.topic, WebToRos);
      OtherWorld(r, asked);
      GoodUsable(asked, true);
      if granted && Validation.Sequence(body.sequence).Ok? {
        var (now, read) := Now(asked);
        OtherWorld(asked, read);
        GoodUsable(read, true);
        if now.Ok? { PublishingKeeps(read, body, publisher, Validation.Sequence(body.sequence).value, now.value); }
      }
    }
  }

  // ---- Turns ----

  lemma HandleKeeps(r: Router, m: Incoming)
    requires Good(r)
    ensures var (later, threw, id) := Handle(r, m); Usable(later, threw)
  {
    hide Good, Usable, Control, PublishMessage, Validation.Identifier;
    GoodUsable(r, true);
    if m.channel.Some? {
      var (rated, limited) := if m.channel.value.ControlChannel? then ControlRate(r) else (r, false);
      OtherWorld(r, rated);
      GoodUsable(rated, true);
      if m.envelope.Some? {
        var e := m.envelope.value;
        ControlKeeps(rated, e.id, e.body, e.input);
        PublishMessageKeeps(rated, m.channel.value, e.body);
      }
    }
  }

  lemma ReportKeeps(r: Router, threw: bool, id: Option<string>)
    requires Usable(r, threw)
    ensures Good(Error(r, id).0) && (!threw ==> Good(r))
  {
    hide Inv, Nearly, Flowing, Settled, Error;
    ErrorKeeps(r, id);
  }

  lemma ReceiveKeeps(r: Router, m: Incoming)
    requires Good(r)
    ensures Good(Receive(r, m).0)
  {
    hide Good, Usable, Handle, Error, Flush;
    if !r.core.closed {
      HandleKeeps(r, m);
      var (done, threw, id) := Handle(r, m);
      ReportKeeps(done, threw, id);
      if !threw {
        FlushKeeps(done);
        var flushed := Flush(done).0;
        GoodUsable(flushed, true);
        ReportKeeps(flushed, true, id);
      }
    }
  }

  lemma TakeKeeps(r: Router, turn: Turn)
    requires Good(r)
    ensures Good(Take(r, turn))
  {
    hide Sound, FlagsAgree, Receive, Flush, Sample, Notice, Close;
    match turn
    case Receives(m) => ReceiveKeeps(r, m);
    case Flushes => FlushKeeps(r);
    case Sampled(stream, encoded) => SampleKeeps(r, stream, encoded);
    case Notified(track, phase) =>
      if V.Has(r.video, track) { NoticeKeeps(r, V.Position(r.video.bound, track), phase); }
    case Closes => OpenSound(r.core); CloseKeeps(r);
    case PlaneCloses =>
  }

  lemma {:induction false} RunKeeps(r: Router, turns: seq<Turn>)
    requires Good(r)
    ensures Good(Run(r, turns))
    decreases |turns|
  {
    hide Good, Take;
    if turns != [] {
      TakeKeeps(r, turns[0]);
      RunKeeps(Take(r, turns[0]), turns[1..]);
    }
  }

  // ---- Whole sessions ----

  lemma StartCore(c: Core)
    requires c.subs == [] && c.trace == [] && c.history == map[] && !c.closed && c.queue.streams.Keys == {CONTROL}
    requires var s := c.queue.streams[CONTROL];
             QueueSafety.StreamSafe(s) && s.policy == Reliable && s.taken == [] && !s.stopped
    ensures Sound(c)
  {
    hide QueueSafety.StreamSafe;
    assert forall id :: Offers(c.trace, id) == [] && Ordered(c.history, c.trace, id);
  }

  lemma ControlRegisters(q: Queue, maxRequests: Positive) returns (s: Stream)
    requires q.streams == map[] && q.maxStreams >= 1 && Validation.PositiveLimit(maxRequests)
    ensures Register(q, CONTROL, Reliable, maxRequests).0.streams == map[CONTROL := s]
    ensures QueueSafety.StreamSafe(s) && s.policy == Reliable && s.taken == [] && !s.stopped
  {
    hide QueueSafety.StreamSafe;
    assert Validation.Identifier(CONTROL);
    s := RegisterEffect(q, CONTROL, Reliable, maxRequests);
    assert q.streams[CONTROL := s] == map[CONTROL := s];
    assert CONTROL in Register(q, CONTROL, Reliable, maxRequests).0.streams;
  }

  lemma StartGood(limits: Limits, plan: Plan, cache: C.Cache, slots: seq<V.Slot>, world: World,
                  maxBytes: Positive, maxRequests: Positive)
    requires Validation.PositiveLimit(maxRequests)
    ensures var queue := FirstQueue(limits.maxHandles, maxBytes, plan.maxBytes, maxRequests);
            Good(Start(limits, plan, queue, cache, slots, world))
  {
    hide Sound, Register, QueueSafety.StreamSafe;
    var s := ControlRegisters(QueueModel.Initial(limits.maxHandles + 1, maxBytes, plan.maxBytes), maxRequests);
    var queue := FirstQueue(limits.maxHandles, maxBytes, plan.maxBytes, maxRequests);
    StartCore(Start(limits, plan, queue, cache, slots, world).core);
  }

  /**
   * What was handed to the transport. For a fifo subscription (and for control) the messages are numbered
   * 0, 1, 2, ... and for a latest subscription they increase; each carries the sample of its number; it was
   * handed over with no control message queued, right after its subscription was authorized in the same pass;
   * none follows a denial of its subscription or the close. While the session is open, nothing offered to a
   * fifo subscription is missing: it was handed over or is pending.
   */
  ghost predicate Delivered(c: Core, id: string) {
    && Polite(c.trace) && Final(c.trace) && AllNumbered(c.plan, c.history, c.trace)
    && (id == CONTROL || (id in c.history && c.history[id].policy == Reliable) ==>
          Offers(c.trace, id) == QueueSafety.Counting(|Offers(c.trace, id)|))
    && (id in c.history && c.history[id].policy == Latest ==> QueueSafety.Increasing(Offers(c.trace, id)))
    && (!c.closed && id in c.queue.streams && c.queue.streams[id].policy == Reliable ==>
          var s := c.queue.streams[id];
          && !s.stopped && |Offers(c.trace, id)| + |s.pending| == |s.offered|
          && s.pending == s.offered[|Offers(c.trace, id)|..])
  }

  lemma SoundDelivers(r: Router, id: string)
    requires Good(r)
    ensures Delivered(r.core, id)
  {
    hide Polite, Final, AllNumbered, Known, NamesOk, SubsOk, Offers, QueueSafety.Counting, QueueSafety.Increasing;
    assert Ordered(r.core.history, r.core.trace, id);
    if !r.core.closed && id in r.core.queue.streams { assert QueueSafety.StreamSafe(r.core.queue.streams[id]); }
  }

  /** Whatever the peer sends, ROS delivers, the clock reads and the surroundings answer, after every turn. */
  lemma EveryRun(limits: Limits, plan: Plan, cache: C.Cache, slots: seq<V.Slot>, world: World,
                 maxBytes: Positive, maxRequests: Positive, turns: seq<Turn>, id: string)
    requires Validation.PositiveLimit(maxRequests)
    ensures var first := Start(limits, plan, FirstQueue(limits.maxHandles, maxBytes, plan.maxBytes, maxRequests),
                               cache, slots, world);
            Delivered(Run(first, turns).core, id)
  {
    hide Delivered, Run, Start, FirstQueue, Good;
    var queue := FirstQueue(limits.maxHandles, maxBytes, plan.maxBytes, maxRequests);
    var first := Start(limits, plan, queue, cache, slots, world);
    StartGood(limits, plan, cache, slots, world, maxBytes, maxRequests);
    RunKeeps(first, turns);
    SoundDelivers(Run(first, turns), id);
  }

  // ---- What closing leaves ----

  lemma {:induction false} CloseVideoExactly(r: Router, i: nat)
    ensures var (later, threw) := CloseVideo(r, i);
            && (!r.world.planeDown ==> !threw)
            && (!threw ==> forall k :: i <= k < |later.video.bound| ==>
                  !later.video.bound[k].watching && !later.video.bound[k].attached)
            && |later.video.bound| == |r.video.bound|
            && (forall k :: 0 <= k < |r.video.bound| && k < i ==> later.video.bound[k] == r.video.bound[k])
            && (threw <==> r.world.planeDown && exists k :: i <= k < |r.video.bound| && r.video.bound[k].attached)
    decreases |r.video.bound| - i
  {
    if i < |r.video.bound| {
      var (released, threw) := RouterModel.LetGo(r, i);
      if !threw { CloseVideoExactly(released, i + 1); }
    }
  }

  /**
   * Closing always leaves the session closed. It releases everything (listeners, publishers, queue, cache,
   * video) exactly when the media plane is still up or holds none of its viewers; otherwise the plane's
   * refusal to detach ends the close with all of it still held.
   */
  lemma CloseExactly(r: Router)
    requires !r.core.closed
    ensures var later := Close(r).0;
            var kept := r.world.planeDown && exists k :: 0 <= k < |r.video.bound| && r.video.bound[k].attached;
            && later.core.closed
            && (!kept ==> later.core.subs == [] && later.core.queue.streams == map[] && later.core.queue.bytes == 0
                          && later.publishers == map[] && later.cache.entries == map[] && later.cache.bytes == 0
                          && V.Watched(later.video.bound) == 0)
            && (kept ==> later.core.subs == r.core.subs && later.core.queue == r.core.queue
                         && later.publishers == r.publishers && later.cache == r.cache)
  {
    CloseVideoExactly(r.(core := MarkClosed(r.core)), 0);
    var (silent, threw) := CloseVideo(r.(core := MarkClosed(r.core)), 0);
    if !threw { NobodyWatches(silent.video.bound); }
  }

  lemma {:induction false} NobodyWatches(bound: seq<V.Binding>)
    requires forall k :: 0 <= k < |bound| ==> !bound[k].watching
    ensures V.Watched(bound) == 0
  {
    if bound != [] { NobodyWatches(bound[1..]); }
  }
}
