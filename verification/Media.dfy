/** The media plane's objects, proved turn by turn against the state machine. */
module Media {
  import opened Basics
  import opened MediaTypes
  import M = SourceModel
  import opened SM = ServiceModel

  class VideoSource {
    const settings: Settings
    const framerate: Positive
    var phase: Phase
    var viewers: seq<Viewer>
    var source: Option<nat>
    // Armed timers, by due time.
    var cancelGrace: Option<Time>
    var cancelStart: Option<Time>
    var release: Option<M.Release>
    // Starts suspended on `release`.
    var waiting: nat
    var created: nat
    var lastKeyframeAt: Option<Time>
    var failedAt: Option<Time>
    var sequence: nat
    var emitted: Uint32
    var origin: Option<Uint32>
    var shift: Uint32
    var packets: nat
    var keyframeRequests: nat
    // What each viewer was last told.
    var told: map<Viewer, Phase>
    ghost var live: set<nat>
    ghost var asked: seq<Time>
    ghost var fanned: seq<M.Fanout>

    ghost predicate Valid()
      reads this
    {
      && packets == |fanned| && keyframeRequests == |asked|
      && lastKeyframeAt == (if asked == [] then None else Some(asked[|asked| - 1]))
    }

    ghost function View(): M.Source
      reads this
    {
      M.Source(settings, framerate, phase, viewers, source, cancelGrace, cancelStart, release, waiting, created, live,
               failedAt, asked, M.Numbering(sequence, emitted, origin, shift), fanned, told)
    }

    constructor (settings: Settings, framerate: Positive)
      ensures Valid() && View() == M.Initial(settings, framerate)
    {
      this.settings, this.framerate := settings, framerate;
      phase, viewers, source, cancelGrace, cancelStart, release := Idle, [], None, None, None, None;
      waiting, created, lastKeyframeAt, failedAt := 0, 0, None, None;
      sequence, emitted, origin, shift := 0, 0, None, 0;
      packets, keyframeRequests, told := 0, 0, map[];
      live, asked, fanned := {}, [], [];
    }

    function IsRunning(): (running: bool)
      reads this
      ensures running <==> M.Running(View())
    {
      release.Some? || (phase != Idle && phase != Failed)
    }

    function IsRetryable(now: Time): (retryable: bool)
      reads this
      ensures retryable <==> M.Retryable(View(), now)
    {
      failedAt.None? || now - failedAt.value >= settings.retryMinIntervalMs
    }

    /** Tell every viewer the current phase. */
    method Notify()
      modifies this`told
      ensures told == M.Announce(old(told), viewers, phase)
    {
      ghost var before := told;
      for i := 0 to |viewers|
        modifies this`told
        invariant told == M.Announce(before, viewers[..i], phase)
      {
        told := told[viewers[i] := phase];
        assert viewers[..i + 1] == viewers[..i] + [viewers[i]];
      }
      assert viewers[..|viewers|] == viewers;
    }

    /** Ask the encoder for an IDR, rate limited. */
    method RequestKeyframe(now: Time)
      requires Valid()
      modifies this
      ensures Valid() && View() == M.AskKeyframe(old(View()), now)
    {
      if lastKeyframeAt.Some? && now - lastKeyframeAt.value < settings.pliMinIntervalMs { return; }
      lastKeyframeAt := Some(now);
      keyframeRequests := keyframeRequests + 1;
      asked := asked + [now];
    }

    method Add(viewer: Viewer, now: Time)
      requires Valid()
      modifies this
      ensures Valid() && View() == M.Step(old(View()), now, M.Add(viewer))
    {
      if viewer !in viewers { viewers := viewers + [viewer]; }
      cancelGrace := None;
      if phase == Idle || phase == Failed {
        Begin(now);
        return;
      }
      if phase == Active { RequestKeyframe(now); }
      told := told[viewer := phase];
    }

    method Remove(viewer: Viewer, now: Time)
      requires Valid()
      modifies this
      ensures Valid() && View() == M.Step(old(View()), now, M.Remove(viewer))
    {
      var member := viewer in viewers;
      DeleteViewer(viewer);
      if !member || |viewers| > 0 || phase == Idle { return; }
      cancelGrace := Some(now + settings.stopGraceMs);
    }

    method DeleteViewer(viewer: Viewer)
      modifies this`viewers
      ensures viewers == M.Without(old(viewers), viewer)
    {
      for i := 0 to |viewers|
        invariant viewers == old(viewers) && viewer !in viewers[..i]
      {
        if viewers[i] == viewer {
          M.WithoutFirst(viewers, viewer, i);
          viewers := viewers[..i] + viewers[i + 1..];
          return;
        }
      }
      M.WithoutAbsent(viewers, viewer);
    }

    /** Release the encoder and forget every viewer. */
    method Close(now: Time)
      requires Valid()
      modifies this
      ensures Valid() && View() == M.Step(old(View()), now, M.Close)
    {
      viewers := [];
      Finish(Idle, now);
    }

    /** The grace window elapsed. */
    method GraceFires(now: Time)
      requires Valid() && M.Due(cancelGrace, now)
      modifies this
      ensures Valid() && View() == M.Step(old(View()), now, M.GraceFires)
    {
      cancelGrace := None;
      Finish(Idle, now);
    }

    /** The start deadline elapsed. */
    method DeadlineFires(now: Time)
      requires Valid() && M.Due(cancelStart, now)
      modifies this
      ensures Valid() && View() == M.Step(old(View()), now, M.DeadlineFires)
    {
      Finish(Failed, now);
    }

    /** Start the encoder for the first viewer, or suspend the start on the pending release. */
    method Begin(now: Time)
      requires Valid()
      modifies this
      ensures Valid() && View() == M.Begin(old(View()), now)
    {
      hide M.AnnounceStart, M.Create, M.Wanted;
      AnnounceStart(now);
      if release.Some? {
        waiting := waiting + 1;
        return;
      }
      var _ := Create();
    }

    /** The phase claims the source, everybody is told, and the wait is bounded. */
    method AnnounceStart(now: Time)
      requires Valid()
      modifies this`phase, this`told, this`cancelStart
      ensures Valid() && View() == M.AnnounceStart(old(View()), now)
    {
      phase := Starting;
      Notify();
      cancelStart := Some(now + settings.startTimeoutMs);
    }

    /** What a start does once nothing is being released: create the encoder if it is still wanted. */
    method Create() returns (encoder: Option<nat>)
      requires Valid()
      modifies this
      ensures Valid() && View() == (if M.Wanted(old(View())) then M.Create(old(View())) else old(View()))
      ensures encoder == if M.Wanted(old(View())) then Some(old(created)) else None
    {
      if phase != Starting || |viewers| == 0 { return None; }
      origin := None;
      encoder := Some(created);
      source := encoder;
      live := live + {created};
      created := created + 1;
    }

    /** A packet of some encoder: ignored unless that encoder is current, renumbered in place otherwise. */
    method OnPacket(encoder: nat, packet: array<Byte>)
      requires Valid() && packet.Length >= 12
      modifies this, packet
      ensures var original := ReadU32(old(packet[..]), 4);
              Valid() && View() == M.Step(old(View()), 0.0, M.Packet(encoder, original))
      ensures old(source) != Some(encoder) ==> packet[..] == old(packet[..])
      ensures old(source) == Some(encoder) ==>
        packet[..] == old(packet[..2]) + U16Bytes(old(sequence) % U16) + U32Bytes(emitted) + old(packet[8..])
    {
      if source == Some(encoder) { Deliver(encoder, packet); }
    }

    method Deliver(encoder: nat, packet: array<Byte>)
      requires Valid() && packet.Length >= 12
      modifies this, packet
      ensures Valid() && View() == M.Deliver(old(View()), encoder, ReadU32(old(packet[..]), 4))
      ensures packet[..] == old(packet[..2]) + U16Bytes(old(sequence) % U16) + U32Bytes(emitted) + old(packet[8..])
    {
      if phase == Starting { Activate(); }
      FanOut(encoder, packet);
    }

    /** The first packet is the only evidence the encoder really produced output. */
    method Activate()
      requires Valid() && phase == Starting
      modifies this`cancelStart, this`phase, this`told
      ensures View() == M.Activate(old(View()))
    {
      cancelStart := None;
      phase := Active;
      Notify();
    }

    method FanOut(encoder: nat, packet: array<Byte>)
      requires Valid() && packet.Length >= 12
      modifies this, packet
      ensures Valid() && View() == M.FanOut(old(View()), encoder, ReadU32(old(packet[..]), 4))
      ensures packet[..] == old(packet[..2]) + U16Bytes(old(sequence) % U16) + U32Bytes(emitted) + old(packet[8..])
    {
      ghost var original, number := ReadU32(packet[..], 4), sequence;
      packets := packets + 1;
      Renumber(packet);
      fanned := fanned + [M.Fanout(encoder, original, number % U16, emitted, viewers)];
    }

    /** Rewrite sequence and timestamp so the track is continuous across encoder restarts. */
    method Renumber(packet: array<Byte>)
      requires packet.Length >= 12
      modifies this`sequence, this`emitted, this`origin, this`shift, packet
      ensures M.Numbering(sequence, emitted, origin, shift)
           == M.Renumber(M.Numbering(old(sequence), old(emitted), old(origin), old(shift)), framerate,
                          ReadU32(old(packet[..]), 4))
      ensures packet[..] == old(packet[..2]) + U16Bytes(old(sequence) % U16) + U32Bytes(emitted) + old(packet[8..])
    {
      var original := ReadU32(packet[..], 4);
      if origin.None? {
        origin := Some(original);
        var step := M.FrameStep(framerate);
        shift := (emitted + step - original) % U32;
      }
      emitted := (original + shift) % U32;
      WriteBytes(packet, 4, U32Bytes(emitted));
      WriteBytes(packet, 2, U16Bytes(sequence % U16));
      sequence := sequence + 1;
    }

    static method WriteBytes(packet: array<Byte>, offset: nat, bytes: seq<Byte>)
      requires offset + |bytes| <= packet.Length
      modifies packet
      ensures packet[..] == old(packet[..offset]) + bytes + old(packet[offset + |bytes|..])
    {
      for i := 0 to |bytes|
        invariant packet[..] == old(packet[..offset]) + bytes[..i] + old(packet[offset + i..])
      {
        packet[offset + i] := bytes[i];
      }
    }

    /** The encoder stopped unexpectedly. */
    method OnFailed(encoder: nat, now: Time)
      requires Valid()
      modifies this
      ensures Valid() && View() == M.Step(old(View()), now, M.EncoderFails(encoder))
    {
      if source == Some(encoder) { Finish(Failed, now); }
    }

    /** A start rejected: not guarded by which encoder is current. */
    method OnStartRejected(encoder: nat, now: Time)
      requires Valid()
      modifies this
      ensures Valid() && View() == M.Step(old(View()), now, M.StartRejects(encoder))
    {
      Finish(Failed, now);
    }

    /** Release the encoder and settle on a terminal phase. */
    method Finish(terminal: Phase, now: Time)
      requires Valid() && (terminal == Idle || terminal == Failed)
      modifies this
      ensures Valid() && View() == M.Finish(old(View()), now, terminal)
    {
      hide M.Announce;
      var ended := source;
      Conclude(terminal, now);
      Notify();
      // A failure ends every attachment it just reported.
      if terminal == Failed { viewers := []; }
      if ended.None? { return; }
      release := Some(M.Release(ended.value, now));
    }

    /** Disarm the timers, drop the encoder and take the terminal phase. */
    method Conclude(terminal: Phase, now: Time)
      requires Valid() && (terminal == Idle || terminal == Failed)
      modifies this`cancelStart, this`cancelGrace, this`source, this`phase, this`failedAt
      ensures View() == M.Conclude(old(View()), now, terminal)
    {
      cancelStart := None;
      cancelGrace := None;
      source := None;
      phase := terminal;
      if terminal == Failed { failedAt := Some(now); }
    }

    /** The pending stop settled: clear it, then resume the starts suspended on it in order. */
    method OnStopSettled(bursts: seq<seq<Uint32>>)
      requires Valid() && release.Some?
      modifies this
      ensures Valid() && View() == M.Step(old(View()), 0.0, M.StopSettles(bursts))
    {
      hide M.DeliverAll, M.Create, M.Wanted;
      live := live - {release.value.encoder};
      release := None;
      var starts := waiting;
      waiting := 0;
      var rest := bursts;
      ghost var end := M.ResumeAll(View(), starts, bursts);
      while starts > 0
        invariant Valid() && M.ResumeAll(View(), starts, rest) == end
      {
        var encoder := Create();
        if encoder.Some? { Emit(encoder.value, M.FirstBurst(rest)); }
        starts, rest := starts - 1, if rest == [] then [] else rest[1..];
      }
    }

    /** What a backend emits before its start call returns. */
    method Emit(encoder: nat, burst: seq<Uint32>)
      requires Valid()
      modifies this
      ensures Valid() && View() == M.DeliverAll(old(View()), encoder, burst)
    {
      ghost var end := M.DeliverAll(View(), encoder, burst);
      for i := 0 to |burst|
        invariant Valid() && M.DeliverAll(View(), encoder, burst[i..]) == end
      {
        var header := [0x80, 96, 0, 0] + U32Bytes(burst[i]) + [0, 0, 0, 0];
        var packet := new Byte[12](k requires 0 <= k < 12 => header[k]);
        assert packet[..] == header;
        assert ReadU32(header, 4) == ReadU32(U32Bytes(burst[i]), 0);
        assert burst[i..][1..] == burst[i + 1..];
        Deliver(encoder, packet);
      }
    }
  }

  /** Framerates by track name; a repeated name keeps its last binding. */
  function Framerates(tracks: seq<(string, Positive)>): map<string, Positive>
  {
    if tracks == [] then map[]
    else var last := tracks[|tracks| - 1]; Framerates(tracks[..|tracks| - 1])[last.0 := last.1]
  }

  /** Every source is consistent, and no two tracks share one. */
  ghost predicate Owned(sources: map<string, VideoSource>)
    reads sources.Values
  {
    && (forall t :: t in sources ==> sources[t].Valid())
    && (forall t, u :: t in sources && u in sources && t != u ==> sources[t] != sources[u])
  }

  ghost function Views(sources: map<string, VideoSource>): map<string, M.Source>
    reads sources.Values
  {
    map t | t in sources :: sources[t].View()
  }

  lemma PutOwned(sources: map<string, VideoSource>, name: string, source: VideoSource)
    requires Owned(sources) && source.Valid() && source !in sources.Values
    ensures var put := sources[name := source];
            && Owned(put) && Views(put) == Views(sources)[name := source.View()]
            && put.Values <= sources.Values + {source}
  {}

  /** The sources in `open` as they were, the others closed. */
  function Closing(before: map<string, M.Source>, open: set<string>, now: Time): map<string, M.Source> {
    map t | t in before :: if t in open then before[t] else M.Step(before[t], now, M.Close)
  }

  class MediaService {
    const maxPipelines: nat
    var sources: map<string, VideoSource>
    var closed: bool

    ghost predicate Valid()
      reads this, sources.Values
    {
      Owned(sources)
    }

    ghost function View(): Service
      reads this, sources.Values
    {
      Service(maxPipelines, Views(sources), closed)
    }

    constructor (settings: Settings, tracks: seq<(string, Positive)>, maxPipelines: nat)
      ensures Valid() && fresh(sources.Values)
      ensures View() == Configure(settings, Framerates(tracks), maxPipelines)
    {
      var built := NewSources(settings, tracks);
      this.maxPipelines, closed, sources := maxPipelines, false, built;
    }

    /** One idle source for each configured track. */
    static method NewSources(settings: Settings, tracks: seq<(string, Positive)>)
      returns (built: map<string, VideoSource>)
      ensures Owned(built) && fresh(built.Values)
      ensures Views(built) == InitialSources(settings, Framerates(tracks))
    {
      built := map[];
      for i := 0 to |tracks|
        invariant Owned(built) && fresh(built.Values)
        invariant Views(built) == InitialSources(settings, Framerates(tracks[..i]))
      {
        assert tracks[..i + 1] == tracks[..i] + [tracks[i]];
        var source := new VideoSource(settings, tracks[i].1);
        PutOwned(built, tracks[i].0, source);
        built := built[tracks[i].0 := source];
        ConfigureOneMore(settings, tracks[..i], tracks[i]);
      }
      assert tracks[..|tracks|] == tracks;
    }

    static lemma ConfigureOneMore(settings: Settings, tracks: seq<(string, Positive)>, track: (string, Positive))
      ensures InitialSources(settings, Framerates(tracks + [track]))
           == InitialSources(settings, Framerates(tracks))[track.0 := M.Initial(settings, track.1)]
    {
      assert (tracks + [track])[..|tracks|] == tracks;
    }

    /** How many sources hold an encoder, counting the grace and release windows. */
    function RunningSources(): (count: nat)
      reads this, sources.Values
      ensures count == |RunningTracks(View())|
    {
      var running := set t | t in sources && sources[t].IsRunning();
      assert running == RunningTracks(View());
      |running|
    }

    /** Attach a viewer, unless the track is unknown, the pipelines are taken or the retry interval runs. */
    method Attach(track: string, viewer: Viewer, now: Time) returns (refused: Option<string>)
      requires Valid()
      modifies if track in sources then {sources[track]} else {}
      ensures Valid()
      ensures var turn := Turn(now, Input.Attach(track, viewer));
              refused == Refusal(old(View()), turn) && View() == Apply(old(View()), turn)
    {
      if track !in sources || closed { return Some("unknown_video_track"); }
      var source := sources[track];
      if !source.IsRunning() && RunningSources() >= maxPipelines { return Some("video_pipeline_limit"); }
      if !source.IsRetryable(now) { return Some("video_retry_too_soon"); }
      refused := None;
      AddTo(track, viewer, now);
    }

    method AddTo(track: string, viewer: Viewer, now: Time)
      requires Valid() && track in sources
      modifies sources[track]
      ensures Valid()
      ensures Views(sources) == old(Views(sources))[track := M.Step(old(Views(sources)[track]), now, M.Add(viewer))]
    {
      hide M.Step, VideoSource.Valid;
      sources[track].Add(viewer, now);
    }

    method Detach(track: string, viewer: Viewer, now: Time) returns (refused: Option<string>)
      requires Valid()
      modifies if track in sources then {sources[track]} else {}
      ensures Valid()
      ensures var turn := Turn(now, Input.Detach(track, viewer));
              refused == Refusal(old(View()), turn) && View() == Apply(old(View()), turn)
    {
      if track !in sources || closed { return Some("unknown_video_track"); }
      refused := None;
      RemoveFrom(track, viewer, now);
    }

    method RemoveFrom(track: string, viewer: Viewer, now: Time)
      requires Valid() && track in sources
      modifies sources[track]
      ensures Valid()
      ensures Views(sources) == old(Views(sources))[track := M.Step(old(Views(sources)[track]), now, M.Remove(viewer))]
    {
      hide M.Step, VideoSource.Valid;
      sources[track].Remove(viewer, now);
    }

    method RequestKeyframe(track: string, now: Time) returns (refused: Option<string>)
      requires Valid()
      modifies if track in sources then {sources[track]} else {}
      ensures Valid()
      ensures var turn := Turn(now, Input.RequestKeyframe(track));
              refused == Refusal(old(View()), turn) && View() == Apply(old(View()), turn)
    {
      if track !in sources || closed { return Some("unknown_video_track"); }
      refused := None;
      AskOf(track, now);
    }

    method AskOf(track: string, now: Time)
      requires Valid() && track in sources
      modifies sources[track]
      ensures Valid()
      ensures Views(sources) == old(Views(sources))[track := M.Step(old(Views(sources)[track]), now, M.Keyframe)]
    {
      hide M.Step, M.AskKeyframe, VideoSource.Valid;
      KeyframeStep(sources[track].View(), now);
      sources[track].RequestKeyframe(now);
    }

    static lemma KeyframeStep(s: M.Source, now: Time)
      ensures M.Step(s, now, M.Keyframe) == M.AskKeyframe(s, now)
    {}

    /** Release every source. */
    method Close(now: Time)
      requires Valid()
      modifies this, sources.Values
      ensures Valid() && sources == old(sources)
      ensures View() == Apply(old(View()), Turn(now, Shutdown))
    {
      hide M.Step, CloseAll;
      closed := true;
      CloseEach(now);
    }

    method CloseEach(now: Time)
      requires Valid()
      modifies sources.Values
      ensures Valid() && Views(sources) == CloseAll(old(Views(sources)), now)
    {
      hide M.Step;
      ghost var before := Views(sources);
      var open := sources.Keys;
      while open != {}
        modifies sources.Values
        invariant Valid() && open <= sources.Keys
        invariant Views(sources) == Closing(before, open, now)
        decreases open
      {
        var t :| t in open;
        CloseOne(t, now);
        CloseOneMore(before, open, t, now);
        open := open - {t};
      }
      assert Closing(before, {}, now) == CloseAll(before, now);
    }

    method CloseOne(track: string, now: Time)
      requires Valid() && track in sources
      modifies sources[track]
      ensures Valid()
      ensures Views(sources) == old(Views(sources))[track := M.Step(old(Views(sources)[track]), now, M.Close)]
    {
      hide M.Step, VideoSource.Valid;
      sources[track].Close(now);
    }

    static lemma CloseOneMore(before: map<string, M.Source>, open: set<string>, track: string, now: Time)
      requires track in open && track in before
      ensures Closing(before, open - {track}, now)
        == Closing(before, open, now)[track := M.Step(before[track], now, M.Close)]
    {}
  }
}
