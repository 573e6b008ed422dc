/**
 * What every turn of one source keeps, and exactly when it keeps it.
 *
 * `Shape` holds after every turn whatsoever. One encoder at a time (`Exclusive`) and "a starting source
 * has a start in progress" (`Served`) do not: each is proved with the condition, readable before
 * the turn, that decides it.
 */
module SourceInvariants {
  import opened Basics
  import opened MediaTypes
  import opened SourceModel

  predicate Distinct<T(==)>(items: seq<T>) {
    forall i, j :: 0 <= i < j < |items| ==> items[i] != items[j]
  }

  predicate Watchable(p: Phase) {
    p == Starting || p == Active
  }

  predicate TimersMatch(s: Source) {
    && (s.phase == Starting <==> s.deadline.Some?)
    && (Watchable(s.phase) && s.viewers == [] <==> s.grace.Some?)
  }

  predicate ViewersMatch(s: Source) {
    && Distinct(s.viewers)
    && (s.viewers != [] ==> Watchable(s.phase))
    && (forall v :: v in s.viewers ==> v in s.told && s.told[v] == s.phase)
  }

  predicate EncodersMatch(s: Source) {
    && (s.current.Some? ==> Watchable(s.phase) && s.release.None? && s.current.value in s.live)
    && (s.phase == Active ==> s.current.Some?)
    && (s.release.Some? ==> s.release.value.encoder in s.live)
    && (s.waiting > 0 ==> s.release.Some?)
    && (forall e :: e in s.live ==> e < s.created)
  }

  predicate Shape(s: Source) {
    TimersMatch(s) && ViewersMatch(s) && EncodersMatch(s)
  }

  lemma {:induction false} WithoutRemoves(viewers: seq<Viewer>, viewer: Viewer)
    requires Distinct(viewers)
    ensures var rest := Without(viewers, viewer);
            && Distinct(rest)
            && (forall v :: v in rest <==> v in viewers && v != viewer)
  {
    if viewers != [] {
      assert forall v :: v in viewers <==> v == viewers[0] || v in viewers[1..];
      if viewers[0] != viewer {
        WithoutRemoves(viewers[1..], viewer);
        var rest := Without(viewers[1..], viewer);
        assert viewers[0] !in rest;
        assert forall v :: v in [viewers[0]] + rest <==> v == viewers[0] || v in rest;
      }
    }
  }

  lemma FinishShape(s: Source, now: Time, phase: Phase)
    requires ViewersMatch(s) || s.viewers == []
    requires EncodersMatch(s) && (phase == Failed || (phase == Idle && s.viewers == []))
    ensures Shape(Finish(s, now, phase))
  {}

  lemma DeliverShape(s: Source, encoder: nat, timestamp: Uint32)
    requires Shape(s) && s.current == Some(encoder)
    ensures Shape(Deliver(s, encoder, timestamp)) && Deliver(s, encoder, timestamp).phase == Active
  {}

  lemma {:induction false} DeliverAllShape(s: Source, encoder: nat, burst: seq<Uint32>)
    requires Shape(s) && s.current == Some(encoder)
    ensures var t := DeliverAll(s, encoder, burst);
            && Shape(t) && t.phase == (if burst == [] then s.phase else Active)
            && t == s.(phase := t.phase, deadline := t.deadline, numbering := t.numbering, fanned := t.fanned,
              told := t.told)
    decreases |burst|
  {
    if burst != [] {
      DeliverShape(s, encoder, burst[0]);
      DeliverAllShape(Deliver(s, encoder, burst[0]), encoder, burst[1..]);
    }
  }

  lemma CreateShape(s: Source)
    requires Shape(s) && Wanted(s) && s.release.None?
    ensures Shape(Create(s))
  {}

  lemma {:induction false} ResumeAllShape(s: Source, starts: nat, bursts: seq<seq<Uint32>>)
    requires Shape(s) && s.release.None? && s.waiting == 0
    ensures Shape(ResumeAll(s, starts, bursts))
    decreases starts
  {
    if starts > 0 {
      if Wanted(s) {
        CreateShape(s);
        DeliverAllShape(Create(s), s.created, FirstBurst(bursts));
      }
      ResumeAllShape(Resume(s, FirstBurst(bursts)), starts - 1, if bursts == [] then [] else bursts[1..]);
    }
  }

  function Joined(s: Source, viewer: Viewer): (t: Source) {
    s.(viewers := if viewer in s.viewers then s.viewers else s.viewers + [viewer], grace := None)
  }

  lemma JoinedViewers(s: Source, viewer: Viewer)
    requires Distinct(s.viewers)
    ensures var t := Joined(s, viewer);
            && Distinct(t.viewers) && t.viewers != []
            && (forall v :: v in t.viewers <==> v in s.viewers || v == viewer)
  {
    assert viewer in s.viewers ==> s.viewers != [];
    assert forall v :: v in s.viewers + [viewer] <==> v in s.viewers || v == viewer;
  }

  lemma BeginShape(s: Source, now: Time)
    requires EncodersMatch(s) && !Watchable(s.phase) && s.grace.None?
    requires Distinct(s.viewers) && s.viewers != []
    ensures Shape(Begin(s, now))
  {
    var announced := Notify(s.(phase := Starting)).(deadline := Some(now + s.settings.startTimeoutMs));
    if announced.release.None? { CreateShape(announced); }
  }

  lemma AddShape(s: Source, now: Time, viewer: Viewer)
    requires Shape(s)
    ensures Shape(AddViewer(s, now, viewer))
  {
    JoinedViewers(s, viewer);
    if !Watchable(s.phase) {
      BeginShape(Joined(s, viewer), now);
    }
  }

  /** Timers, viewers, notifications and encoders agree after every turn. */
  lemma ShapeStep(s: Source, now: Time, e: Event)
    requires Shape(s)
    ensures Shape(Step(s, now, e))
  {
    match e
    case Add(viewer) => AddShape(s, now, viewer);
    case Remove(viewer) => WithoutRemoves(s.viewers, viewer);
    case Keyframe =>
    case Close => FinishShape(s.(viewers := []), now, Idle);
    case GraceFires => if Due(s.grace, now) { FinishShape(s.(grace := None), now, Idle); }
    case DeadlineFires => if Due(s.deadline, now) { FinishShape(s, now, Failed); }
    case Packet(encoder, timestamp) => if s.current == Some(encoder) { DeliverShape(s, encoder, timestamp); }
    case EncoderFails(encoder) => if s.current == Some(encoder) { FinishShape(s, now, Failed); }
    case StartRejects(encoder) => FinishShape(s, now, Failed);
    case StopSettles(bursts) =>
      if s.release.Some? {
        var freed := s.(release := None, live := s.live - {s.release.value.encoder}, waiting := 0);
        ResumeAllShape(freed, s.waiting, bursts);
      }
  }

  // ---- One encoder at a time ----

  /** The encoders the source still has a hold on: the current one, or the one being released. */
  function Held(s: Source): set<nat> {
    (if s.current.Some? then {s.current.value} else {}) + (if s.release.Some? then {s.release.value.encoder} else {})
  }

  predicate Exclusive(s: Source) {
    s.live == Held(s)
  }

  lemma ExclusiveMeansOne(s: Source)
    requires Shape(s) && Exclusive(s)
    ensures |s.live| <= 1
    ensures s.live != {} ==> Running(s)
  {}

  /** Two starts resume on one release, are still wanted, and the first one emits nothing at once. */
  predicate Duplicates(s: Source, e: Event) {
    e.StopSettles? && s.release.Some? && Wanted(s) && s.waiting >= 2 && FirstBurst(e.bursts) == []
  }

  function Ids(low: nat, high: nat): (ids: set<nat>)
    ensures forall e :: e in ids <==> low <= e < high
  {
    if low >= high then {} else Ids(low, high - 1) + {high - 1}
  }

  /** How many encoders `starts` resumed starts create. */
  function Creations(wanted: bool, starts: nat, bursts: seq<seq<Uint32>>): nat
    decreases starts
  {
    if !wanted || starts == 0 then 0
    else if FirstBurst(bursts) != [] then 1
    else 1 + Creations(wanted, starts - 1, if bursts == [] then [] else bursts[1..])
  }

  lemma {:induction false} ResumeAllCreates(s: Source, starts: nat, bursts: seq<seq<Uint32>>)
    requires Shape(s) && s.release.None? && s.waiting == 0
    ensures var t, n := ResumeAll(s, starts, bursts), Creations(Wanted(s), starts, bursts);
            && t.created == s.created + n
            && t.current == (if n == 0 then s.current else Some(t.created - 1))
            && t.live == s.live + Ids(s.created, t.created)
            && t.release.None? && t.waiting == 0 && t.viewers == s.viewers && t.failedAt == s.failedAt
            && t.settings == s.settings && t.grace == s.grace && t.asked == s.asked
            && (n == 0 ==> t == s)
    decreases starts
  {
    if starts > 0 && Wanted(s) {
      var burst, rest := FirstBurst(bursts), if bursts == [] then [] else bursts[1..];
      CreateShape(s);
      DeliverAllShape(Create(s), s.created, burst);
      ResumeAllCreates(Resume(s, burst), starts - 1, rest);
    } else if starts > 0 {
      ResumeAllCreates(s, starts - 1, if bursts == [] then [] else bursts[1..]);
    }
  }

  lemma SettleEffect(s: Source, bursts: seq<seq<Uint32>>)
    requires Shape(s) && s.release.Some?
    ensures var t, n := Settle(s, bursts), Creations(Wanted(s), s.waiting, bursts);
            && t.created == s.created + n
            && t.current == (if n == 0 then None else Some(t.created - 1))
            && t.live == (s.live - {s.release.value.encoder}) + Ids(s.created, t.created)
            && t.release.None? && t.waiting == 0 && t.viewers == s.viewers && t.failedAt == s.failedAt
            && t.settings == s.settings && t.grace == s.grace && t.asked == s.asked
            && (n == 0 ==> t.phase == s.phase && t.deadline == s.deadline)
  {
    var freed := s.(release := None, live := s.live - {s.release.value.encoder}, waiting := 0);
    assert Shape(freed);
    ResumeAllCreates(freed, s.waiting, bursts);
  }

  /** A turn leaves the source with more than the encoder it holds exactly when it duplicates a start. */
  lemma ExclusiveStep(s: Source, now: Time, e: Event)
    requires Shape(s) && Exclusive(s)
    ensures Exclusive(Step(s, now, e)) <==> !Duplicates(s, e)
  {
    if e.StopSettles? && s.release.Some? {
      SettleEffect(s, e.bursts);
      var t := Step(s, now, e);
      if Duplicates(s, e) {
        assert s.created in t.live && s.created !in Held(t);
      } else {
        assert t.created <= s.created + 1;
        assert t.live == Held(t);
      }
    }
  }

  /** An encoder that is neither current nor being released: nothing in the source can reach it. */
  predicate Stranded(s: Source, encoder: nat) {
    encoder in s.live && encoder !in Held(s)
  }

  lemma DuplicateStrands(s: Source, now: Time, e: Event)
    requires Shape(s) && Duplicates(s, e)
    ensures Stranded(Step(s, now, e), s.created)
  {
    SettleEffect(s, e.bursts);
  }

  lemma StrandedStep(s: Source, now: Time, e: Event, encoder: nat)
    requires Shape(s) && Stranded(s, encoder)
    ensures Stranded(Step(s, now, e), encoder)
  {
    if e.StopSettles? && s.release.Some? {
      SettleEffect(s, e.bursts);
    }
  }

  // ---- A starting source has a start in progress ----

  predicate Served(s: Source) {
    s.phase == Starting ==> s.current.Some? || s.waiting > 0
  }

  /** The release settles while nobody watches a start that is suspended on it. */
  predicate AbandonsStart(s: Source, e: Event) {
    e.StopSettles? && s.release.Some? && s.phase == Starting && s.viewers == []
  }

  /** A turn leaves a starting source without encoder or suspended start exactly when it abandons one. */
  lemma ServedStep(s: Source, now: Time, e: Event)
    requires Shape(s) && Served(s)
    ensures Served(Step(s, now, e)) <==> !AbandonsStart(s, e)
  {
    if e.StopSettles? && s.release.Some? {
      SettleEffect(s, e.bursts);
    }
  }

  predicate Dead(s: Source) {
    s.phase == Starting && s.current.None? && s.waiting == 0 && s.release.None?
  }

  /** Turns that end a start: its timers, the close, and a start that reports failure. */
  predicate EndsStart(s: Source, now: Time, e: Event) {
    || e.Close? || e.StartRejects?
    || (e.GraceFires? && Due(s.grace, now))
    || (e.DeadlineFires? && Due(s.deadline, now))
  }

  /** A viewer that joins a dead start gets no encoder: only a timer, close or failure moves it on. */
  lemma DeadPersists(s: Source, now: Time, e: Event)
    requires Shape(s) && Dead(s) && !EndsStart(s, now, e)
    ensures var t := Step(s, now, e);
            Dead(t) && t.created == s.created && t.deadline == s.deadline && t.live == s.live
  {}

  // ---- Stops that settle promptly ----

  predicate Prompt(s: Source, now: Time) {
    s.release.Some? ==>
      && now < s.release.value.began + s.settings.stopGraceMs
      && now < s.release.value.began + s.settings.startTimeoutMs
  }

  /** A start reports failure only while its encoder was not asked to stop, or nothing waits on that stop yet. */
  predicate Behaved(s: Source, e: Event) {
    e.StartRejects? ==>
      e.encoder in s.live && (s.release.Some? && e.encoder == s.release.value.encoder ==> s.waiting == 0)
  }

  predicate PromptShape(s: Source, last: Time, closed: bool) {
    && Shape(s) && Exclusive(s) && s.waiting <= 1
    && (s.waiting == 1 && !closed ==> s.phase == Starting)
    && (closed ==> !Watchable(s.phase))
    && (s.release.Some? ==>
          && s.release.value.began <= last
          && (s.grace.Some? ==> s.grace.value >= s.release.value.began + s.settings.stopGraceMs)
          && (s.deadline.Some? ==> s.deadline.value >= s.release.value.began + s.settings.startTimeoutMs))
  }

  /** With prompt stops and no late rejection at most one start is ever suspended, so no turn can duplicate one. */
  lemma PromptStep(s: Source, last: Time, now: Time, e: Event, closed: bool)
    requires PromptShape(s, last, closed) && last <= now && Prompt(s, now) && Behaved(s, e)
    requires closed ==> !e.Add?
    ensures PromptShape(Step(s, now, e), now, closed || e.Close?)
  {
    ShapeStep(s, now, e);
    ExclusiveStep(s, now, e);
    if e.StopSettles? && s.release.Some? {
      SettleEffect(s, e.bursts);
    }
  }

  // ---- Retry interval ----

  predicate Rested(s: Source, last: Time) {
    s.phase == Starting && s.failedAt.Some? ==> last - s.failedAt.value >= s.settings.retryMinIntervalMs
  }

  /** An encoder is created only once the retry interval since the latest failure has passed. */
  lemma RestedStep(s: Source, last: Time, now: Time, e: Event)
    requires Shape(s) && Rested(s, last) && last <= now
    requires e.Add? ==> Retryable(s, now)
    ensures Rested(Step(s, now, e), now)
    ensures Step(s, now, e).created > s.created ==> Retryable(s, now)
  {
    if e.StopSettles? && s.release.Some? {
      SettleEffect(s, e.bursts);
    }
  }

  /** Keyframe requests that reach the encoder are at least the configured interval apart. */
  predicate Spaced(s: Source) {
    forall i :: 0 < i < |s.asked| ==> s.asked[i] - s.asked[i - 1] >= s.settings.pliMinIntervalMs
  }

  lemma SpacedStep(s: Source, now: Time, e: Event)
    requires Shape(s) && Spaced(s)
    ensures Spaced(Step(s, now, e))
  {
    if e.StopSettles? && s.release.Some? {
      SettleEffect(s, e.bursts);
    }
  }

  // ---- Nothing starts once closed ----

  predicate Terminal(s: Source) {
    !Watchable(s.phase) && s.viewers == []
  }

  lemma CloseIsTerminal(s: Source, now: Time)
    requires Shape(s)
    ensures Terminal(Step(s, now, Close))
  {}

  lemma TerminalStep(s: Source, now: Time, e: Event)
    requires Shape(s) && Terminal(s) && !e.Add?
    ensures Terminal(Step(s, now, e)) && Step(s, now, e).created == s.created
  {
    if e.StopSettles? && s.release.Some? {
      SettleEffect(s, e.bursts);
    }
  }

  /** An encoder with no viewer has an armed grace timer, and that timer puts it into release. */
  lemma UnwatchedEncoderEnds(s: Source, now: Time)
    requires Shape(s) && s.current.Some? && s.viewers == []
    ensures s.grace.Some?
    ensures now >= s.grace.value ==>
      var t := Step(s, now, GraceFires);
      t.phase == Idle && t.current.None? && t.release == Some(Release(s.current.value, now))
  {}

  /** A start nobody serves ends with its deadline. */
  lemma StartEnds(s: Source, now: Time)
    requires Shape(s) && s.phase == Starting
    ensures s.deadline.Some?
    ensures now >= s.deadline.value ==> Step(s, now, DeadlineFires).phase == Failed
  {}

  // ---- Who watches ----

  /** Turns that end the source in failure; whoever watches it is told so and let go. */
  predicate Fails(s: Source, now: Time, e: Event) {
    match e
    case DeadlineFires => Due(s.deadline, now)
    case EncoderFails(encoder) => s.current == Some(encoder)
    case StartRejects(_) => true
    case _ => false
  }

  predicate WatchesAfter(s: Source, now: Time, e: Event, viewer: Viewer) {
    match e
    case Add(joining) => viewer in s.viewers || viewer == joining
    case Remove(leaving) => viewer in s.viewers && viewer != leaving
    case Close => false
    case _ => viewer in s.viewers && !Fails(s, now, e)
  }

  /** Exactly who watches after a turn, and that a failure is what the others are told. */
  lemma ViewersStep(s: Source, now: Time, e: Event, viewer: Viewer)
    requires Shape(s)
    ensures viewer in Step(s, now, e).viewers <==> WatchesAfter(s, now, e, viewer)
    ensures viewer in s.viewers ==>
      viewer in Step(s, now, e).told && (Step(s, now, e).told[viewer] == Failed <==> Fails(s, now, e))
  {
    match e
    case Add(joining) => JoinedViewers(s, joining);
    case Remove(leaving) => WithoutRemoves(s.viewers, leaving);
    case StopSettles(bursts) => ShapeStep(s, now, e); if s.release.Some? { SettleEffect(s, bursts); }
    case _ => ShapeStep(s, now, e);
  }
}
