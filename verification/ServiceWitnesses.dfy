/** Concrete runs showing that the conditions of `SourceInvariants` are met by the program. */
module ServiceWitnesses {
  import opened Basics
  import opened MediaTypes
  import opened SourceModel
  import opened SourceInvariants
  import opened ServiceModel
  import opened ServiceRuns

  const SETTINGS := Settings(5000.0, 1000.0, 5000.0, 500.0)
  const FRONT := "front"
  const A := Viewer(1, FRONT)
  const B := Viewer(2, FRONT)
  const C := Viewer(3, FRONT)

  /** A's encoder cannot start and its stop lasts; B's restart is suspended on that release. */
  const SUSPENDED := [
    Turn(0.0, Attach(FRONT, A)), Turn(1.0, Callback(FRONT, StartRejects(0))), Turn(1001.0, Attach(FRONT, B))]

  /** B's start deadline expires and C joins: two starts resume on one release. */
  const DUPLICATED := SUSPENDED + [
    Turn(6001.0, Callback(FRONT, DeadlineFires)), Turn(7001.0, Attach(FRONT, C)),
    Turn(7002.0, Callback(FRONT, StopSettles([])))]

  /** B leaves, the stop settles, and C joins while the grace timer is still armed. */
  const ABANDONED := SUSPENDED + [
    Turn(1002.0, Detach(FRONT, B)), Turn(1003.0, Callback(FRONT, StopSettles([]))), Turn(1004.0, Attach(FRONT, C))]

  function OneTrack(s: Source): Service {
    Service(1, map[FRONT := s], false)
  }

  predicate Reaches(turns: seq<Turn>, s: Source) {
    Shape(s) && s.settings == SETTINGS && Run(Configure(SETTINGS, map[FRONT := 30], 1), turns) == OneTrack(s)
  }

  lemma Extend(turns: seq<Turn>, s: Source, turn: Turn, next: Source)
    requires Reaches(turns, s)
    requires !turn.input.Shutdown? && turn.input.track == FRONT
    requires turn.input.Attach? ==> Retryable(s, turn.at)
    requires turn.input.Callback? ==> FromOutside(turn.input.event)
    requires next == Step(s, turn.at, SourceEvent(turn.input))
    ensures Reaches(turns + [turn], next)
  {
    hide Step;
    RunAppend(Configure(SETTINGS, map[FRONT := 30], 1), turns, turn);
    if !Running(s) { assert RunningTracks(OneTrack(s)) == {}; }
    ShapeStep(s, turn.at, SourceEvent(turn.input));
    StepKeepsSettings(s, turn.at, SourceEvent(turn.input));
  }

  lemma StepKeepsSettings(s: Source, now: Time, e: Event)
    requires Shape(s)
    ensures Step(s, now, e).settings == s.settings
  {
    if e.StopSettles? && s.release.Some? { SettleEffect(s, e.bursts); }
  }

  predicate OnlyWaits(s: Source, starts: nat) {
    && s.release == Some(Release(0, 1.0)) && s.waiting == starts
    && s.created == 1 && s.live == {0} && s.failedAt == Some(if starts < 2 then 1.0 else 6001.0)
  }

  lemma Start() returns (s: Source)
    ensures Reaches(SUSPENDED[..1], s)
    ensures s.viewers == [A] && s.phase == Starting && s.current == Some(0) && s.created == 1 && s.live == {0}
    ensures s.waiting == 0
  {
    var idle := Initial(SETTINGS, 30);
    assert Configure(SETTINGS, map[FRONT := 30], 1) == OneTrack(idle);
    s := Step(idle, 0.0, Add(A));
    Extend([], idle, SUSPENDED[0], s);
    assert SUSPENDED[..1] == [] + [SUSPENDED[0]];
  }

  lemma Fail() returns (s: Source)
    ensures Reaches(SUSPENDED[..2], s) && OnlyWaits(s, 0) && s.phase == Failed && s.viewers == []
  {
    var before := Start();
    s := Step(before, 1.0, StartRejects(0));
    Extend(SUSPENDED[..1], before, SUSPENDED[1], s);
    assert SUSPENDED[..2] == SUSPENDED[..1] + [SUSPENDED[1]];
  }

  lemma Suspend() returns (s: Source)
    ensures Reaches(SUSPENDED, s) && OnlyWaits(s, 1) && s.phase == Starting && s.viewers == [B]
    ensures s.deadline == Some(6001.0)
  {
    var before := Fail();
    s := Step(before, 1001.0, Add(B));
    Extend(SUSPENDED[..2], before, SUSPENDED[2], s);
    assert SUSPENDED == SUSPENDED[..2] + [SUSPENDED[2]];
  }

  lemma Expire() returns (s: Source)
    ensures Reaches(DUPLICATED[..4], s) && s.phase == Failed && s.viewers == []
    ensures s.release == Some(Release(0, 1.0)) && s.waiting == 1 && s.created == 1 && s.live == {0}
    ensures s.failedAt == Some(6001.0)
  {
    var before := Suspend();
    s := Step(before, 6001.0, DeadlineFires);
    Extend(SUSPENDED, before, DUPLICATED[3], s);
    assert DUPLICATED[..4] == SUSPENDED + [DUPLICATED[3]];
  }

  lemma SuspendAgain() returns (s: Source)
    ensures Reaches(DUPLICATED[..5], s) && OnlyWaits(s, 2) && s.phase == Starting && s.viewers == [C]
  {
    var before := Expire();
    s := Step(before, 7001.0, Add(C));
    Extend(DUPLICATED[..4], before, DUPLICATED[4], s);
    assert DUPLICATED[..5] == DUPLICATED[..4] + [DUPLICATED[4]];
  }

  lemma BothCreate(before: Source)
    requires Shape(before) && OnlyWaits(before, 2) && Wanted(before)
    ensures var s := Step(before, 7002.0, StopSettles([]));
            s.live == {1, 2} && s.current == Some(2) && s.release.None? && s.viewers == before.viewers
  {
    SettleEffect(before, []);
    assert Creations(true, 2, []) == 1 + Creations(true, 1, []);
    assert Ids(1, 3) == {1, 2};
  }

  lemma ResumeBoth() returns (s: Source)
    ensures Reaches(DUPLICATED, s) && s.live == {1, 2} && s.current == Some(2) && s.release.None?
    ensures s.viewers == [C]
  {
    hide Step, Shape, Run;
    var before := SuspendAgain();
    BothCreate(before);
    s := Step(before, 7002.0, StopSettles([]));
    Extend(DUPLICATED[..5], before, DUPLICATED[5], s);
    assert DUPLICATED == DUPLICATED[..5] + [DUPLICATED[5]];
  }

  lemma TwoLive(s: Source)
    requires s.live == {1, 2}
    ensures |LiveEncoders(OneTrack(s))| > 1
  {
    assert {(FRONT, 1), (FRONT, 2)} <= LiveEncoders(OneTrack(s));
    SubsetSize({(FRONT, 1), (FRONT, 2)}, LiveEncoders(OneTrack(s)));
  }

  /** The one-encoder property fails: this run leaves two live encoders, the first of them stranded. */
  lemma DuplicateIsReachable() returns (s: Source)
    ensures Clocked(DUPLICATED, 0.0)
    ensures Run(Configure(SETTINGS, map[FRONT := 30], 1), DUPLICATED) == OneTrack(s)
    ensures s.live == {1, 2} && Stranded(s, 1) && |LiveEncoders(OneTrack(s))| > 1
  {
    s := ResumeBoth();
    TwoLive(s);
    ClockedByIndex(DUPLICATED, 0.0);
  }

  lemma {:induction false} ClockedByIndex(turns: seq<Turn>, last: Time)
    requires turns != [] ==> last <= turns[0].at
    requires forall i :: 0 < i < |turns| ==> turns[i - 1].at <= turns[i].at
    ensures Clocked(turns, last)
    decreases |turns|
  {
    if |turns| > 1 {
      ClockedByIndex(turns[1..], turns[0].at);
    }
  }

  lemma Leave() returns (s: Source)
    ensures Reaches(ABANDONED[..4], s) && OnlyWaits(s, 1) && s.phase == Starting && s.viewers == []
  {
    var before := Suspend();
    assert Without([B], B) == [];
    s := Step(before, 1002.0, Remove(B));
    Extend(SUSPENDED, before, ABANDONED[3], s);
    assert ABANDONED[..4] == SUSPENDED + [ABANDONED[3]];
  }

  lemma Abandon() returns (s: Source)
    ensures Reaches(ABANDONED[..5], s) && Dead(s) && s.viewers == [] && s.live == {} && s.failedAt == Some(1.0)
  {
    var before := Leave();
    s := Step(before, 1003.0, StopSettles([]));
    SettleEffect(before, []);
    Extend(ABANDONED[..4], before, ABANDONED[4], s);
    assert ABANDONED[..5] == ABANDONED[..4] + [ABANDONED[4]];
  }

  /** "A starting source has a start in progress" fails too: C waits here for an encoder nobody creates. */
  lemma AbandonedStartIsReachable() returns (s: Source)
    ensures Clocked(ABANDONED, 0.0)
    ensures Run(Configure(SETTINGS, map[FRONT := 30], 1), ABANDONED) == OneTrack(s)
    ensures s.viewers == [C] && Dead(s) && s.live == {} && C in s.told && s.told[C] == Starting
  {
    var before := Abandon();
    s := Step(before, 1004.0, Add(C));
    Extend(ABANDONED[..5], before, ABANDONED[5], s);
    assert ABANDONED == ABANDONED[..5] + [ABANDONED[5]];
    ClockedByIndex(ABANDONED, 0.0);
  }
}
