/** A concrete run in which a stranded encoder fails the source that moved on from it. */
module SupervisedWitnesses {
  import opened Basics
  import opened MediaTypes
  import opened SourceModel
  import opened SourceInvariants
  import opened ServiceModel
  import opened ServiceRuns
  import opened ServiceWitnesses
  import opened SupervisedModel
  import opened SupervisedRuns
  import W = WorkerModel

  /** Worker 0 exits before it acknowledges; the rest is the run that resumes two starts on one release. */
  const STRANDING := [
    Timed(0.0, Environment(Attach(FRONT, A))), Timed(1.0, Signalled(FRONT, 0, W.Exit)),
    Timed(1001.0, Environment(Attach(FRONT, B))), Timed(6001.0, Environment(Callback(FRONT, DeadlineFires))),
    Timed(7001.0, Environment(Attach(FRONT, C))), Timed(7002.0, Environment(Callback(FRONT, StopSettles([]))))]

  /** Then worker 1, which nothing in the source refers to any more, exits. */
  const DISTURBED := STRANDING + [Timed(7003.0, Signalled(FRONT, 1, W.Exit))]

  function Origin(): System {
    SupervisedModel.Start(SETTINGS, map[FRONT := 30], 1)
  }

  /** The moves so far amount to these turns, and no worker other than the first has answered its start. */
  ghost predicate Amounts(moves: seq<Timed>, turns: seq<Turn>, classify: Classify) {
    var sys := SupervisedModel.Run(Origin(), moves, classify);
    && AllLinked(sys) && sys.turns == turns && FRONT in sys.workers
    && sys.sv == ServiceModel.Run(Configure(SETTINGS, map[FRONT := 30], 1), turns)
    && (forall e :: e in sys.workers[FRONT] ==>
          if e > 0 || |turns| <= 1 then !sys.workers[FRONT][e].settled else true)
  }

  lemma {:induction false} MovesAppend(sys: System, moves: seq<Timed>, move: Timed, classify: Classify)
    ensures SupervisedModel.Run(sys, moves + [move], classify)
      == Next(SupervisedModel.Run(sys, moves, classify), move, classify)
    decreases |moves|
  {
    hide Next;
    if moves == [] {
      assert [] + [move] == [move] && [move][1..] == [];
    } else {
      assert (moves + [move])[1..] == moves[1..] + [move];
      MovesAppend(Next(sys, moves[0], classify), moves[1..], move, classify);
    }
  }

  /** A turn settles no worker. */
  lemma TellUnsettled(sys: System, turn: Turn, track: string, encoder: nat)
    requires AllLinked(sys) && Employs(Tell(sys, turn), track, encoder)
    ensures Tell(sys, turn).workers[track][encoder].settled ==>
            Employs(sys, track, encoder) && sys.workers[track][encoder].settled
  {
    hide Apply, Linked;
  }

  lemma OnwardsByEnvironment(moves: seq<Timed>, turns: seq<Turn>, at: Time, input: Input, classify: Classify)
    requires Amounts(moves, turns, classify)
    requires input.Callback? ==> !input.event.Packet? && !input.event.EncoderFails? && !input.event.StartRejects?
    ensures Amounts(moves + [Timed(at, Environment(input))], turns + [Turn(at, input)], classify)
  {
    hide AllLinked, Apply, Follow, SupervisedModel.Run, Configure;
    var sys, turn := SupervisedModel.Run(Origin(), moves, classify), Turn(at, input);
    MovesAppend(Origin(), moves, Timed(at, Environment(input)), classify);
    TellLinked(sys, turn);
    RunAppend(Configure(SETTINGS, map[FRONT := 30], 1), turns, turn);
    LinkedKeys(sys);
    LinkedKeys(Tell(sys, turn));
    forall e | e in Tell(sys, turn).workers[FRONT]
      ensures Tell(sys, turn).workers[FRONT][e].settled ==> e in sys.workers[FRONT] && sys.workers[FRONT][e].settled
    { TellUnsettled(sys, turn, FRONT, e); }
  }

  lemma LinkedKeys(sys: System)
    requires AllLinked(sys)
    ensures sys.workers.Keys == sys.sv.sources.Keys
  {
    hide Linked;
  }

  /** A worker that exits unasked before it answered its start rejects it. */
  lemma ExitRejects(sys: System, track: string, encoder: nat, at: Time, classify: Classify)
    requires Employs(sys, track, encoder)
    requires !sys.workers[track][encoder].settled && !sys.workers[track][encoder].stopping
    ensures var w := sys.workers[track][encoder];
            Next(sys, Timed(at, Signalled(track, encoder, W.Exit)), classify)
            == Tell(SetWorker(sys, track, encoder, W.Fail(w)), Turn(at, Callback(track, StartRejects(encoder))))
  {
    hide Tell;
    var w := sys.workers[track][encoder];
    assert [Trouble][1..] == [];
    var same := SetWorker(sys, track, encoder, w);
    assert same.workers[track][encoder := W.Fail(w)] == sys.workers[track][encoder := W.Fail(w)];
    assert SetWorker(same, track, encoder, W.Fail(w)).workers == SetWorker(sys, track, encoder, W.Fail(w)).workers;
  }
  lemma ExitFails(sys: System, track: string, encoder: nat, at: Time, classify: Classify)
    requires AllLinked(sys) && Employs(sys, track, encoder)
    requires !sys.workers[track][encoder].settled && !sys.workers[track][encoder].stopping
    ensures var next := Next(sys, Timed(at, Signalled(track, encoder, W.Exit)), classify);
            var turn := Turn(at, Callback(track, StartRejects(encoder)));
            && AllLinked(next) && next.turns == sys.turns + [turn] && next.sv == Apply(sys.sv, turn)
            && next.workers.Keys == sys.workers.Keys
            && (forall e :: Employs(next, track, e) && e != encoder && next.workers[track][e].settled ==>
                  Employs(sys, track, e) && sys.workers[track][e].settled)
  {
    hide AllLinked, Apply, Follow, Next;
    var fail := W.Fail(sys.workers[track][encoder]);
    var failed, turn := SetWorker(sys, track, encoder, fail), Turn(at, Callback(track, StartRejects(encoder)));
    ExitRejects(sys, track, encoder, at, classify);
    SetWorkerLinked(sys, track, encoder, fail);
    TellLinked(failed, turn);
    LinkedKeys(sys);
    LinkedKeys(Tell(failed, turn));
    forall e | Employs(Tell(failed, turn), track, e) && e != encoder && Tell(failed, turn).workers[track][e].settled
      ensures Employs(sys, track, e) && sys.workers[track][e].settled
    { TellUnsettled(failed, turn, track, e); }
  }

  lemma StartAmounts(classify: Classify)
    ensures Amounts([], [], classify)
  {
    hide AllLinked;
    StartLinked(SETTINGS, map[FRONT := 30], 1, 0.0);
  }

  /** A live encoder that is not in release has an unstopped worker. */
  lemma Unstopped(sys: System, s: Source, encoder: nat)
    requires AllLinked(sys) && sys.sv == OneTrack(s) && Shape(s) && encoder in s.live
    requires s.release.None? || s.release.value.encoder != encoder
    ensures Employs(sys, FRONT, encoder) && !sys.workers[FRONT][encoder].stopping
  {
    assert sys.sv.sources[FRONT] == s;
    EmploysCreated(sys, FRONT, encoder);
    assert Linked(s, sys.workers[FRONT]);
  }

  lemma FirstExit(classify: Classify)
    ensures Amounts(STRANDING[..2], DUPLICATED[..2], classify)
  {
    hide AllLinked, Apply, Next, Configure, SupervisedModel.Start, Tell;
    var sv := Configure(SETTINGS, map[FRONT := 30], 1);
    StartAmounts(classify);
    OnwardsByEnvironment([], [], 0.0, Attach(FRONT, A), classify);
    assert [] + [STRANDING[0]] == STRANDING[..1] && [] + [DUPLICATED[0]] == DUPLICATED[..1];
    var sys := SupervisedModel.Run(Origin(), STRANDING[..1], classify);
    assert STRANDING[..1] + [STRANDING[1]] == STRANDING[..2] && DUPLICATED[..1] + [DUPLICATED[1]] == DUPLICATED[..2];
    MovesAppend(Origin(), STRANDING[..1], STRANDING[1], classify);
    RunAppend(sv, DUPLICATED[..1], DUPLICATED[1]);
    var s := ServiceWitnesses.Start();
    assert SUSPENDED[..1] == DUPLICATED[..1];
    Unstopped(sys, s, 0);
    ExitFails(sys, FRONT, 0, 1.0, classify);
    var next := Next(sys, STRANDING[1], classify);
    assert forall e :: e in next.workers[FRONT] ==> Employs(next, FRONT, e);
    assert forall e :: Employs(sys, FRONT, e) ==> !sys.workers[FRONT][e].settled;
  }
  /** The moves take exactly the turns of the run that strands encoder 1. */
  lemma StrandingAmounts(classify: Classify)
    ensures Amounts(STRANDING, DUPLICATED, classify)
  {
    hide Amounts;
    FirstExit(classify);
    OnwardsByEnvironment(STRANDING[..2], DUPLICATED[..2], 1001.0, Attach(FRONT, B), classify);
    assert STRANDING[..2] + [STRANDING[2]] == STRANDING[..3] && DUPLICATED[..2] + [DUPLICATED[2]] == DUPLICATED[..3];
    OnwardsByEnvironment(STRANDING[..3], DUPLICATED[..3], 6001.0, Callback(FRONT, DeadlineFires), classify);
    assert STRANDING[..3] + [STRANDING[3]] == STRANDING[..4] && DUPLICATED[..3] + [DUPLICATED[3]] == DUPLICATED[..4];
    OnwardsByEnvironment(STRANDING[..4], DUPLICATED[..4], 7001.0, Attach(FRONT, C), classify);
    assert STRANDING[..4] + [STRANDING[4]] == STRANDING[..5] && DUPLICATED[..4] + [DUPLICATED[4]] == DUPLICATED[..5];
    OnwardsByEnvironment(STRANDING[..5], DUPLICATED[..5], 7002.0, Callback(FRONT, StopSettles([])), classify);
    assert STRANDING[..5] + [STRANDING[5]] == STRANDING && DUPLICATED[..5] + [DUPLICATED[5]] == DUPLICATED;
  }

  /** The exit of the stranded worker 1 fails the source and drops encoder 2, which had done nothing wrong. */
  lemma StrandedExitFails(classify: Classify) returns (before: Source, after: Source)
    ensures SupervisedModel.Run(Origin(), STRANDING, classify).sv == OneTrack(before)
    ensures Watchable(before.phase) && before.viewers == [C] && before.current == Some(2) && Stranded(before, 1)
    ensures SupervisedModel.Run(Origin(), DISTURBED, classify).sv == OneTrack(after)
    ensures after.phase == Failed && after.viewers == [] && after.release == Some(Release(2, 7003.0))
  {
    hide AllLinked, Next, Configure, SupervisedModel.Start, SupervisedModel.Run, ServiceModel.Run;
    StrandingAmounts(classify);
    var sys := SupervisedModel.Run(Origin(), STRANDING, classify);
    before := ResumeBoth();
    Unstopped(sys, before, 1);
    ExitFails(sys, FRONT, 1, 7003.0, classify);
    MovesAppend(Origin(), STRANDING, DISTURBED[6], classify);
    after := Step(before, 7003.0, StartRejects(1));
    CallbackTouches(sys.sv, 7003.0, FRONT, StartRejects(1));
    assert map[FRONT := before][FRONT := after] == map[FRONT := after];
  }
}
