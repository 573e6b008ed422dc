/** Concrete runs in which an attachment is disturbed before it returns. */
module VideoWitnesses {
  import opened Basics
  import opened MediaTypes
  import opened SourceModel
  import opened SourceInvariants
  import opened ServiceModel
  import opened VideoModel
  import opened VideoSystem
  import opened VideoSafety

  const SETTINGS := Settings(5000.0, 1000.0, 5000.0, 500.0)
  const FRONT := "front"
  const SLOT := Slot("0", 66)
  const OPENS := Move(0.0, Open(0, [SLOT]))

  function Origin(): System {
    Start(SETTINGS, map[FRONT := 30], 1, map[FRONT := 66])
  }

  /** Peer 0 subscribes to the only track, which nobody watches, and `during` happens meanwhile. */
  function Subscribes(during: seq<Provocation>): Move {
    Move(1.0, Subscribe(0, FRONT, true, during))
  }

  lemma Opened() returns (sys: System)
    ensures sys == Perform(Origin(), OPENS)
    ensures Sound(sys) && Coupled(sys) && Clean(sys) && !sys.service.closed && Serving(sys, 0)
    ensures sys.peers[0].video == VideoModel.Initial([SLOT]) && sys.profiles == map[FRONT := 66]
    ensures sys.service == Configure(SETTINGS, map[FRONT := 30], 1)
  {
    StartSound(SETTINGS, map[FRONT := 30], 1, map[FRONT := 66]);
    PerformStep(Origin(), OPENS);
    sys := Perform(Origin(), OPENS);
  }

  lemma Subscribed(during: seq<Provocation>) returns (sys: System, ready: System, after: System)
    ensures sys == Perform(Origin(), OPENS) && Attaches(sys, Subscribes(during)) && FreshFor(sys, FRONT)
    ensures 0 in after.peers && Has(after.peers[0].video, FRONT)
    ensures Perform(sys, Subscribes(during)) == SetVideo(after, 0, Flag(after.peers[0].video, FRONT, true))
    ensures MidJoin(ready, after, 0, FRONT, FailsEncoder in during)
    ensures after.peers[0].closed <==> ClosesRouter in during
  {
    hide Sound, CoupledBut, CleanBut, Join, Provoke, MidJoin, Step;
    sys := Opened();
    assert Fitting([SLOT], 66) == 0;
    assert RunningTracks(sys.service) == {};
    var joins;
    ready, joins := Bound(sys, 0, FRONT, during, 1.0);
    after := Provoked(ready, 0, FRONT, during, 1.0);
  }

  /** The peer is left believing that it watches a track whose source holds no viewer. */
  lemma FailsInsideIsReachable() returns (sys: System)
    ensures sys == Course(Origin(), [OPENS, Subscribes([FailsEncoder])])
    ensures FailsInside(Perform(Origin(), OPENS), Subscribes([FailsEncoder]))
    ensures 0 in sys.peers && Attached(sys.peers[0].video, FRONT) && !InSource(sys.service, 0, FRONT)
  {
    hide Sound, CoupledBut, CleanBut, Perform, FreshEncoder, FreshFor, Attaches;
    var before, ready, after := Subscribed([FailsEncoder]);
    CourseOfTwo(Origin(), OPENS, Subscribes([FailsEncoder]));
    sys := Course(Origin(), [OPENS, Subscribes([FailsEncoder])]);
    FlagFlags(after.peers[0].video, FRONT, true, FRONT);
  }

  /** The closed peer is left with a viewer in the source, where it holds the encoder. */
  lemma ClosesInsideIsReachable() returns (sys: System)
    ensures sys == Course(Origin(), [OPENS, Subscribes([ClosesRouter])])
    ensures ClosesInside(Perform(Origin(), OPENS), Subscribes([ClosesRouter]))
    ensures 0 in sys.peers && sys.peers[0].closed && InSource(sys.service, 0, FRONT)
  {
    hide Sound, CoupledBut, CleanBut, Perform, FreshEncoder, FreshFor, Attaches;
    var before, ready, after := Subscribed([ClosesRouter]);
    CourseOfTwo(Origin(), OPENS, Subscribes([ClosesRouter]));
    sys := Course(Origin(), [OPENS, Subscribes([ClosesRouter])]);
  }

  lemma CourseOfTwo(sys: System, a: Move, b: Move)
    ensures Course(sys, [a, b]) == Perform(Perform(sys, a), b)
  {
    hide Perform;
    var next := Perform(sys, a);
    assert [a, b][1..] == [b] && [b][1..] == [];
    assert Course(next, [b]) == Course(Perform(next, b), []);
  }
}
