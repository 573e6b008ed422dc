/**
 * The session router and the coupled peers agree on video: whatever a notification makes the router do to its
 * tracks is a sequence of revocations and a close, as `VideoSystem` has them.
 */
module RouterVideos {
  import opened Basics
  import opened MediaTypes
  import opened DeliveryModel
  import opened RouterModel
  import ServiceModel
  import V = VideoModel
  import S = VideoSystem

  /** The same video state on both sides, with the media plane up. */
  ghost predicate Level(r: Router, sys: S.System, p: nat) {
    && p in sys.peers && sys.peers[p].video == r.video && sys.peers[p].closed == r.core.closed
    && !sys.service.closed && !r.world.planeDown
    && (forall i :: 0 <= i < |r.video.bound| ==> r.video.bound[i].track in sys.service.sources)
    && (forall i, j :: 0 <= i < j < |r.video.bound| ==> r.video.bound[i].track != r.video.bound[j].track)
  }

  /** And a closed session watches nothing. */
  ghost predicate Alike(r: Router, sys: S.System, p: nat) {
    Level(r, sys, p) && (r.core.closed ==> forall i :: 0 <= i < |r.video.bound| ==> !r.video.bound[i].watching)
  }

  /** Only the queue, the trace, the subscriptions and the answers still to come may differ. */
  lemma StillAlike(r: Router, later: Router, sys: S.System, p: nat)
    requires Alike(r, sys, p) && later.video == r.video && later.core.closed == r.core.closed
    requires later.world.planeDown == r.world.planeDown
    ensures Alike(later, sys, p)
  {}

  // ---- Letting go ----

  lemma PositionOf(v: V.Video, i: nat)
    requires i < |v.bound| && forall j, k :: 0 <= j < k < |v.bound| ==> v.bound[j].track != v.bound[k].track
    ensures V.Has(v, v.bound[i].track) && V.Position(v.bound, v.bound[i].track) == i
  {
    assert v.bound[i].track == v.bound[i].track;
  }

  lemma LetGoLevel(r: Router, sys: S.System, p: nat, i: nat, now: Time)
    requires Level(r, sys, p) && i < |r.video.bound|
    ensures V.Has(sys.peers[p].video, r.video.bound[i].track)
    ensures var (later, threw) := LetGo(r, i);
            var (next, failed) := S.LetGo(sys, p, r.video.bound[i].track, now);
            Level(later, next, p) && !threw && !failed
  {
    PositionOf(r.video, i);
  }

  lemma {:induction false} CloseVideoLevel(r: Router, sys: S.System, p: nat, i: nat, now: Time)
    requires Level(r, sys, p)
    ensures var (later, threw) := CloseVideo(r, i);
            var (next, failed) := S.LetGoFrom(sys, p, i, now, None);
            && Level(later, next, p) && !threw && !failed && |later.video.bound| == |r.video.bound|
            && (forall k :: 0 <= k < |r.video.bound| && (k >= i || !r.video.bound[k].watching) ==>
                  !later.video.bound[k].watching)
    decreases |r.video.bound| - i
  {
    hide S.LetGo, ServiceModel.Apply;
    if i < |r.video.bound| {
      LetGoLevel(r, sys, p, i, now);
      CloseVideoLevel(LetGo(r, i).0, S.LetGo(sys, p, r.video.bound[i].track, now).0, p, i + 1, now);
    }
  }

  lemma CloseAlike(r: Router, sys: S.System, p: nat, now: Time)
    requires Alike(r, sys, p)
    ensures Alike(Close(r).0, S.Part(sys, p, now), p)
  {
    hide CloseVideo, S.LetGoFrom, Unlisten;
    if !r.core.closed {
      CloseOpen(r, sys, p, now);
      var (silent, threw) := CloseVideo(r.(core := MarkClosed(r.core)), 0);
      StillAlike(silent, Close(r).0, S.Part(sys, p, now), p);
    }
  }

  /** Marking the session closed comes before its tracks are let go of, so the flags lag for a moment. */
  lemma CloseOpen(r: Router, sys: S.System, p: nat, now: Time)
    requires Alike(r, sys, p) && !r.core.closed
    ensures var (silent, threw) := CloseVideo(r.(core := MarkClosed(r.core)), 0);
            Alike(silent, S.Part(sys, p, now), p) && !threw
  {
    hide CloseVideo, S.LetGoFrom;
    CloseVideoLevel(r.(core := MarkClosed(r.core)), S.Shut(sys, p), p, 0, now);
  }

  // ---- One revocation ----

  lemma RevokesNot(sys: S.System, p: nat, track: string, k: nat, now: Time)
    requires p in sys.peers && k < |sys.peers[p].video.bound| && sys.peers[p].video.bound[k].track != track
    ensures S.LetGoFrom(sys, p, k, now, Some({track})) == S.LetGoFrom(sys, p, k + 1, now, Some({track}))
  {}

  lemma RevokesHere(sys: S.System, p: nat, track: string, k: nat, now: Time)
    requires p in sys.peers && V.Has(sys.peers[p].video, track) && V.Position(sys.peers[p].video.bound, track) == k
    requires sys.peers[p].video.bound[k].watching
    ensures S.Framed(sys, S.LetGo(sys, p, track, now).0)
    ensures var (next, threw) := S.LetGo(sys, p, track, now);
            S.LetGoFrom(sys, p, k, now, Some({track}))
            == if threw then (next, true) else S.LetGoFrom(next, p, k + 1, now, Some({track}))
  {
    hide S.LetGo;
  }

  /** Revoking one watched track lets go of that track alone. */
  lemma {:induction false} RevokesOne(sys: S.System, p: nat, i: nat, k: nat, now: Time)
    requires p in sys.peers && k <= i < |sys.peers[p].video.bound| && sys.peers[p].video.bound[i].watching
    requires var v := sys.peers[p].video; forall a, b :: 0 <= a < b < |v.bound| ==> v.bound[a].track != v.bound[b].track
    ensures var track := sys.peers[p].video.bound[i].track;
            && V.Has(sys.peers[p].video, track)
            && S.LetGoFrom(sys, p, k, now, Some({track})).0 == S.LetGo(sys, p, track, now).0
    decreases i - k
  {
    hide S.LetGo, S.LetGoFrom;
    var v := sys.peers[p].video;
    PositionOf(v, i);
    if k < i {
      RevokesNot(sys, p, v.bound[i].track, k, now);
      RevokesOne(sys, p, i, k + 1, now);
    } else {
      RevokesHere(sys, p, v.bound[i].track, i, now);
      var next := S.LetGo(sys, p, v.bound[i].track, now).0;
      RevokesNoMore(next, p, v.bound[i].track, i + 1, now);
    }
  }

  lemma {:induction false} RevokesNoMore(sys: S.System, p: nat, track: string, k: nat, now: Time)
    requires p in sys.peers
    requires var v := sys.peers[p].video; forall j :: k <= j < |v.bound| ==> v.bound[j].track != track
    ensures S.LetGoFrom(sys, p, k, now, Some({track})) == (sys, false)
    decreases |sys.peers[p].video.bound| - k
  {
    if k < |sys.peers[p].video.bound| {
      RevokesNot(sys, p, track, k, now);
      RevokesNoMore(sys, p, track, k + 1, now);
    }
  }

  // ---- What a notification makes the router do ----

  /** The coupled system in which an attachment is being made, and what has happened in it since. */
  datatype Joining = Joining(before: S.System, peer: nat, track: string, at: Time)

  function Do(j: Joining, sys: S.System, during: seq<S.Provocation>): S.System
    requires j.peer in sys.peers
  {
    S.Provoke(j.before, sys, j.peer, j.track, during, j.at)
  }

  /** Revocations and closes only. */
  predicate OwnDoing(during: seq<S.Provocation>) {
    forall x :: x in during ==> x.Revokes? || x.ClosesRouter?
  }

  /** The router did to its video what these provocations do. */
  ghost predicate Does(j: Joining, sys: S.System, during: seq<S.Provocation>, later: Router)
    requires j.peer in sys.peers
  {
    OwnDoing(during) && Alike(later, Do(j, sys, during), j.peer)
  }

  lemma {:induction false} DoAppend(j: Joining, sys: S.System, a: seq<S.Provocation>, b: seq<S.Provocation>)
    requires j.peer in sys.peers
    ensures Do(j, sys, a + b) == Do(j, Do(j, sys, a), b)
    decreases |a|
  {
    if a == [] {
      assert a + b == b;
    } else {
      assert (a + b)[1..] == a[1..] + b;
      DoAppend(j, S.ProvokeOne(j.before, sys, j.peer, j.track, a[0], j.at), a[1..], b);
    }
  }

  lemma ThenDoes(j: Joining, sys: S.System, a: seq<S.Provocation>, middle: Router, b: seq<S.Provocation>, later: Router)
    requires j.peer in sys.peers && Does(j, sys, a, middle) && Does(j, Do(j, sys, a), b, later)
    ensures Does(j, sys, a + b, later)
  {
    hide Alike, Do;
    DoAppend(j, sys, a, b);
  }

  lemma DoesNothing(j: Joining, sys: S.System, r: Router, later: Router)
    requires Alike(r, sys, j.peer) && later.video == r.video && later.core.closed == r.core.closed
    requires later.world.planeDown == r.world.planeDown
    ensures j.peer in sys.peers && Does(j, sys, [], later)
  {
    StillAlike(r, later, sys, j.peer);
  }

  lemma CloseDoes(j: Joining, sys: S.System, r: Router)
    requires Alike(r, sys, j.peer)
    ensures j.peer in sys.peers && Does(j, sys, [S.ClosesRouter], Close(r).0)
  {
    hide Close, S.Part;
    CloseAlike(r, sys, j.peer, j.at);
    assert [S.ClosesRouter][1..] == [];
    assert Do(j, sys, [S.ClosesRouter]) == Do(j, S.Part(sys, j.peer, j.at), []);
  }

  /** Finding one watched track denied. */
  lemma LetGoDoes(j: Joining, sys: S.System, r: Router, i: nat)
    requires Alike(r, sys, j.peer) && i < |r.video.bound| && r.video.bound[i].watching
    ensures j.peer in sys.peers && Does(j, sys, [S.Revokes({r.video.bound[i].track})], LetGo(r, i).0)
    ensures !LetGo(r, i).1
  {
    var revoked := S.Revokes({r.video.bound[i].track});
    LetGoLevel(r, sys, j.peer, i, j.at);
    RevokesOne(sys, j.peer, i, 0, j.at);
    assert [revoked][1..] == [];
    assert Do(j, sys, [revoked]) == Do(j, S.LetGo(sys, j.peer, r.video.bound[i].track, j.at).0, []);
  }

  lemma RespondSame(r: Router, wire: Wire)
    ensures var later := Respond(r, wire).0;
            later.video == r.video && later.core.closed == r.core.closed && later.world.planeDown == r.world.planeDown
  {
    hide EnqueueControl;
  }

  lemma DrainSame(r: Router, id: string)
    ensures var later := Drain(r, id).0;
            later.video == r.video && later.core.closed == r.core.closed && later.world.planeDown == r.world.planeDown
  {
    hide Drain;
  }

  lemma DrainSubsDoes(j: Joining, sys: S.System, r: Router, i: nat) returns (during: seq<S.Provocation>)
    requires Alike(r, sys, j.peer)
    ensures j.peer in sys.peers && Does(j, sys, during, DrainSubs(r, i).0)
    decreases Load(r), 1, |r.core.subs| - i
  {
    hide Alike, Does, Drain, Error, Permitted;
    DoesNothing(j, sys, r, r);
    during := [];
    if i < |r.core.subs| {
      var sub := r.core.subs[i];
      var (granted, asked) := Permitted(r, sub.topic, RosToWeb);
      if !granted {
        var (failed, after) := Ask(asked.(core := Expel(asked.core, sub.id)));
        DoesNothing(j, sys, r, after);
        StillAlike(r, after, sys, j.peer);
        if !failed { during := ErrorDoes(j, sys, after, None); }
      } else {
        var allowed := asked.(core := Grant(asked.core, sub.id));
        DrainSame(allowed, sub.id);
        var (drained, outcome) := Drain(allowed, sub.id);
        DoesNothing(j, sys, r, drained);
        StillAlike(r, drained, sys, j.peer);
        if outcome.Emptied? { during := DrainSubsDoes(j, sys, drained, i + 1); }
      }
    }
  }

  lemma RevalidateDoes(j: Joining, sys: S.System, r: Router, i: nat) returns (during: seq<S.Provocation>)
    requires Alike(r, sys, j.peer)
    ensures j.peer in sys.peers && Does(j, sys, during, Revalidate(r, i).0)
    decreases Load(r), 1, |r.video.bound| - i
  {
    hide Alike, Does, Do, Notice, LetGo;
    DoesNothing(j, sys, r, r);
    during := [];
    if i < |r.video.bound| {
      var (allowed, asked) := Ask(r);
      StillAlike(r, asked, sys, j.peer);
      if !r.video.bound[i].watching {
        during := RevalidateDoes(j, sys, r, i + 1);
      } else if allowed {
        during := RevalidateDoes(j, sys, asked, i + 1);
      } else {
        during := DeniedDoes(j, sys, asked, i);
      }
    }
  }

  /** A watched track is let go of, the peer told, and the tracks after it looked at. */
  lemma DeniedDoes(j: Joining, sys: S.System, r: Router, i: nat) returns (during: seq<S.Provocation>)
    requires Alike(r, sys, j.peer) && i < |r.video.bound| && r.video.bound[i].watching
    ensures j.peer in sys.peers && !LetGo(r, i).1 && i < |LetGo(r, i).0.video.bound|
    ensures var (told, failed) := Notice(LetGo(r, i).0, i, Failed);
            Does(j, sys, during, if failed then told else Revalidate(told, i + 1).0)
    decreases Load(r), 0
  {
    hide Alike, Does, Do, Notice, Revalidate;
    V.WatchedFlag(r.video, i, false);
    LetGoDoes(j, sys, r, i);
    var revoked, released := [S.Revokes({r.video.bound[i].track})], LetGo(r, i).0;
    var middle := Do(j, sys, revoked);
    DoesAlike(j, sys, revoked, released);
    var notice := NoticeDoes(j, middle, released, i, Failed);
    ThenDoes(j, sys, revoked, released, notice, Notice(released, i, Failed).0);
    during := revoked + notice;
    var (told, failed) := Notice(released, i, Failed);
    if !failed {
      DoesAlike(j, sys, during, told);
      var rest := RevalidateDoes(j, Do(j, sys, during), told, i + 1);
      ThenDoes(j, sys, during, told, rest, Revalidate(told, i + 1).0);
      during := during + rest;
    }
  }

  lemma DoesAlike(j: Joining, sys: S.System, during: seq<S.Provocation>, later: Router)
    requires j.peer in sys.peers && Does(j, sys, during, later)
    ensures Alike(later, Do(j, sys, during), j.peer)
  {}

  lemma NoticeDoes(j: Joining, sys: S.System, r: Router, i: nat, phase: Phase) returns (during: seq<S.Provocation>)
    requires Alike(r, sys, j.peer) && i < |r.video.bound|
    requires phase == Failed ==> !r.video.bound[i].watching && !r.video.bound[i].attached
    ensures j.peer in sys.peers && Does(j, sys, during, Notice(r, i, phase).0)
    decreases Load(r), 5
  {
    hide Alike, Does, Event;
    V.WatchedFlag(r.video, i, false);
    var told := if phase == Failed then r.(video := V.FlagAt(r.video, i, false)) else r;
    assert told.video == r.video by {
      if phase == Failed { assert V.FlagAt(r.video, i, false).bound == r.video.bound; }
    }
    StillAlike(r, told, sys, j.peer);
    during := EventDoes(j, sys, told, VideoState(told.video.bound[i].track, told.video.bound[i].slot.mid, phase));
  }

  lemma EventDoes(j: Joining, sys: S.System, r: Router, wire: Wire) returns (during: seq<S.Provocation>)
    requires Alike(r, sys, j.peer)
    ensures j.peer in sys.peers && Does(j, sys, during, Event(r, wire).0)
    decreases Load(r), 4
  {
    hide Alike, Does, Do, Respond, Flush, Error;
    RespondSame(r, wire);
    var (queued, threw) := Respond(r, wire);
    StillAlike(r, queued, sys, j.peer);
    if threw {
      during := ErrorDoes(j, sys, queued, None);
    } else {
      during := FlushDoes(j, sys, queued);
      var (flushed, failed) := Flush(queued);
      if failed {
        DoesAlike(j, sys, during, flushed);
        var rest := ErrorDoes(j, Do(j, sys, during), flushed, None);
        ThenDoes(j, sys, during, flushed, rest, Error(flushed, None).0);
        during := during + rest;
      }
    }
  }

  lemma ErrorDoes(j: Joining, sys: S.System, r: Router, id: Option<string>) returns (during: seq<S.Provocation>)
    requires Alike(r, sys, j.peer)
    ensures j.peer in sys.peers && Does(j, sys, during, Error(r, id).0)
    decreases Load(r), 3
  {
    hide Alike, Does, Do, Respond, Flush, Close;
    DoesNothing(j, sys, r, r);
    during := [];
    if !r.core.closed {
      RespondSame(r, Rejected(id));
      var (queued, threw) := Respond(r, Rejected(id));
      StillAlike(r, queued, sys, j.peer);
      if threw {
        CloseDoes(j, sys, queued);
        during := [S.ClosesRouter];
      } else {
        during := FlushDoes(j, sys, queued);
        var (flushed, failed) := Flush(queued);
        if failed {
          DoesAlike(j, sys, during, flushed);
          CloseDoes(j, Do(j, sys, during), flushed);
          ThenDoes(j, sys, during, flushed, [S.ClosesRouter], Close(flushed).0);
          during := during + [S.ClosesRouter];
        }
      }
    }
  }

  lemma FlushDoes(j: Joining, sys: S.System, r: Router) returns (during: seq<S.Provocation>)
    requires Alike(r, sys, j.peer)
    ensures j.peer in sys.peers && Does(j, sys, during, Flush(r).0)
    decreases Load(r), 2
  {
    hide Alike, Does, Do, Revalidate, Drain, DrainSubs;
    DoesNothing(j, sys, r, r);
    during := [];
    if !r.core.closed {
      during := RevalidateDoes(j, sys, r, 0);
      var (valid, threw) := Revalidate(r, 0);
      if !threw {
        DoesAlike(j, sys, during, valid);
        DrainSame(valid, CONTROL);
        var (drained, outcome) := Drain(valid, CONTROL);
        var middle := Do(j, sys, during);
        StillAlike(valid, drained, middle, j.peer);
        DoesNothing(j, middle, valid, drained);
        ThenDoes(j, sys, during, valid, [], drained);
        assert during + [] == during;
        if outcome.Emptied? {
          var rest := DrainSubsDoes(j, middle, drained, 0);
          ThenDoes(j, sys, during, drained, rest, DrainSubs(drained, 0).0);
          during := during + rest;
        }
      }
    }
  }

  /** A binding that is neither watched nor attached. */
  predicate Down(sys: S.System, p: nat, i: nat) {
    && p in sys.peers && i < |sys.peers[p].video.bound|
    && !sys.peers[p].video.bound[i].watching && !sys.peers[p].video.bound[i].attached
  }

  lemma LetGoDown(sys: S.System, p: nat, track: string, now: Time, i: nat)
    requires Down(sys, p, i) && V.Has(sys.peers[p].video, track)
    ensures Down(S.LetGo(sys, p, track, now).0, p, i)
  {
    hide ServiceModel.Apply, S.Refused;
  }

  lemma {:induction false} LetGoFromDown(sys: S.System, p: nat, k: nat, now: Time, denied: Option<set<string>>, i: nat)
    requires Down(sys, p, i)
    ensures Down(S.LetGoFrom(sys, p, k, now, denied).0, p, i)
    decreases |sys.peers[p].video.bound| - k
  {
    hide S.LetGo, S.Chosen;
    var v := sys.peers[p].video;
    if k < |v.bound| {
      if S.Chosen(v.bound[k], denied) {
        V.BoundHas(v, k);
        LetGoDown(sys, p, v.bound[k].track, now, i);
        var (next, threw) := S.LetGo(sys, p, v.bound[k].track, now);
        if !threw { LetGoFromDown(next, p, k + 1, now, denied, i); }
      } else {
        LetGoFromDown(sys, p, k + 1, now, denied, i);
      }
    }
  }

  lemma {:induction false} OwnDoingDown(j: Joining, sys: S.System, during: seq<S.Provocation>, i: nat)
    requires j.peer in sys.peers && OwnDoing(during) && Down(sys, j.peer, i)
    ensures Down(Do(j, sys, during), j.peer, i)
    decreases |during|
  {
    hide S.LetGoFrom;
    if during != [] {
      if during[0].Revokes? {
        LetGoFromDown(sys, j.peer, 0, j.at, Some(during[0].denied), i);
      } else if !sys.peers[j.peer].closed {
        LetGoFromDown(S.Shut(sys, j.peer), j.peer, 0, j.at, None, i);
      }
      OwnDoingDown(j, S.ProvokeOne(j.before, sys, j.peer, j.track, during[0], j.at), during[1..], i);
    }
  }

  lemma DoesDown(j: Joining, sys: S.System, r: Router, during: seq<S.Provocation>, later: Router, i: nat)
    requires Alike(r, sys, j.peer) && i < |r.video.bound| && !r.video.bound[i].watching && !r.video.bound[i].attached
    requires Does(j, sys, during, later)
    ensures i < |later.video.bound| && !later.video.bound[i].watching && !later.video.bound[i].attached
  {
    hide Do;
    OwnDoingDown(j, sys, during, i);
  }

  /**
   * Whatever the media plane announces while a viewer is being attached, and whatever the surroundings answer
   * meanwhile, what the router does to its video is a sequence of revocations and closes of the coupled system.
   */
  lemma {:induction false} AnnouncedDoes(j: Joining, sys: S.System, r: Router, i: nat, phases: seq<Phase>)
    returns (during: seq<S.Provocation>)
    requires Alike(r, sys, j.peer) && i < |r.video.bound|
    requires !r.video.bound[i].watching && !r.video.bound[i].attached
    ensures j.peer in sys.peers && Does(j, sys, during, Announced(r, i, phases).0)
    decreases |phases|
  {
    hide Alike, Does, Do, Notice;
    DoesNothing(j, sys, r, r);
    during := [];
    if phases != [] {
      during := NoticeDoes(j, sys, r, i, phases[0]);
      var (told, threw) := Notice(r, i, phases[0]);
      if !threw {
        DoesAlike(j, sys, during, told);
        DoesDown(j, sys, r, during, told, i);
        var rest := AnnouncedDoes(j, Do(j, sys, during), told, i, phases[1..]);
        ThenDoes(j, sys, during, told, rest, Announced(told, i, phases[1..]).0);
        during := during + rest;
      }
    }
  }
}
