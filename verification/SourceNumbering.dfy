/**
 * RTP numbering of a track across encoder restarts (section 5.1 of RFC 3550, with the 90 kHz clock of
 * section 5.1 of RFC 6184): one sequence, and one timestamp line per encoder joined a frame apart.
 */
module SourceNumbering {
  import opened Basics
  import opened MediaTypes
  import opened SourceModel
  import opened SourceInvariants

  /** How far an encoder's timestamps are shifted, modulo 2^32. */
  function Offset(f: Fanout): int {
    (f.timestamp - f.original) % U32
  }

  /** The numbering a decoder sees: no gap in sequence, constant shift per encoder, one frame at a seam. */
  predicate Continuous(fanned: seq<Fanout>, framerate: Positive) {
    && (forall i :: 0 <= i < |fanned| ==> fanned[i].sequence == i % U16)
    && (forall i, j :: 0 <= i < j < |fanned| && fanned[i].encoder == fanned[j].encoder ==>
          Offset(fanned[i]) == Offset(fanned[j]))
    && (forall i :: 0 < i < |fanned| && fanned[i].encoder != fanned[i - 1].encoder ==>
          fanned[i].timestamp == (fanned[i - 1].timestamp + FrameStep(framerate)) % U32)
    && (fanned != [] ==> fanned[0].timestamp == FrameStep(framerate) % U32)
  }

  predicate Numbered(s: Source) {
    var n, sent := s.numbering, s.fanned;
    && Continuous(sent, s.framerate)
    && n.sequence == |sent|
    && n.emitted == (if sent == [] then 0 else sent[|sent| - 1].timestamp)
    && (forall i :: 0 <= i < |sent| ==> sent[i].encoder < s.created)
    && (s.current.Some? ==> s.current.value < s.created)
    && (s.current.Some? && n.origin.None? ==> forall i :: 0 <= i < |sent| ==> sent[i].encoder != s.current.value)
    && (n.origin.Some? ==>
          && sent != []
          && (s.current.Some? ==> sent[|sent| - 1].encoder == s.current.value)
          && Offset(sent[|sent| - 1]) == n.shift)
  }

  lemma ShiftIsOffset(original: Uint32, shift: Uint32)
    ensures ((original + shift) % U32 - original) % U32 == shift
  {}

  /** One more packet of the current encoder, under the shift in force after it. */
  lemma ContinuousAppend(sent: seq<Fanout>, next: Fanout, framerate: Positive, first: bool)
    requires Continuous(sent, framerate)
    requires next.sequence == |sent| % U16
    requires first ==> forall i :: 0 <= i < |sent| ==> sent[i].encoder != next.encoder
    requires first ==>
      next.timestamp == ((if sent == [] then 0 else sent[|sent| - 1].timestamp) + FrameStep(framerate)) % U32
    requires !first ==>
      sent != [] && sent[|sent| - 1].encoder == next.encoder && Offset(sent[|sent| - 1]) == Offset(next)
    ensures Continuous(sent + [next], framerate)
  {}

  lemma DeliverNumbered(s: Source, encoder: nat, timestamp: Uint32)
    requires Numbered(s) && s.current == Some(encoder)
    ensures Numbered(Deliver(s, encoder, timestamp))
  {
    hide Continuous;
    var t, first := Deliver(s, encoder, timestamp), s.numbering.origin.None?;
    var next := t.fanned[|s.fanned|];
    assert t.fanned == s.fanned + [next];
    ShiftIsOffset(timestamp, t.numbering.shift);
    if first { ShiftedFirst(s.numbering.emitted, FrameStep(s.framerate), timestamp); }
    ContinuousAppend(s.fanned, next, s.framerate, first);
  }

  /** The first packet of a new encoder lands one step after the last emitted timestamp. */
  lemma ShiftedFirst(emitted: Uint32, step: nat, original: Uint32)
    ensures (original + (emitted + step - original) % U32) % U32 == (emitted + step) % U32
  {}

  lemma {:induction false} DeliverAllNumbered(s: Source, encoder: nat, burst: seq<Uint32>)
    requires Numbered(s) && s.current == Some(encoder)
    ensures Numbered(DeliverAll(s, encoder, burst))
    decreases |burst|
  {
    if burst != [] {
      DeliverNumbered(s, encoder, burst[0]);
      DeliverAllNumbered(Deliver(s, encoder, burst[0]), encoder, burst[1..]);
    }
  }

  lemma {:induction false} ResumeAllNumbered(s: Source, starts: nat, bursts: seq<seq<Uint32>>)
    requires Numbered(s)
    ensures Numbered(ResumeAll(s, starts, bursts))
    decreases starts
  {
    if starts > 0 {
      if Wanted(s) { DeliverAllNumbered(Create(s), s.created, FirstBurst(bursts)); }
      ResumeAllNumbered(Resume(s, FirstBurst(bursts)), starts - 1, if bursts == [] then [] else bursts[1..]);
    }
  }

  /** Turns that hand over no packet keep the numbering or restart it for a new encoder. */
  lemma NumberedFrame(s: Source, t: Source)
    requires Numbered(s) && t.fanned == s.fanned && t.framerate == s.framerate
    requires || (t.numbering == s.numbering && t.created == s.created && (t.current == s.current || t.current.None?))
             || (&& t.numbering == s.numbering.(origin := None)
                 && t.created == s.created + 1 && t.current == Some(s.created))
    ensures Numbered(t)
  {}

  lemma NumberedStep(s: Source, now: Time, e: Event)
    requires Numbered(s)
    ensures Numbered(Step(s, now, e))
  {
    hide Numbered, Deliver, ResumeAll;
    match e
    case Packet(encoder, timestamp) => if s.current == Some(encoder) { DeliverNumbered(s, encoder, timestamp); }
    case StopSettles(bursts) =>
      if s.release.Some? {
        var freed := s.(release := None, live := s.live - {s.release.value.encoder}, waiting := 0);
        NumberedFrame(s, freed);
        ResumeAllNumbered(freed, s.waiting, bursts);
      }
    case _ => NumberedFrame(s, Step(s, now, e));
  }
}
