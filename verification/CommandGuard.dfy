/** The command guard as an object whose hooks may call it again before they answer. */
module CommandGuards {
  import opened Basics
  import G = GuardModel
  import opened GuardModel
  import opened Validation

  class CommandGuard {
    const maxSessions: Positive
    const maxHandles: Positive
    var nextId: nat
    var lastTime: Time
    var sessions: map<Id, string>
    var handles: map<Id, Handle>
    var closed: bool
    // One entry per issued ticket: what its closure saved, and whether it was used.
    var tickets: seq<Ticket>
    ghost var log: seq<Entry>

    ghost function View(): Guard
      reads this
    {
      Guard(maxSessions, maxHandles, sessions, handles, nextId, lastTime, closed, tickets, log)
    }

    constructor (maxSessions: Positive, maxHandles: Positive, start: Time)
      ensures View() == Initial(maxSessions, maxHandles, start)
    {
      this.maxSessions, this.maxHandles := maxSessions, maxHandles;
      nextId, lastTime, sessions, handles, closed := 0, start, map[], map[], false;
      tickets, log := [], [];
    }

    /** Ask the hook: it makes its calls on this guard, then answers. */
    method Authorize(hook: Hook) returns (allowed: bool)
      modifies this
      ensures View() == ExecAll(old(View()), hook.calls) && allowed == hook.verdict
      decreases hook
    {
      RunCalls(hook.calls);
      allowed := hook.verdict;
    }

    method RunCalls(calls: seq<Call>)
      modifies this
      ensures View() == ExecAll(old(View()), calls)
      decreases calls
    {
      ghost var end := ExecAll(View(), calls);
      for i := 0 to |calls|
        invariant ExecAll(View(), calls[i..]) == end
      {
        assert calls[i..][1..] == calls[i + 1..];
        var _ := Dispatch(calls[i]);
      }
    }

    method Dispatch(call: Call) returns (answer: Result<Answer>)
      modifies this
      ensures (View(), answer) == Exec(old(View()), call)
      decreases call, 1
    {
      match call
      case OpenSession(epoch) => answer := OpenSession(epoch);
      case OpenHandle(session, topic, leaseMs, hook) => answer := OpenHandle(session, topic, leaseMs, hook);
      case Arm(session, handle, hook, clock) => answer := Arm(session, handle, hook, clock);
      case Prepare(request, hook, clock) => answer := Prepare(request, hook, clock);
      case Publish(ticket, callable, hook, clock, inside) => answer := Publish(ticket, callable, hook, clock, inside);
      case CloseHandle(session, handle) => answer := CloseHandle(session, handle);
      case RevokeSession(session) => RevokeSession(session); answer := Ok(Nothing);
      case Close => Close(); answer := Ok(Nothing);
    }

    /** Issue a nonreused identifier. */
    method NewId() returns (id: Id)
      modifies this`nextId
      ensures id == nextId == old(nextId) + 1
    {
      nextId := nextId + 1;
      id := nextId;
    }

    /** Validate the monotonic clock. */
    method Now(clock: Reading) returns (now: Result<Time>)
      modifies this`lastTime
      ensures now == (if Monotonic(old(View()), clock) then Ok(clock.ms) else Err("invalid_clock"))
      ensures lastTime == if now.Ok? then now.value else old(lastTime)
    {
      if clock.NotFinite? || clock.ms > MAX_SAFE as real || clock.ms < lastTime { return Err("invalid_clock"); }
      lastTime := clock.ms;
      now := Ok(clock.ms);
    }

    function Lookup(session: Id, handle: Id): (state: Result<Handle>)
      reads this
      ensures state == Owned(View(), session, handle)
    {
      if closed then Err("guard_closed")
      else if handle !in handles || handles[handle].identity.session != session then Err("invalid_owner")
      else Ok(handles[handle])
    }

    method OpenSession(epoch: string) returns (answer: Result<Answer>)
      modifies this
      ensures (View(), answer) == Exec(old(View()), Call.OpenSession(epoch))
    {
      if closed { return Err("guard_closed"); }
      if !Identifier(epoch) { return Err("invalid_identifier"); }
      if |sessions| >= maxSessions { return Err("session_limit"); }
      var id := NewId();
      sessions := sessions[id := epoch];
      answer := Ok(NewSession(id));
    }

    method OpenHandle(session: Id, topic: string, leaseMs: int, hook: Hook) returns (answer: Result<Answer>)
      modifies this
      ensures (View(), answer) == Exec(old(View()), Call.OpenHandle(session, topic, leaseMs, hook))
      decreases Call.OpenHandle(session, topic, leaseMs, hook), 0
    {
      if closed { return Err("guard_closed"); }
      if !PositiveLimit(leaseMs) { return Err("invalid_limit"); }
      if session !in sessions { return Err("unknown_session"); }
      if !ValidTopic(topic) { return Err("invalid_topic"); }
      var epoch := sessions[session];
      var id := NewId();
      var identity := Identity(session, epoch, id, topic);
      var allowed := Authorize(hook);
      if !allowed { return Err("unauthorized"); }
      if session !in sessions { return Err("unknown_session"); }
      if |handles| >= maxHandles { return Err("handle_limit"); }
      handles := handles[id := Handle(identity, leaseMs, None, -1, -1)];
      answer := Ok(NewHandle(id));
    }

    /** Another session's unexpired lease on the topic, looked for handle by handle. */
    method Busy(identity: Identity, now: Time) returns (busy: bool)
      ensures busy <==> WriterBusy(View(), identity, now)
    {
      var open := handles.Keys;
      while open != {}
        invariant open <= handles.Keys
        invariant forall h :: h in handles && h !in open ==>
          !(handles[h].identity.topic == identity.topic && handles[h].identity.session != identity.session
            && handles[h].lease.Some? && now < handles[h].lease.value.expiresAt)
        decreases open
      {
        var h :| h in open;
        var candidate := handles[h];
        if candidate.identity.topic == identity.topic && candidate.identity.session != identity.session
           && candidate.lease.Some? && now < candidate.lease.value.expiresAt {
          return true;
        }
        open := open - {h};
      }
      busy := false;
    }

    /** Invalidate every lease on the topic, including other handles of the same session. */
    method Disarm(topic: string)
      modifies this`handles
      ensures handles == Disarmed(old(handles), topic)
    {
      var open := handles.Keys;
      while open != {}
        invariant open <= handles.Keys == old(handles.Keys)
        invariant forall h :: h in handles ==>
          handles[h] == if h in open then old(handles)[h] else Disarmed(old(handles), topic)[h]
        decreases open
      {
        var h :| h in open;
        if handles[h].identity.topic == topic { handles := handles[h := handles[h].(lease := None)]; }
        open := open - {h};
      }
    }

    method Arm(session: Id, handle: Id, hook: Hook, clock: Reading) returns (answer: Result<Answer>)
      modifies this
      ensures (View(), answer) == Exec(old(View()), Call.Arm(session, handle, hook, clock))
      decreases Call.Arm(session, handle, hook, clock), 0
    {
      var state := Lookup(session, handle);
      if state.Err? { return Err(state.reason); }
      var allowed := Authorize(hook);
      if !allowed { return Err("unauthorized"); }
      answer := GrantLease(session, handle, clock);
    }

    method GrantLease(session: Id, handle: Id, clock: Reading) returns (answer: Result<Answer>)
      modifies this
      ensures (View(), answer) == Grant(old(View()), session, handle, clock)
    {
      var state := Lookup(session, handle);
      if state.Err? { return Err(state.reason); }
      var now := Now(clock);
      if now.Err? { return Err(now.reason); }
      var busy := Busy(state.value.identity, now.value);
      if busy { return Err("writer_busy"); }
      var expiresAt := now.value + state.value.leaseMs as real;
      if expiresAt > MAX_SAFE as real { return Err("invalid_clock"); }
      Disarm(state.value.identity.topic);
      var id := NewId();
      var lease := Lease(id, expiresAt);
      handles := handles[handle := state.value.(lease := Some(lease))];
      log := log + [Armed(state.value.identity, lease)];
      answer := Ok(NewLease(lease));
    }

    /** Recheck ownership and expiry after a hook. */
    method Validate(request: Request, clock: Reading) returns (state: Result<Handle>)
      modifies this`lastTime
      ensures (View(), state) == Revalidate(old(View()), request, clock)
    {
      state := Lookup(request.session, request.handle);
      if state.Err? { return; }
      if request.epoch != state.value.identity.epoch { return Err("invalid_epoch"); }
      if state.value.lease.None? || request.leaseId != state.value.lease.value.id { return Err("invalid_lease"); }
      var now := Now(clock);
      if now.Err? { return Err(now.reason); }
      if now.value >= state.value.lease.value.expiresAt { return Err("lease_expired"); }
    }

    method Prepare(request: Request, hook: Hook, clock: Reading) returns (answer: Result<Answer>)
      modifies this
      ensures (View(), answer) == Exec(old(View()), Call.Prepare(request, hook, clock))
      decreases Call.Prepare(request, hook, clock), 0
    {
      var number := Sequence(request.number);
      if number.Err? { return Err(number.reason); }
      var state := Lookup(request.session, request.handle);
      if state.Err? { return Err(state.reason); }
      var allowed := Authorize(hook);
      if !allowed { return Err("unauthorized"); }
      state := Validate(request, clock);
      if state.Err? { return Err(state.reason); }
      if number.value <= state.value.received { return Err("stale_sequence"); }
      handles := handles[request.handle := state.value.(received := number.value)];
      answer := Ok(NewTicket(|tickets|));
      tickets := tickets + [Ticket(request, number.value, false)];
    }

    /** Use a ticket: revalidate, then run the callback, here the calls `inside` it makes on the guard. */
    method Publish(ticket: nat, callable: bool, hook: Hook, clock: Reading, inside: seq<Call>)
      returns (answer: Result<Answer>)
      modifies this
      ensures (View(), answer) == Exec(old(View()), Call.Publish(ticket, callable, hook, clock, inside))
      decreases Call.Publish(ticket, callable, hook, clock, inside), 0
    {
      if ticket >= |tickets| { return Err("no_such_ticket"); }
      var saved := tickets[ticket];
      if saved.consumed { return Err("ticket_consumed"); }
      tickets := tickets[ticket := saved.(consumed := true)];
      if !callable { return Err("invalid_callback"); }
      var state := Lookup(saved.request.session, saved.request.handle);
      if state.Err? { return Err(state.reason); }
      var allowed := Authorize(hook);
      if !allowed { return Err("unauthorized"); }
      answer := CommitNumber(ticket, saved.request, saved.number, clock);
      if answer.Err? { return; }
      RunCalls(inside);
    }

    method CommitNumber(ticket: nat, request: Request, number: nat, clock: Reading) returns (answer: Result<Answer>)
      modifies this
      ensures (View(), answer) == Commit(old(View()), ticket, request, number, clock)
    {
      var state := Validate(request, clock);
      if state.Err? { return Err(state.reason); }
      if number <= state.value.published { return Err("stale_sequence"); }
      handles := handles[request.handle := state.value.(published := number)];
      log := log + [Published(ticket, state.value.identity, state.value.lease.value, number, lastTime)];
      answer := Ok(Nothing);
    }

    method CloseHandle(session: Id, handle: Id) returns (answer: Result<Answer>)
      modifies this
      ensures (View(), answer) == Exec(old(View()), Call.CloseHandle(session, handle))
    {
      var state := Lookup(session, handle);
      if state.Err? { return Err(state.reason); }
      handles := handles - {handle};
      log := log + [HandleClosed(state.value.identity)];
      answer := Ok(Nothing);
    }

    method RevokeSession(session: Id)
      modifies this
      ensures View() == Exec(old(View()), Call.RevokeSession(session)).0
    {
      sessions := sessions - {session};
      DropHandles(session);
      log := log + [SessionRevoked(session)];
    }

    /** Discard the handles of one session and keep every other session's. */
    method DropHandles(session: Id)
      modifies this`handles
      ensures handles == WithoutSession(old(handles), session)
    {
      var open := handles.Keys;
      while open != {}
        invariant open <= handles.Keys <= old(handles.Keys)
        invariant forall h :: h in handles ==> handles[h] == old(handles)[h]
        invariant forall h :: h in old(handles) ==>
          (h in handles <==> h in open || old(handles)[h].identity.session != session)
        decreases open
      {
        var h :| h in open;
        if handles[h].identity.session == session { handles := handles - {h}; }
        open := open - {h};
      }
    }

    method Close()
      modifies this
      ensures View() == Exec(old(View()), Call.Close).0
    {
      closed, sessions, handles := true, map[], map[];
      log := log + [GuardClosed];
    }
  }
}
