/**
 * Command authority as a function of the calls made to it.
 *
 * Every authorization hook is an argument: the calls it makes on the same guard before it answers,
 * and its answer. Calls nest to any depth, so the model covers every re-entrant use of the guard.
 */
module GuardModel {
  import opened Basics
  import Decimal
  import opened Validation

  type Id = nat

  /** What the injected clock answers. */
  datatype Reading = NotFinite | At(ms: Time)

  datatype Identity = Identity(session: Id, epoch: string, handle: Id, topic: string)
  datatype Lease = Lease(id: Id, expiresAt: Time)
  datatype Handle = Handle(identity: Identity, leaseMs: Positive, lease: Option<Lease>, received: int, published: int)
  datatype Request = Request(session: Id, epoch: string, handle: Id, leaseId: Id, number: string)
  datatype Ticket = Ticket(request: Request, number: nat, consumed: bool)

  /** The history that claims about runs speak of. */
  datatype Entry =
    | Published(ticket: nat, identity: Identity, lease: Lease, number: nat, at: Time)
    | Armed(identity: Identity, lease: Lease)
    | HandleClosed(identity: Identity)
    | SessionRevoked(session: Id)
    | GuardClosed

  datatype Guard = Guard(
    maxSessions: Positive, maxHandles: Positive,
    sessions: map<Id, string>, handles: map<Id, Handle>,
    nextId: nat, lastTime: Time, closed: bool,
    tickets: seq<Ticket>, log: seq<Entry>)

  datatype Hook = Hook(calls: seq<Call>, verdict: bool)

  datatype Call =
    | OpenSession(epoch: string)
    | OpenHandle(session: Id, topic: string, leaseMs: int, hook: Hook)
    | Arm(session: Id, handle: Id, hook: Hook, clock: Reading)
    | Prepare(request: Request, hook: Hook, clock: Reading)
    /** `inside` is what the publish callback itself calls on the guard. */
    | Publish(ticket: nat, callable: bool, hook: Hook, clock: Reading, inside: seq<Call>)
    | CloseHandle(session: Id, handle: Id)
    | RevokeSession(session: Id)
    | Close

  datatype Answer = Nothing | NewSession(id: Id) | NewHandle(id: Id) | NewLease(lease: Lease) | NewTicket(index: nat)

  function Initial(maxSessions: Positive, maxHandles: Positive, start: Time): Guard {
    Guard(maxSessions, maxHandles, map[], map[], 0, start, false, [], [])
  }

  predicate NameStart(c: char) {
    'A' <= c <= 'Z' || 'a' <= c <= 'z' || c == '_'
  }

  /** The rest of a topic path, inside a name or at the start of one. */
  predicate TopicPath(text: string, inName: bool) {
    if text == "" then inName
    else if text[0] == '/' then inName && TopicPath(text[1..], false)
    else (NameStart(text[0]) || (inName && Decimal.IsDigit(text[0]))) && TopicPath(text[1..], true)
  }

  predicate ValidTopic(topic: string) {
    0 < |topic| <= 247 && topic[0] == '/' && TopicPath(topic[1..], false)
  }

  /** The registered handle, if the session owns it. */
  function Owned(g: Guard, session: Id, handle: Id): Result<Handle> {
    if g.closed then Err("guard_closed")
    else if handle !in g.handles || g.handles[handle].identity.session != session then Err("invalid_owner")
    else Ok(g.handles[handle])
  }

  predicate Monotonic(g: Guard, clock: Reading) {
    clock.At? && clock.ms <= MAX_SAFE as real && clock.ms >= g.lastTime
  }

  /** Another session's lease on the topic that has not expired. */
  predicate WriterBusy(g: Guard, identity: Identity, now: Time) {
    exists h :: h in g.handles && g.handles[h].identity.topic == identity.topic
             && g.handles[h].identity.session != identity.session
             && g.handles[h].lease.Some? && now < g.handles[h].lease.value.expiresAt
  }

  function Disarmed(handles: map<Id, Handle>, topic: string): map<Id, Handle> {
    map h | h in handles :: if handles[h].identity.topic == topic then handles[h].(lease := None) else handles[h]
  }

  function WithoutSession(handles: map<Id, Handle>, session: Id): map<Id, Handle> {
    map h | h in handles && handles[h].identity.session != session :: handles[h]
  }

  /** What a request must still satisfy once the hook has returned. */
  function Revalidate(g: Guard, request: Request, clock: Reading): (Guard, Result<Handle>) {
    var owned := Owned(g, request.session, request.handle);
    if owned.Err? then (g, owned)
    else if request.epoch != owned.value.identity.epoch then (g, Err("invalid_epoch"))
    else if owned.value.lease.None? || request.leaseId != owned.value.lease.value.id then (g, Err("invalid_lease"))
    else if !Monotonic(g, clock) then (g, Err("invalid_clock"))
    else
      var timed := g.(lastTime := clock.ms);
      if clock.ms >= owned.value.lease.value.expiresAt then (timed, Err("lease_expired"))
      else (timed, owned)
  }

  /** Why `openHandle` is refused before its hook is asked, if it is. */
  function OpenRefusal(g: Guard, session: Id, topic: string, leaseMs: int): (refused: Option<string>)
    ensures refused.None? ==> session in g.sessions && leaseMs > 0
  {
    if g.closed then Some("guard_closed")
    else if !PositiveLimit(leaseMs) then Some("invalid_limit")
    else if session !in g.sessions then Some("unknown_session")
    else if !ValidTopic(topic) then Some("invalid_topic")
    else None
  }

  /** The rest of `openHandle` once the hook has allowed the identity it was asked about. */
  function Register(g: Guard, identity: Identity, leaseMs: Positive): (Guard, Result<Answer>) {
    if identity.session !in g.sessions then (g, Err("unknown_session"))
    else if |g.handles| >= g.maxHandles then (g, Err("handle_limit"))
    else (g.(handles := g.handles[identity.handle := Handle(identity, leaseMs, None, -1, -1)]),
          Ok(NewHandle(identity.handle)))
  }

  /** The rest of `arm` once the hook has allowed it. */
  function Grant(g: Guard, session: Id, handle: Id, clock: Reading): (Guard, Result<Answer>) {
    var owned := Owned(g, session, handle);
    if owned.Err? then (g, Err(owned.reason))
    else if !Monotonic(g, clock) then (g, Err("invalid_clock"))
    else
      var timed, identity := g.(lastTime := clock.ms), owned.value.identity;
      var expiresAt := clock.ms + owned.value.leaseMs as real;
      if WriterBusy(timed, identity, clock.ms) then (timed, Err("writer_busy"))
      else if expiresAt > MAX_SAFE as real then (timed, Err("invalid_clock"))
      else
        var lease, disarmed := Lease(g.nextId + 1, expiresAt), Disarmed(g.handles, identity.topic);
        (timed.(nextId := g.nextId + 1, handles := disarmed[handle := owned.value.(lease := Some(lease))],
                log := g.log + [Armed(identity, lease)]),
         Ok(NewLease(lease)))
  }

  /** The rest of `prepare` once the hook has allowed it. */
  function Reserve(g: Guard, request: Request, number: nat, clock: Reading): (Guard, Result<Answer>) {
    var (timed, checked) := Revalidate(g, request, clock);
    if checked.Err? then (timed, Err(checked.reason))
    else if number <= checked.value.received then (timed, Err("stale_sequence"))
    else (timed.(handles := timed.handles[request.handle := checked.value.(received := number)],
                 tickets := timed.tickets + [Ticket(request, number, false)]),
          Ok(NewTicket(|timed.tickets|)))
  }

  /** The rest of `publish` once the hook has allowed it; the callback runs exactly when this succeeds. */
  function Commit(g: Guard, ticket: nat, request: Request, number: nat, clock: Reading): (Guard, Result<Answer>) {
    var (timed, checked) := Revalidate(g, request, clock);
    if checked.Err? then (timed, Err(checked.reason))
    else if number <= checked.value.published then (timed, Err("stale_sequence"))
    else (timed.(handles := timed.handles[request.handle := checked.value.(published := number)],
                 log := timed.log +
                        [Published(ticket, checked.value.identity, checked.value.lease.value, number, clock.ms)]),
          Ok(Nothing))
  }

  /** One call, with everything its hook and callback do in between. */
  function Exec(g: Guard, call: Call): (Guard, Result<Answer>)
    decreases call
  {
    match call
    case OpenSession(epoch) =>
      if g.closed then (g, Err("guard_closed"))
      else if !Identifier(epoch) then (g, Err("invalid_identifier"))
      else if |g.sessions| >= g.maxSessions then (g, Err("session_limit"))
      else (g.(nextId := g.nextId + 1, sessions := g.sessions[g.nextId + 1 := epoch]), Ok(NewSession(g.nextId + 1)))
    case OpenHandle(session, topic, leaseMs, hook) =>
      var refused := OpenRefusal(g, session, topic, leaseMs);
      if refused.Some? then (g, Err(refused.value))
      else
        var identity := Identity(session, g.sessions[session], g.nextId + 1, topic);
        var after := ExecAll(g.(nextId := g.nextId + 1), hook.calls);
        if !hook.verdict then (after, Err("unauthorized")) else Register(after, identity, leaseMs)
    case Arm(session, handle, hook, clock) =>
      if Owned(g, session, handle).Err? then (g, Err(Owned(g, session, handle).reason))
      else
        var after := ExecAll(g, hook.calls);
        if !hook.verdict then (after, Err("unauthorized")) else Grant(after, session, handle, clock)
    case Prepare(request, hook, clock) =>
      var number := Sequence(request.number);
      if number.Err? then (g, Err(number.reason))
      else if Owned(g, request.session, request.handle).Err? then
        (g, Err(Owned(g, request.session, request.handle).reason))
      else
        var after := ExecAll(g, hook.calls);
        if !hook.verdict then (after, Err("unauthorized")) else Reserve(after, request, number.value, clock)
    case Publish(ticket, callable, hook, clock, inside) =>
      if ticket >= |g.tickets| then (g, Err("no_such_ticket"))
      else if g.tickets[ticket].consumed then (g, Err("ticket_consumed"))
      else
        var t := g.tickets[ticket];
        var consumed := g.(tickets := g.tickets[ticket := t.(consumed := true)]);
        if !callable then (consumed, Err("invalid_callback"))
        else if Owned(g, t.request.session, t.request.handle).Err?
          then (consumed, Err(Owned(g, t.request.session, t.request.handle).reason))
        else
          var after := ExecAll(consumed, hook.calls);
          if !hook.verdict then (after, Err("unauthorized"))
          else
            var (committed, answer) := Commit(after, ticket, t.request, t.number, clock);
            if answer.Err? then (committed, answer) else (ExecAll(committed, inside), answer)
    case CloseHandle(session, handle) =>
      var owned := Owned(g, session, handle);
      if owned.Err? then (g, Err(owned.reason))
      else (g.(handles := g.handles - {handle}, log := g.log + [HandleClosed(owned.value.identity)]), Ok(Nothing))
    case RevokeSession(session) =>
      (g.(sessions := g.sessions - {session}, handles := WithoutSession(g.handles, session),
          log := g.log + [SessionRevoked(session)]), Ok(Nothing))
    case Close =>
      (g.(closed := true, sessions := map[], handles := map[], log := g.log + [GuardClosed]), Ok(Nothing))
  }

  function ExecAll(g: Guard, calls: seq<Call>): Guard
    decreases calls
  {
    if calls == [] then g else ExecAll(Exec(g, calls[0]).0, calls[1..])
  }
}
