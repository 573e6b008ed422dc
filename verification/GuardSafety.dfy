/** What every sequence of guard calls keeps, however deeply their hooks re-enter the guard. */
module GuardSafety {
  import opened Basics
  import opened GuardModel
  import opened Validation

  /** Identifiers are issued once, and every handle belongs to a registered session of its epoch. */
  predicate Registered(g: Guard) {
    && (forall s :: s in g.sessions ==> s <= g.nextId)
    && (forall h :: h in g.handles ==>
          && h <= g.nextId && g.handles[h].identity.handle == h
          && g.handles[h].identity.session in g.sessions
          && g.sessions[g.handles[h].identity.session] == g.handles[h].identity.epoch)
    && (g.closed ==> g.sessions == map[] && g.handles == map[])
  }

  /** At most one handle per topic holds a lease. */
  predicate OneWriter(g: Guard) {
    forall h, k ::
      h in g.handles && k in g.handles && h != k && g.handles[h].identity.topic == g.handles[k].identity.topic
      ==> g.handles[h].lease.None? || g.handles[k].lease.None?
  }

  /** Each publication was made in time by a consumed ticket, and its handle has moved past its number. */
  predicate Recorded(g: Guard) {
    forall i :: 0 <= i < |g.log| && g.log[i].Published? ==>
      var p := g.log[i];
      && p.ticket < |g.tickets| && g.tickets[p.ticket].consumed
      && p.at < p.lease.expiresAt && p.at <= g.lastTime
      && p.identity.handle <= g.nextId
      && (p.identity.handle in g.handles ==> p.number <= g.handles[p.identity.handle].published)
  }

  /** Tickets are used once, time does not go back, and numbers on one handle only grow. */
  predicate Ordered(log: seq<Entry>) {
    forall i, j :: 0 <= i < j < |log| && log[i].Published? && log[j].Published? ==>
      && log[i].ticket != log[j].ticket
      && log[i].at <= log[j].at
      && (log[i].identity.handle == log[j].identity.handle ==> log[i].number < log[j].number)
  }

  /** Entries that show a session holding a topic: its lease granted, or used. */
  predicate Holds(e: Entry) {
    e.Published? || e.Armed?
  }

  /** An entry by which the owner gives up what it holds, or the guard as a whole ends. */
  predicate GivesUp(e: Entry, identity: Identity) {
    match e
    case Published(_, _, _, _, _) => false
    case Armed(_, _) => false
    case HandleClosed(closed) => closed == identity
    case SessionRevoked(session) => session == identity.session
    case GuardClosed => true
  }

  /** The owning session arms the topic again: the new lease stands in for the old one. */
  predicate Renews(e: Entry, identity: Identity) {
    e.Armed? && e.identity.session == identity.session && e.identity.topic == identity.topic
  }

  predicate Releases(e: Entry, identity: Identity) {
    GivesUp(e, identity) || Renews(e, identity)
  }

  predicate ReleasedBetween(log: seq<Entry>, from: nat, to: nat)
    requires from < |log| && Holds(log[from]) && to <= |log|
  {
    exists k :: from < k < to && Releases(log[k], log[from].identity)
  }

  predicate Backed(g: Guard, identity: Identity, lease: Lease) {
    identity.handle in g.handles && g.handles[identity.handle].identity == identity
    && g.handles[identity.handle].lease == Some(lease)
  }

  /** A lease granted or used is still held, was given up or renewed by its owner, or has expired. */
  predicate Accounted(g: Guard) {
    forall i :: 0 <= i < |g.log| && Holds(g.log[i]) ==>
      || Backed(g, g.log[i].identity, g.log[i].lease)
      || ReleasedBetween(g.log, i, |g.log|)
      || g.lastTime >= g.log[i].lease.expiresAt
  }

  /** Another session holds this topic at `i` and one publishes on it at `j`. */
  predicate Contend(log: seq<Entry>, i: nat, j: nat)
    requires i < j < |log|
  {
    && Holds(log[i]) && log[j].Published?
    && log[i].identity.topic == log[j].identity.topic && log[i].identity.session != log[j].identity.session
  }

  /**
   * A session publishes on a topic only once every lease another session was granted or used on it before
   * has expired, was given up, or was renewed; a renewal is a lease granted, and so covered in turn.
   */
  predicate Separated(log: seq<Entry>) {
    forall i, j :: 0 <= i < j < |log| && Contend(log, i, j) ==>
      log[j].at >= log[i].lease.expiresAt || ReleasedBetween(log, i, j)
  }

  predicate Safe(g: Guard) {
    Registered(g) && OneWriter(g) && Recorded(g) && Ordered(g.log) && Accounted(g) && Separated(g.log)
  }

  /** What any calls in between leave as it was. */
  predicate Evolves(g: Guard, later: Guard) {
    && g.nextId <= later.nextId && g.lastTime <= later.lastTime
    && g.log <= later.log && |g.tickets| <= |later.tickets|
    && (forall t :: 0 <= t < |g.tickets| ==>
          && later.tickets[t].request == g.tickets[t].request && later.tickets[t].number == g.tickets[t].number
          && (g.tickets[t].consumed ==> later.tickets[t].consumed))
    && (forall s :: s in later.sessions ==> s > g.nextId || (s in g.sessions && later.sessions[s] == g.sessions[s]))
    && (forall h :: h in later.handles ==>
          h > g.nextId || (h in g.handles && later.handles[h].identity == g.handles[h].identity))
    && (forall i :: |g.log| <= i < |later.log| && later.log[i].Published? ==>
          && (later.log[i].ticket < |g.tickets| ==> !g.tickets[later.log[i].ticket].consumed)
          && (later.log[i].identity.handle > g.nextId || later.log[i].identity.handle in g.handles))
  }

  lemma EvolvesSelf(g: Guard)
    ensures Evolves(g, g)
  {}

  lemma EvolvesTransitive(a: Guard, b: Guard, c: Guard)
    requires Evolves(a, b) && Evolves(b, c)
    ensures Evolves(a, c)
  {}

  /** An identity issued for a handle that is not registered yet. */
  predicate Issued(g: Guard, identity: Identity) {
    && identity.handle <= g.nextId && identity.handle !in g.handles
    && (forall i :: 0 <= i < |g.log| && g.log[i].Published? ==> g.log[i].identity.handle != identity.handle)
    && identity.session <= g.nextId
    && (identity.session in g.sessions ==> g.sessions[identity.session] == identity.epoch)
  }

  /** A ticket whose only use is in progress. */
  predicate InUse(g: Guard, ticket: nat) {
    && ticket < |g.tickets| && g.tickets[ticket].consumed
    && (forall i :: 0 <= i < |g.log| && g.log[i].Published? ==> g.log[i].ticket != ticket)
  }

  lemma IssuedStays(g: Guard, later: Guard, identity: Identity)
    requires Issued(g, identity) && Evolves(g, later)
    ensures Issued(later, identity)
  {}

  lemma InUseStays(g: Guard, later: Guard, ticket: nat)
    requires InUse(g, ticket) && Evolves(g, later)
    ensures InUse(later, ticket)
  {}

  lemma RegisterSafe(g: Guard, identity: Identity, leaseMs: Positive)
    requires Safe(g) && Issued(g, identity)
    ensures Safe(Register(g, identity, leaseMs).0)
  {}

  lemma RegisterEvolves(before: Guard, g: Guard, identity: Identity, leaseMs: Positive)
    requires Evolves(before, g) && identity.handle > before.nextId
    ensures Evolves(before, Register(g, identity, leaseMs).0)
  {}

  /** A longer history still shows every release it showed before. */
  lemma ReleasedLonger(log: seq<Entry>, next: Entry, from: nat, to: nat)
    requires from < |log| && Holds(log[from]) && to <= |log|
    ensures ReleasedBetween(log, from, to) ==>
      ReleasedBetween(log + [next], from, to) && ReleasedBetween(log + [next], from, |log| + 1)
    ensures Releases(next, log[from].identity) ==> ReleasedBetween(log + [next], from, |log| + 1)
  {
    var longer := log + [next];
    if ReleasedBetween(log, from, to) {
      var k :| from < k < to && Releases(log[k], log[from].identity);
      assert longer[k] == log[k];
    }
    if Releases(next, log[from].identity) { assert longer[|log|] == next; }
  }

  /** Entries that are not publications keep the order and separation of those that are. */
  lemma AppendRelease(log: seq<Entry>, next: Entry)
    requires Ordered(log) && Separated(log) && !next.Published?
    ensures Ordered(log + [next]) && Separated(log + [next])
  {
    var longer := log + [next];
    forall i, j | 0 <= i < j < |longer| && Contend(longer, i, j)
      ensures longer[j].at >= longer[i].lease.expiresAt || ReleasedBetween(longer, i, j)
    {
      ReleasedLonger(log, next, i, j);
    }
  }

  /** No session's lease is displaced before it expires, except by its own session. */
  lemma GrantKeepsOthers(g: Guard, session: Id, handle: Id, clock: Reading)
    requires Safe(g)
    ensures var after := Grant(g, session, handle, clock).0;
            forall h :: h in g.handles && g.handles[h].lease.Some? && g.handles[h].identity.session != session
              && after.lastTime < g.handles[h].lease.value.expiresAt
              ==> h in after.handles && after.handles[h] == g.handles[h]
  {}

  lemma GrantAccounted(g: Guard, session: Id, handle: Id, clock: Reading)
    requires Safe(g)
    ensures Accounted(Grant(g, session, handle, clock).0)
  {
    var after := Grant(g, session, handle, clock).0;
    if after.log != g.log {
      var entry := after.log[|g.log|];
      assert after.log == g.log + [entry];
      forall i | 0 <= i < |after.log| && Holds(after.log[i])
        ensures || Backed(after, after.log[i].identity, after.log[i].lease)
                || ReleasedBetween(after.log, i, |after.log|)
                || after.lastTime >= after.log[i].lease.expiresAt
      {
        if i < |g.log| { ReleasedLonger(g.log, entry, i, |g.log|); }
        if i < |g.log| && Backed(g, g.log[i].identity, g.log[i].lease) && g.log[i].identity.session != session {
          GrantKeepsOthers(g, session, handle, clock);
        }
      }
    }
  }

  lemma GrantHistory(g: Guard, session: Id, handle: Id, clock: Reading)
    requires Safe(g)
    ensures var after := Grant(g, session, handle, clock).0;
            Recorded(after) && Ordered(after.log) && Separated(after.log)
  {
    var after := Grant(g, session, handle, clock).0;
    if after.log != g.log {
      assert after.log == g.log + [after.log[|g.log|]];
      AppendRelease(g.log, after.log[|g.log|]);
    }
  }

  lemma GrantRegistered(g: Guard, session: Id, handle: Id, clock: Reading)
    requires Safe(g)
    ensures Registered(Grant(g, session, handle, clock).0) && OneWriter(Grant(g, session, handle, clock).0)
  {
    var (after, answer) := Grant(g, session, handle, clock);
    if answer.Ok? {
      var topic := g.handles[handle].identity.topic;
      assert forall h :: h in after.handles ==>
        && h in g.handles && after.handles[h].identity == g.handles[h].identity
        && (h != handle && g.handles[h].identity.topic == topic ==> after.handles[h].lease.None?);
    }
  }

  /** Issuing an identifier changes nothing else. */
  lemma IssueSafe(g: Guard)
    requires Safe(g)
    ensures Safe(g.(nextId := g.nextId + 1)) && Evolves(g, g.(nextId := g.nextId + 1))
  {}

  lemma GrantSafe(g: Guard, session: Id, handle: Id, clock: Reading)
    requires Safe(g)
    ensures Safe(Grant(g, session, handle, clock).0)
  {
    GrantRegistered(g, session, handle, clock);
    GrantAccounted(g, session, handle, clock);
    GrantHistory(g, session, handle, clock);
  }

  lemma GrantEvolves(g: Guard, session: Id, handle: Id, clock: Reading)
    requires Safe(g)
    ensures Evolves(g, Grant(g, session, handle, clock).0)
  {}

  lemma TickSafe(g: Guard, now: Time)
    requires Safe(g) && g.lastTime <= now
    ensures Safe(g.(lastTime := now)) && Evolves(g, g.(lastTime := now))
  {}

  lemma RevalidateSafe(g: Guard, request: Request, clock: Reading)
    requires Safe(g)
    ensures var (timed, checked) := Revalidate(g, request, clock);
            && Safe(timed) && Evolves(g, timed) && timed == g.(lastTime := timed.lastTime)
            && (checked.Ok? ==>
                  && request.handle in g.handles && checked.value == g.handles[request.handle]
                  && checked.value.identity.session == request.session && checked.value.lease.Some?
                  && clock.At? && timed.lastTime == clock.ms
                  && g.lastTime <= clock.ms < checked.value.lease.value.expiresAt)
  {
    hide Safe, Evolves;
    EvolvesSelf(g);
    if Monotonic(g, clock) { TickSafe(g, clock.ms); }
  }

  lemma TicketSafe(g: Guard, handle: Id, number: nat, ticket: Ticket)
    requires Safe(g) && handle in g.handles
    ensures var after := g.(handles := g.handles[handle := g.handles[handle].(received := number)],
                         tickets := g.tickets + [ticket]);
            Safe(after) && Evolves(g, after)
  {}

  lemma ReserveSafe(g: Guard, request: Request, number: nat, clock: Reading)
    requires Safe(g)
    ensures Safe(Reserve(g, request, number, clock).0) && Evolves(g, Reserve(g, request, number, clock).0)
  {
    RevalidateSafe(g, request, clock);
    var (timed, checked) := Revalidate(g, request, clock);
    if checked.Ok? && number > checked.value.received {
      TicketSafe(timed, request.handle, number, Ticket(request, number, false));
      EvolvesTransitive(g, timed, Reserve(g, request, number, clock).0);
    }
  }

  lemma CommitAppends(g: Guard, next: Entry, ticket: nat)
    requires Safe(g) && InUse(g, ticket) && next.Published? && next.ticket == ticket
    requires next.at == g.lastTime && Backed(g, next.identity, next.lease)
    requires next.number > g.handles[next.identity.handle].published
    ensures Ordered(g.log + [next]) && Separated(g.log + [next])
  {
    var longer := g.log + [next];
    forall i, j | 0 <= i < j < |longer| && Contend(longer, i, j)
      ensures longer[j].at >= longer[i].lease.expiresAt || ReleasedBetween(longer, i, j)
    {
      if j < |g.log| {
        ReleasedLonger(g.log, next, i, j);
      } else {
        ReleasedLonger(g.log, next, i, |g.log|);
        assert !Backed(g, longer[i].identity, longer[i].lease);
      }
    }
  }

  lemma PublicationSafe(g: Guard, next: Entry, ticket: nat)
    requires Safe(g) && InUse(g, ticket) && next.Published? && next.ticket == ticket
    requires next.at == g.lastTime && next.at < next.lease.expiresAt && Backed(g, next.identity, next.lease)
    requires next.number > g.handles[next.identity.handle].published
    ensures var h := next.identity.handle;
            Safe(g.(handles := g.handles[h := g.handles[h].(published := next.number)], log := g.log + [next]))
  {
    var h := next.identity.handle;
    var after := g.(handles := g.handles[h := g.handles[h].(published := next.number)], log := g.log + [next]);
    CommitAppends(g, next, ticket);
    forall i | 0 <= i < |after.log| && Holds(after.log[i])
      ensures || Backed(after, after.log[i].identity, after.log[i].lease)
              || ReleasedBetween(after.log, i, |after.log|)
              || after.lastTime >= after.log[i].lease.expiresAt
    {
      if i < |g.log| { ReleasedLonger(g.log, next, i, |g.log|); }
    }
  }

  lemma CommitSafe(g: Guard, ticket: nat, request: Request, number: nat, clock: Reading)
    requires Safe(g) && InUse(g, ticket)
    ensures Safe(Commit(g, ticket, request, number, clock).0)
  {
    RevalidateSafe(g, request, clock);
    var (timed, checked) := Revalidate(g, request, clock);
    if checked.Ok? && number > checked.value.published {
      PublicationSafe(timed, Published(ticket, checked.value.identity, checked.value.lease.value, number, clock.ms),
        ticket);
    }
  }

  lemma CommitEvolves(before: Guard, g: Guard, ticket: nat, request: Request, number: nat, clock: Reading)
    requires Safe(g) && Evolves(before, g)
    requires ticket < |before.tickets| && !before.tickets[ticket].consumed
    requires request.handle in before.handles
    ensures Evolves(before, Commit(g, ticket, request, number, clock).0)
  {
    hide OneWriter, Recorded, Ordered, Accounted, Separated;
    RevalidateSafe(g, request, clock);
  }

  /** Entries after which every handle that is left is as it was. */
  lemma ReleaseSafe(g: Guard, after: Guard, entry: Entry)
    requires Safe(g) && !Holds(entry)
    requires after == g.(handles := after.handles, sessions := after.sessions, closed := after.closed,
                                  log := g.log + [entry])
    requires Registered(after)
    requires forall s :: s in after.sessions ==> s in g.sessions && after.sessions[s] == g.sessions[s]
    requires forall h :: h in after.handles ==> h in g.handles && after.handles[h] == g.handles[h]
    requires forall h :: h in g.handles && h !in after.handles ==> Releases(entry, g.handles[h].identity)
    ensures Safe(after) && Evolves(g, after)
  {
    AppendRelease(g.log, entry);
    forall i | 0 <= i < |after.log| && Holds(after.log[i])
      ensures || Backed(after, after.log[i].identity, after.log[i].lease)
              || ReleasedBetween(after.log, i, |after.log|)
              || after.lastTime >= after.log[i].lease.expiresAt
    {
      if i < |g.log| { ReleasedLonger(g.log, entry, i, |g.log|); }
    }
  }

  lemma OpenSessionSafe(g: Guard, epoch: string)
    requires Safe(g)
    ensures Safe(Exec(g, OpenSession(epoch)).0) && Evolves(g, Exec(g, OpenSession(epoch)).0)
  {}

  /** The part of an `openHandle` around its hook. */
  lemma OpenHandleSafe(g: Guard, after: Guard, identity: Identity, leaseMs: Positive)
    requires Safe(g) && Safe(after) && Evolves(g.(nextId := g.nextId + 1), after)
    requires identity.handle == g.nextId + 1 && identity.session in g.sessions
    requires identity.epoch == g.sessions[identity.session]
    ensures Safe(Register(after, identity, leaseMs).0) && Evolves(g, Register(after, identity, leaseMs).0)
    ensures Evolves(g, after)
  {
    var issued := g.(nextId := g.nextId + 1);
    assert Issued(issued, identity);
    IssuedStays(issued, after, identity);
    EvolvesTransitive(g, issued, after);
    RegisterSafe(after, identity, leaseMs);
    RegisterEvolves(g, after, identity, leaseMs);
  }

  lemma CloseHandleSafe(g: Guard, session: Id, handle: Id)
    requires Safe(g)
    ensures Safe(Exec(g, CloseHandle(session, handle)).0) && Evolves(g, Exec(g, CloseHandle(session, handle)).0)
  {
    if Owned(g, session, handle).Ok? {
      ReleaseSafe(g, Exec(g, CloseHandle(session, handle)).0, HandleClosed(g.handles[handle].identity));
    }
  }

  lemma RevokeSafe(g: Guard, session: Id)
    requires Safe(g)
    ensures Safe(Exec(g, RevokeSession(session)).0) && Evolves(g, Exec(g, RevokeSession(session)).0)
  {
    ReleaseSafe(g, Exec(g, RevokeSession(session)).0, SessionRevoked(session));
  }

  lemma CloseSafe(g: Guard)
    requires Safe(g)
    ensures Safe(Exec(g, Close).0) && Evolves(g, Exec(g, Close).0)
  {
    ReleaseSafe(g, Exec(g, Close).0, GuardClosed);
  }

  /** Every call, with all that its hook and callback do, keeps the guard safe. */
  lemma {:induction false} ExecSafe(g: Guard, call: Call)
    requires Safe(g)
    ensures Safe(Exec(g, call).0) && Evolves(g, Exec(g, call).0)
    decreases call
  {
    match call
    case OpenSession(epoch) => OpenSessionSafe(g, epoch);
    case OpenHandle(session, topic, leaseMs, hook) => HookedOpenSafe(g, session, topic, leaseMs, hook);
    case Arm(session, handle, hook, clock) => HookedArmSafe(g, session, handle, hook, clock);
    case Prepare(request, hook, clock) => HookedPrepareSafe(g, request, hook, clock);
    case Publish(ticket, callable, hook, clock, inside) => PublishSafe(g, ticket, callable, hook, clock, inside);
    case CloseHandle(session, handle) => CloseHandleSafe(g, session, handle);
    case RevokeSession(session) => RevokeSafe(g, session);
    case Close => CloseSafe(g);
  }

  lemma {:induction false} HookedOpenSafe(g: Guard, session: Id, topic: string, leaseMs: int, hook: Hook)
    requires Safe(g)
    ensures var after := Exec(g, OpenHandle(session, topic, leaseMs, hook)).0; Safe(after) && Evolves(g, after)
    decreases OpenHandle(session, topic, leaseMs, hook), 0
  {
    hide Safe, Evolves, Register;
    EvolvesSelf(g);
    if OpenRefusal(g, session, topic, leaseMs).None? {
      var issued := g.(nextId := g.nextId + 1);
      IssueSafe(g);
      ExecAllSafe(issued, hook.calls);
      OpenHandleSafe(g, ExecAll(issued, hook.calls), Identity(session, g.sessions[session], g.nextId + 1, topic),
        leaseMs);
    }
  }

  lemma {:induction false} HookedArmSafe(g: Guard, session: Id, handle: Id, hook: Hook, clock: Reading)
    requires Safe(g)
    ensures var after := Exec(g, Arm(session, handle, hook, clock)).0; Safe(after) && Evolves(g, after)
    decreases Arm(session, handle, hook, clock), 0
  {
    if Owned(g, session, handle).Ok? {
      ExecAllSafe(g, hook.calls);
      var after := ExecAll(g, hook.calls);
      GrantSafe(after, session, handle, clock);
      GrantEvolves(after, session, handle, clock);
      EvolvesTransitive(g, after, Grant(after, session, handle, clock).0);
    }
  }

  lemma {:induction false} HookedPrepareSafe(g: Guard, request: Request, hook: Hook, clock: Reading)
    requires Safe(g)
    ensures var after := Exec(g, Prepare(request, hook, clock)).0; Safe(after) && Evolves(g, after)
    decreases Prepare(request, hook, clock), 0
  {
    var number := Sequence(request.number);
    if number.Ok? && Owned(g, request.session, request.handle).Ok? {
      ExecAllSafe(g, hook.calls);
      var after := ExecAll(g, hook.calls);
      ReserveSafe(after, request, number.value, clock);
      EvolvesTransitive(g, after, Reserve(after, request, number.value, clock).0);
    }
  }

  /** Consuming an unused ticket reserves its one publication. */
  lemma UseSafe(g: Guard, ticket: nat)
    requires Safe(g) && ticket < |g.tickets| && !g.tickets[ticket].consumed
    ensures var consumed := g.(tickets := g.tickets[ticket := g.tickets[ticket].(consumed := true)]);
            Safe(consumed) && Evolves(g, consumed) && InUse(consumed, ticket)
  {}

  /** The part of a `publish` after its hook. */
  lemma CommitAndRun(g: Guard, after: Guard, ticket: nat, clock: Reading)
    requires Safe(after) && InUse(after, ticket) && Evolves(g, after)
    requires ticket < |g.tickets| && !g.tickets[ticket].consumed && g.tickets[ticket].request.handle in g.handles
    ensures var t := g.tickets[ticket];
            var committed := Commit(after, ticket, t.request, t.number, clock).0;
            Safe(committed) && Evolves(g, committed)
  {
    var t := g.tickets[ticket];
    CommitSafe(after, ticket, t.request, t.number, clock);
    CommitEvolves(g, after, ticket, t.request, t.number, clock);
  }

  lemma {:induction false} PublishSafe(g: Guard, ticket: nat, callable: bool, hook: Hook, clock: Reading,
                                       inside: seq<Call>)
    requires Safe(g)
    ensures var call := Publish(ticket, callable, hook, clock, inside);
            Safe(Exec(g, call).0) && Evolves(g, Exec(g, call).0)
    decreases Publish(ticket, callable, hook, clock, inside), 0
  {
    hide Safe, Commit;
    if ticket < |g.tickets| && !g.tickets[ticket].consumed {
      var t := g.tickets[ticket];
      var consumed := g.(tickets := g.tickets[ticket := t.(consumed := true)]);
      UseSafe(g, ticket);
      if callable && Owned(g, t.request.session, t.request.handle).Ok? {
        ExecAllSafe(consumed, hook.calls);
        var after := ExecAll(consumed, hook.calls);
        InUseStays(consumed, after, ticket);
        EvolvesTransitive(g, consumed, after);
        CommitAndRun(g, after, ticket, clock);
        var committed := Commit(after, ticket, t.request, t.number, clock).0;
        ExecAllSafe(committed, inside);
        EvolvesTransitive(g, committed, ExecAll(committed, inside));
      }
    }
  }

  lemma {:induction false} ExecAllSafe(g: Guard, calls: seq<Call>)
    requires Safe(g)
    ensures Safe(ExecAll(g, calls)) && Evolves(g, ExecAll(g, calls))
    decreases calls
  {
    if calls != [] {
      ExecSafe(g, calls[0]);
      var next := Exec(g, calls[0]).0;
      ExecAllSafe(next, calls[1..]);
      EvolvesTransitive(g, next, ExecAll(next, calls[1..]));
    }
  }

  // ---- Claims about every run ----

  /** What a session holds at `k` is its last word on the topic before `j`, and had ended by then. */
  predicate EndedBefore(log: seq<Entry>, k: nat, j: nat)
    requires k < j < |log|
  {
    && Contend(log, k, j)
    && (forall m :: k < m < j ==> !Renews(log[m], log[k].identity))
    && (log[j].at >= log[k].lease.expiresAt || exists m :: k < m < j && GivesUp(log[m], log[k].identity))
  }

  /** Following the renewals: when another session publishes, the latest lease had expired or been given up. */
  lemma {:induction false} LatestEnded(log: seq<Entry>, i: nat, j: nat) returns (k: nat)
    requires Separated(log) && i < j < |log| && Contend(log, i, j)
    ensures i <= k < j && EndedBefore(log, k, j)
    ensures log[k].identity.session == log[i].identity.session && log[k].identity.topic == log[i].identity.topic
    decreases j - i
  {
    if m :| i < m < j && Renews(log[m], log[i].identity) {
      k := LatestEnded(log, m, j);
    } else {
      k := i;
    }
  }

  /**
   * Whatever calls are made and whatever their hooks do: one writer per topic, single-use tickets, numbers
   * that only grow on a handle; and when one session publishes on a topic another session held before, the
   * other's latest lease on it, renewals included, had expired or been given up by closing its handle, its
   * session or the guard.
   */
  lemma EveryRun(maxSessions: Positive, maxHandles: Positive, start: Time, calls: seq<Call>, i: nat, j: nat)
    ensures var g := ExecAll(Initial(maxSessions, maxHandles, start), calls);
            && OneWriter(g) && Ordered(g.log) && Recorded(g) && Separated(g.log)
            && (i < j < |g.log| && Contend(g.log, i, j) ==>
                  exists k :: i <= k < j && EndedBefore(g.log, k, j)
                    && g.log[k].identity.session == g.log[i].identity.session)
  {
    ExecAllSafe(Initial(maxSessions, maxHandles, start), calls);
    var g := ExecAll(Initial(maxSessions, maxHandles, start), calls);
    if i < j < |g.log| && Contend(g.log, i, j) { var k := LatestEnded(g.log, i, j); }
  }

  /** A request whose authority holds at the moment of use. */
  predicate Authorized(g: Guard, request: Request, number: nat, clock: Reading) {
    && request.session in g.sessions && g.sessions[request.session] == request.epoch
    && request.handle in g.handles && g.handles[request.handle].identity.session == request.session
    && g.handles[request.handle].lease.Some? && g.handles[request.handle].lease.value.id == request.leaseId
    && clock.At? && g.lastTime <= clock.ms <= MAX_SAFE as real
    && clock.ms < g.handles[request.handle].lease.value.expiresAt
    && number > g.handles[request.handle].published
  }

  /** The history shows neither this ticket nor, on this handle, a number as high. */
  predicate NewOn(log: seq<Entry>, ticket: nat, handle: Id, number: nat) {
    forall i :: 0 <= i < |log| && log[i].Published? ==>
      log[i].ticket != ticket && (log[i].identity.handle == handle ==> log[i].number < number)
  }

  lemma CommitExactly(g: Guard, ticket: nat, request: Request, number: nat, clock: Reading)
    requires Safe(g)
    ensures Commit(g, ticket, request, number, clock).1.Ok? <==> Authorized(g, request, number, clock)
  {}

  /**
   * The publish callback runs if and only if the ticket is unused and the authority behind it holds in
   * the state the hook left behind; then its number is above every number published on that handle.
   */
  lemma PublishExactly(g: Guard, ticket: nat, callable: bool, hook: Hook, clock: Reading, inside: seq<Call>)
    requires Safe(g)
    ensures var answer := Exec(g, Publish(ticket, callable, hook, clock, inside)).1;
            answer.Ok? <==>
              && ticket < |g.tickets| && !g.tickets[ticket].consumed && callable && hook.verdict
              && var t := g.tickets[ticket];
                 var after := ExecAll(g.(tickets := g.tickets[ticket := t.(consumed := true)]), hook.calls);
                 && Owned(g, t.request.session, t.request.handle).Ok?
                 && Authorized(after, t.request, t.number, clock)
                 && NewOn(after.log, ticket, t.request.handle, t.number)
  {
    hide Commit;
    if ticket < |g.tickets| && !g.tickets[ticket].consumed {
      var t := g.tickets[ticket];
      var consumed := g.(tickets := g.tickets[ticket := t.(consumed := true)]);
      UseSafe(g, ticket);
      ExecAllSafe(consumed, hook.calls);
      var after := ExecAll(consumed, hook.calls);
      InUseStays(consumed, after, ticket);
      CommitExactly(after, ticket, t.request, t.number, clock);
    }
  }

  /**
   * A session arms a topic if and only if it owns the handle, the clock is sound and no other session holds the
   * topic.
   */
  lemma GrantExactly(g: Guard, session: Id, handle: Id, clock: Reading)
    requires Safe(g)
    ensures var (after, answer) := Grant(g, session, handle, clock);
            && (answer.Ok? <==>
                  && handle in g.handles && g.handles[handle].identity.session == session
                  && clock.At? && g.lastTime <= clock.ms
                  && clock.ms + g.handles[handle].leaseMs as real <= MAX_SAFE as real
                  && !WriterBusy(g, g.handles[handle].identity, clock.ms))
            && (answer.Ok? ==> forall h :: h in after.handles && h != handle ==>
                  after.handles[h].lease.None? || after.handles[h].identity.topic != g.handles[handle].identity.topic)
  {}

  /**
   * Arming succeeds if and only if the hook allows it and, in the state the hook left behind, the session owns
   * the handle, the clock is sound and no other session's lease on the topic is unexpired; then no other handle
   * of the topic has a lease left.
   */
  lemma ArmExactly(g: Guard, session: Id, handle: Id, hook: Hook, clock: Reading)
    requires Safe(g)
    ensures var (later, answer) := Exec(g, Arm(session, handle, hook, clock));
            var after := ExecAll(g, hook.calls);
            && (answer.Ok? <==>
                  && Owned(g, session, handle).Ok? && hook.verdict
                  && handle in after.handles && after.handles[handle].identity.session == session
                  && clock.At? && after.lastTime <= clock.ms
                  && clock.ms + after.handles[handle].leaseMs as real <= MAX_SAFE as real
                  && !WriterBusy(after, after.handles[handle].identity, clock.ms))
            && (answer.Ok? ==> forall h :: h in later.handles && h != handle ==>
                  || later.handles[h].lease.None?
                  || later.handles[h].identity.topic != after.handles[handle].identity.topic)
  {
    hide Safe, Grant;
    if Owned(g, session, handle).Ok? {
      ExecAllSafe(g, hook.calls);
      GrantExactly(ExecAll(g, hook.calls), session, handle, clock);
    }
  }
}
