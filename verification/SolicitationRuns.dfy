/** Every interleaving of the on-demand protocol (internal/mdns/resolve.go:67-200).

    A world is the guarded tables together with what happened so far: the clock, the goroutines
    that own an outstanding query, every call the global bucket judged, every call each client's
    bucket judged, and the wake channels closed, in order. */
module SolicitationRuns {
  import opened Options
  import opened TokenBucket
  import opened Durations
  import opened Solicitation

  datatype Ask = Ask(host: Label, client: Option<Client>, emitted: bool)

  datatype World = World(
    tables: Tables,
    clock: int,
    owners: map<Flight, Label>,
    calls: seq<Call<Ask>>,
    clientCalls: map<Client, seq<Call<()>>>,
    closings: seq<Flight>)

  datatype Event =
    | Enter(host: Label, client: Option<Client>, now: int, later: int, out: Decision)
    | Finish(flight: Flight, woken: bool)
    | Complete(hosts: seq<Label>)

  function History(m: map<Client, seq<Call<()>>>, c: Client): (h: seq<Call<()>>) {
    if c in m then m[c] else []
  }

  /** Whether this entry got as far as the global bucket. */
  predicate Judged(out: Decision) {
    out.Limited? || out.Started?
  }

  ghost predicate Init(w: World, start: int) {
    w == World(INITIAL, start, map[], [], map[], [])
  }

  /** The per-client history after an entry: extended when the global bucket let it through. */
  ghost function ClientLog(w: World, e: Event, t: Tables): (m: map<Client, seq<Call<()>>>)
    requires e.Enter? && Judged(e.out)
  {
    if e.client.Some? && Take(w.tables.global, e.now, GLOBAL_RATE, GLOBAL_BURST).1 && e.client.value in t.clients then
      var c := e.client.value;
      w.clientCalls[c := History(w.clientCalls, c) + [Call(e.now, t.clients[c].tokens, e.out.Started?, ())]]
    else w.clientCalls
  }

  ghost function AfterEnter(w: World, e: Event, t: Tables): (w': World)
    requires e.Enter?
  {
    if Judged(e.out) then
      w.(tables := t, clock := e.later,
         owners := if e.out.Started? then w.owners[e.out.flight := e.host] else w.owners,
         calls := w.calls + [Call(e.now, t.global.tokens, Take(w.tables.global, e.now, GLOBAL_RATE, GLOBAL_BURST).1,
                                  Ask(e.host, e.client, e.out.Started?))],
         clientCalls := ClientLog(w, e, t))
    else w.(tables := t, clock := e.later)
  }

  ghost predicate Next(w: World, e: Event, w': World) {
    match e
    case Enter(host, client, now, later, out) =>
      && w.clock <= now <= later
      && Entered(w.tables, host, client, now, later, w'.tables, out)
      && w' == AfterEnter(w, e, w'.tables)
    case Finish(fl, woken) => // the owner's wait always ends: its timer fires or its channel is closed
      && fl in w.owners && (woken ==> fl in w.tables.closed)
      && w' == w.(tables := Finished(w.tables, w.owners[fl], fl, woken), owners := w.owners - {fl})
    case Complete(hosts) =>
      w' == w.(tables := Completed(w.tables, hosts).0, closings := w.closings + Completed(w.tables, hosts).1)
  }

  ghost predicate Run(ws: seq<World>, es: seq<Event>) {
    && |ws| == |es| + 1
    && Init(ws[0], ws[0].clock)
    && forall i {:trigger es[i]} :: 0 <= i < |es| ==> Next(ws[i], es[i], ws[i+1])
  }

  // ---- the invariant, part by part ----

  ghost predicate Tracks<T>(b: Bucket, calls: seq<Call<T>>) {
    if calls == [] then b == EMPTY_BUCKET
    else b == Bucket(calls[|calls|-1].level, Some(calls[|calls|-1].at))
  }

  ghost predicate Past<T>(calls: seq<Call<T>>, clock: int) {
    calls != [] ==> calls[|calls|-1].at <= clock
  }

  ghost predicate GlobalInv(global: Bucket, calls: seq<Call<Ask>>, clock: int) {
    && Metered(calls, GLOBAL_RATE, GLOBAL_BURST)
    && Tracks(global, calls)
    && Past(calls, clock)
    && EmittedAdmitted(calls)
  }

  ghost predicate EmittedAdmitted(calls: seq<Call<Ask>>) {
    forall i :: 0 <= i < |calls| && calls[i].tag.emitted ==> calls[i].admitted
  }

  ghost predicate Emitted(calls: seq<Call<Ask>>, i: int, host: Label) {
    0 <= i < |calls| && calls[i].tag.emitted && calls[i].tag.host == host
  }

  /** Every entry of the recently-queried table is the time of a query that was sent. */
  ghost predicate Backed(recent: map<Label, int>, calls: seq<Call<Ask>>) {
    forall l :: l in recent ==> exists i :: Emitted(calls, i, l) && calls[i].at == recent[l]
  }

  /** A query that was sent is still on record, or is older than the window. */
  ghost predicate Remembered(recent: map<Label, int>, c: Call<Ask>, clock: int) {
    (c.tag.host in recent && recent[c.tag.host] >= c.at) || clock - c.at > WINDOW
  }

  ghost predicate AllRemembered(recent: map<Label, int>, calls: seq<Call<Ask>>, clock: int) {
    forall i :: 0 <= i < |calls| && calls[i].tag.emitted ==> Remembered(recent, calls[i], clock)
  }

  /** Two queries for one host are at least a window apart. */
  ghost predicate Spaced(calls: seq<Call<Ask>>) {
    forall i, j :: 0 <= i < j < |calls| && calls[i].tag.emitted && Emitted(calls, j, calls[i].tag.host) ==>
      calls[j].at - calls[i].at >= WINDOW
  }

  ghost predicate RecentInv(recent: map<Label, int>, calls: seq<Call<Ask>>, clock: int) {
    |recent| <= TABLE_CAP && Backed(recent, calls) && AllRemembered(recent, calls, clock) && Spaced(calls)
  }

  /** A client's bucket is where its history left it, or was dropped after a full idle window. */
  ghost predicate ClientTracks(clients: map<Client, Bucket>, h: seq<Call<()>>, c: Client, clock: int) {
    && Metered(h, CLIENT_RATE, CLIENT_BURST) && Past(h, clock)
    && (c in clients ==> h != [] && Tracks(clients[c], h))
    && (c !in clients && h != [] ==> clock - h[|h|-1].at > WINDOW)
  }

  ghost predicate Asked(calls: seq<Call<Ask>>, i: int, c: Client, at: int) {
    0 <= i < |calls| && calls[i].admitted && calls[i].tag.client == Some(c) && calls[i].at == at
  }

  /** Every client bucket was last used by a call the global bucket had admitted. */
  ghost predicate AllAsked(clients: map<Client, Bucket>, calls: seq<Call<Ask>>) {
    forall c :: c in clients ==>
      clients[c].last.Some? && exists i :: Asked(calls, i, c, clients[c].last.value)
  }

  ghost predicate ClientInv(clients: map<Client, Bucket>, logs: map<Client, seq<Call<()>>>, clock: int) {
    forall c :: ClientTracks(clients, History(logs, c), c, clock)
  }

  ghost predicate Distinct(s: seq<Flight>) {
    forall i, j :: 0 <= i < j < |s| ==> s[i] != s[j]
  }

  ghost predicate FlightInv(w: World) {
    && |w.tables.pending| <= INFLIGHT_CAP
    && Owned(w.tables.pending, w.owners)
    && Unclosed(w.tables)
    && (forall fl :: fl in w.owners || fl in w.tables.closed ==> fl < w.tables.next)
    && Distinct(w.closings)
    && (forall fl :: fl in w.closings <==> fl in w.tables.closed)
  }

  ghost predicate Inv(w: World) {
    && GlobalInv(w.tables.global, w.calls, w.clock)
    && RecentInv(w.tables.recent, w.calls, w.clock)
    && ClientInv(w.tables.clients, w.clientCalls, w.clock)
    && AllAsked(w.tables.clients, w.calls)
    && FlightInv(w)
  }

  // ---- buckets ----

  /** One call to a bucket extends the metered history of that bucket. */
  lemma {:induction false} TakeMetered<T>(b: Bucket, calls: seq<Call<T>>, now: int, rate: real, burst: real, tag: T)
    requires Metered(calls, rate, burst) && Tracks(b, calls) && Past(calls, now)
    requires 0.0 <= rate && 1.0 <= burst
    ensures var (b', ok) := Take(b, now, rate, burst);
            var calls' := calls + [Call(now, b'.tokens, ok, tag)];
            Metered(calls', rate, burst) && Tracks(b', calls')
  {
    var (b', ok) := Take(b, now, rate, burst);
    if calls != [] {
      assert MeteredAt(calls, |calls|-1, rate, burst);
      AccruedMonotone(0, now - calls[|calls|-1].at, rate);
    }
    MeteredExtend(calls, Call(now, b'.tokens, ok, tag), rate, burst);
  }

  /** Dropping a client bucket idle for more than the window changes no later verdict: whatever it
      held, it has refilled, and the next call leaves the same bucket either way. */
  lemma {:induction false} IdleDropNeutral(b: Bucket, now: int)
    requires 0.0 <= b.tokens && b.last.Some? && b.last.value < now - WINDOW
    ensures Take(b, now, CLIENT_RATE, CLIENT_BURST) == Take(EMPTY_BUCKET, now, CLIENT_RATE, CLIENT_BURST)
  {
    AccruedMonotone(WINDOW, now - b.last.value, CLIENT_RATE);
    assert Accrued(WINDOW, CLIENT_RATE) == 50.0;
  }

  // ---- table bounds ----

  lemma {:induction false} CallsWithinWindow(calls: seq<Call<Ask>>, clock: int)
    requires Metered(calls, GLOBAL_RATE, GLOBAL_BURST) && Past(calls, clock)
    ensures AdmittedSince(calls, clock - WINDOW) <= 120
  {
    AdmissionCurve(calls, GLOBAL_RATE, GLOBAL_BURST, clock - WINDOW, clock);
    assert Accrued(WINDOW, GLOBAL_RATE) == 100.0;
  }

  function HostOf(a: Ask): (h: Label) { a.host }

  function ClientOf(a: Ask): (c: Client) { if a.client.Some? then a.client.value else 0 }

  /** Entries of a recently-queried table that are no older than the window number at most 120. */
  lemma {:induction false} FreshBounded(calls: seq<Call<Ask>>, clock: int, recent: map<Label, int>)
    requires Metered(calls, GLOBAL_RATE, GLOBAL_BURST) && Past(calls, clock)
    requires EmittedAdmitted(calls) && Backed(recent, calls)
    ensures |Pruned(recent, clock)| <= 120
  {
    var young := Pruned(recent, clock).Keys;
    forall l | l in young ensures exists i :: 0 <= i < |calls| && Carries(calls[i], HostOf, l, clock - WINDOW) {
      var i :| Emitted(calls, i, l) && calls[i].at == recent[l];
      assert Carries(calls[i], HostOf, l, clock - WINDOW);
    }
    KeysBounded(calls, HostOf, young, clock - WINDOW);
    CallsWithinWindow(calls, clock);
  }

  /** Clients whose bucket was used within the window number at most 120, so trimming active
      clients is never needed. */
  lemma {:induction false} BusyBounded(clients: map<Client, Bucket>, calls: seq<Call<Ask>>, now: int)
    requires Metered(calls, GLOBAL_RATE, GLOBAL_BURST) && Past(calls, now) && AllAsked(clients, calls)
    ensures |DropIdle(clients, now - WINDOW)| <= 120
  {
    var busy := DropIdle(clients, now - WINDOW).Keys;
    forall c | c in busy ensures exists i :: 0 <= i < |calls| && Carries(calls[i], ClientOf, c, now - WINDOW) {
      var i :| Asked(calls, i, c, clients[c].last.value);
      assert Carries(calls[i], ClientOf, c, now - WINDOW);
    }
    KeysBounded(calls, ClientOf, busy, now - WINDOW);
    CallsWithinWindow(calls, now);
  }

  // ---- entering: the recently-queried table ----

  lemma {:induction false} BackedExtends(recent: map<Label, int>, calls: seq<Call<Ask>>, c: Call<Ask>)
    requires Backed(recent, calls)
    ensures Backed(recent, calls + [c])
  {
    forall l | l in recent ensures exists i :: Emitted(calls + [c], i, l) && (calls + [c])[i].at == recent[l] {
      var i :| Emitted(calls, i, l) && calls[i].at == recent[l];
      assert Emitted(calls + [c], i, l) && (calls + [c])[i].at == recent[l];
    }
  }

  /** The candidate table of a new query is backed, so pruning it would leave at most 120 entries:
      the hard reset of the bounding code is out of reach. */
  lemma {:induction false} NoHardReset(recent: map<Label, int>, calls: seq<Call<Ask>>, c: Call<Ask>, later: int)
    requires Backed(recent, calls) && c.tag.emitted && c.at <= later
    requires Metered(calls + [c], GLOBAL_RATE, GLOBAL_BURST) && EmittedAdmitted(calls + [c])
    ensures var young := recent[c.tag.host := c.at];
            && Backed(young, calls + [c])
            && |Pruned(young, later)| <= 120
            && |Bounded(young, later)| <= TABLE_CAP
            && (Bounded(young, later) == young || Bounded(young, later) == Pruned(young, later))
  {
    var all := calls + [c];
    var young := recent[c.tag.host := c.at];
    BackedExtends(recent, calls, c);
    forall l | l in young ensures exists i :: Emitted(all, i, l) && all[i].at == young[l] {
      if l == c.tag.host {
        assert Emitted(all, |calls|, l) && all[|calls|].at == young[l];
      } else {
        assert l in recent && young[l] == recent[l];
      }
    }
    FreshBounded(all, later, young);
  }

  lemma {:induction false} SpacedExtends(recent: map<Label, int>, calls: seq<Call<Ask>>, c: Call<Ask>, clock: int)
    requires Spaced(calls) && AllRemembered(recent, calls, clock) && clock <= c.at
    requires c.tag.emitted ==> c.tag.host in recent ==> c.at - recent[c.tag.host] >= WINDOW
    ensures Spaced(calls + [c])
  {
    var all := calls + [c];
    forall i, j | 0 <= i < j < |all| && all[i].tag.emitted && Emitted(all, j, all[i].tag.host)
      ensures all[j].at - all[i].at >= WINDOW
    {
      assert all[i] == calls[i];
      if j < |calls| {
        assert Emitted(calls, j, calls[i].tag.host);
      } else {
        assert Remembered(recent, calls[i], clock);
      }
    }
  }

  lemma {:induction false} RememberedExtends(recent: map<Label, int>, calls: seq<Call<Ask>>, c: Call<Ask>, clock: int,
                                             later: int)
    requires AllRemembered(recent, calls, clock) && Past(calls, c.at) && clock <= c.at <= later && c.tag.emitted
    requires Metered(calls, GLOBAL_RATE, GLOBAL_BURST)
    ensures var young := recent[c.tag.host := c.at];
            AllRemembered(young, calls + [c], later) && AllRemembered(Pruned(young, later), calls + [c], later)
  {
    var all := calls + [c];
    var young := recent[c.tag.host := c.at];
    forall i | 0 <= i < |all| && all[i].tag.emitted
      ensures Remembered(young, all[i], later) && Remembered(Pruned(young, later), all[i], later)
    {
      if i < |calls| {
        assert all[i] == calls[i] && Remembered(recent, calls[i], clock);
        TimesSorted(calls, GLOBAL_RATE, GLOBAL_BURST, i);
      }
    }
  }

  lemma {:induction false} RecentStarted(recent: map<Label, int>, calls: seq<Call<Ask>>, c: Call<Ask>, clock: int,
                                         later: int)
    requires RecentInv(recent, calls, clock) && Past(calls, c.at) && clock <= c.at <= later && c.tag.emitted
    requires Metered(calls, GLOBAL_RATE, GLOBAL_BURST)
    requires Metered(calls + [c], GLOBAL_RATE, GLOBAL_BURST) && EmittedAdmitted(calls + [c])
    requires c.tag.host in recent ==> c.at - recent[c.tag.host] >= WINDOW
    ensures RecentInv(Bounded(recent[c.tag.host := c.at], later), calls + [c], later)
  {
    NoHardReset(recent, calls, c, later);
    SpacedExtends(recent, calls, c, clock);
    RememberedExtends(recent, calls, c, clock, later);
  }

  lemma {:induction false} RecentRefused(recent: map<Label, int>, calls: seq<Call<Ask>>, c: Call<Ask>, clock: int,
                                         later: int)
    requires RecentInv(recent, calls, clock) && clock <= c.at <= later && !c.tag.emitted
    ensures RecentInv(recent, calls + [c], later)
  {
    BackedExtends(recent, calls, c);
    SpacedExtends(recent, calls, c, clock);
    forall i | 0 <= i < |calls + [c]| && (calls + [c])[i].tag.emitted
      ensures Remembered(recent, (calls + [c])[i], later)
    {
      assert Remembered(recent, calls[i], clock);
    }
  }

  // ---- entering: the client table ----

  /** The entry's own client: its call is metered against its whole history, even across a drop. */
  lemma {:induction false} OwnClient(clients: map<Client, Bucket>, table: map<Client, Bucket>, h: seq<Call<()>>,
                                     c: Client, clock: int, now: int)
    requires ClientTracks(clients, h, c, clock) && clock <= now
    requires table == clients || table == DropIdle(clients, now - WINDOW)
    ensures var (b, ok) := Take(BucketOf(table, c), now, CLIENT_RATE, CLIENT_BURST);
            var h' := h + [Call(now, b.tokens, ok, ())];
            Metered(h', CLIENT_RATE, CLIENT_BURST) && Tracks(b, h')
  {
    if c in table {
      TakeMetered(table[c], h, now, CLIENT_RATE, CLIENT_BURST, ());
    } else if h == [] {
      TakeMetered(EMPTY_BUCKET, h, now, CLIENT_RATE, CLIENT_BURST, ());
    } else {
      var last := h[|h|-1];
      assert MeteredAt(h, |h|-1, CLIENT_RATE, CLIENT_BURST);
      var held := Bucket(last.level, Some(last.at));
      IdleDropNeutral(held, now);
      TakeMetered(held, h, now, CLIENT_RATE, CLIENT_BURST, ());
    }
  }

  /** Any other client: kept as it was, or dropped as idle. */
  lemma {:induction false} OtherClient(clients: map<Client, Bucket>, table: map<Client, Bucket>, h: seq<Call<()>>,
                                       c: Client, clock: int, now: int, later: int)
    requires ClientTracks(clients, h, c, clock) && clock <= now <= later
    requires table == clients || table == DropIdle(clients, now - WINDOW)
    ensures ClientTracks(table, h, c, later)
  {
  }

  /** A client call over the table the bounding code left; `b` is the caller's new bucket. */
  lemma {:induction false} ClientsVia(clients: map<Client, Bucket>, table: map<Client, Bucket>,
                                      logs: map<Client, seq<Call<()>>>, c: Client, b: Bucket, call: Call<()>,
                                      clock: int, later: int)
    requires ClientInv(clients, logs, clock) && clock <= call.at <= later
    requires table == clients || table == DropIdle(clients, call.at - WINDOW)
    requires Metered(History(logs, c) + [call], CLIENT_RATE, CLIENT_BURST) && Tracks(b, History(logs, c) + [call])
    ensures ClientInv(table[c := b], logs[c := History(logs, c) + [call]], later)
  {
    var logs' := logs[c := History(logs, c) + [call]];
    forall d ensures ClientTracks(table[c := b], History(logs', d), d, later) {
      assert ClientTracks(clients, History(logs, d), d, clock);
      if d != c {
        OtherClient(clients, table, History(logs, d), d, clock, call.at, later);
        assert History(logs', d) == History(logs, d);
      }
    }
  }

  lemma {:induction false} ClientTakeKey(clients: map<Client, Bucket>, now: int, c: Client,
                                         clients': map<Client, Bucket>, ok: bool)
    requires ClientTake(clients, now, Some(c), clients', ok)
    ensures c in clients' && clients'[c].last == Some(now)
    ensures forall d :: d in clients' && d != c ==> d in clients && clients'[d] == clients[d]
  {
  }

  /** A client call, over whichever table the bounding code leaves. */
  lemma {:induction false} ClientsCharged(clients: map<Client, Bucket>, logs: map<Client, seq<Call<()>>>,
                                          calls: seq<Call<Ask>>, c: Client, clock: int, now: int, later: int,
                                          clients': map<Client, Bucket>, ok: bool)
    requires ClientInv(clients, logs, clock) && AllAsked(clients, calls) && clock <= now <= later
    requires Metered(calls, GLOBAL_RATE, GLOBAL_BURST) && Past(calls, now)
    requires ClientTake(clients, now, Some(c), clients', ok) && c in clients'
    ensures ClientInv(clients', logs[c := History(logs, c) + [Call(now, clients'[c].tokens, ok, ())]], later)
  {
    var table :|
      && Trimmed(clients, now, table)
      && clients' == table[c := Take(BucketOf(table, c), now, CLIENT_RATE, CLIENT_BURST).0]
      && ok == Take(BucketOf(table, c), now, CLIENT_RATE, CLIENT_BURST).1;
    BusyBounded(clients, calls, now);
    assert ClientTracks(clients, History(logs, c), c, clock);
    OwnClient(clients, table, History(logs, c), c, clock, now);
    ClientsVia(clients, table, logs, c, clients'[c], Call(now, clients'[c].tokens, ok, ()), clock, later);
  }

  lemma {:induction false} ClientsIdle(clients: map<Client, Bucket>, logs: map<Client, seq<Call<()>>>, clock: int,
                                       later: int)
    requires ClientInv(clients, logs, clock) && clock <= later
    ensures ClientInv(clients, logs, later)
  {
    forall c ensures ClientTracks(clients, History(logs, c), c, later) {
      assert ClientTracks(clients, History(logs, c), c, clock);
    }
  }

  lemma {:induction false} AskedExtends(clients: map<Client, Bucket>, calls: seq<Call<Ask>>, c: Call<Ask>,
                                        clients': map<Client, Bucket>)
    requires AllAsked(clients, calls)
    requires forall d :: d in clients' ==>
               || (d in clients && clients'[d] == clients[d])
               || (c.admitted && c.tag.client == Some(d) && clients'[d].last == Some(c.at))
    ensures AllAsked(clients', calls + [c])
  {
    var all := calls + [c];
    forall d | d in clients'
      ensures clients'[d].last.Some? && exists i :: Asked(all, i, d, clients'[d].last.value)
    {
      if d in clients && clients'[d] == clients[d] {
        var i :| Asked(calls, i, d, clients[d].last.value);
        assert Asked(all, i, d, clients'[d].last.value);
      } else {
        assert Asked(all, |calls|, d, c.at);
      }
    }
  }

  // ---- entering: the whole step ----

  /** The call an entry adds to the global history. */
  ghost function NewCall(w: World, e: Event): (c: Call<Ask>)
    requires e.Enter?
  {
    var (g, ok) := Take(w.tables.global, e.now, GLOBAL_RATE, GLOBAL_BURST);
    Call(e.now, g.tokens, ok, Ask(e.host, e.client, e.out.Started?))
  }

  lemma {:induction false} JudgedGlobal(w: World, e: Event, w': World)
    requires GlobalInv(w.tables.global, w.calls, w.clock)
    requires e.Enter? && Judged(e.out) && Next(w, e, w')
    ensures w'.calls == w.calls + [NewCall(w, e)] && w'.clock == e.later
    ensures GlobalInv(w'.tables.global, w'.calls, w'.clock)
  {
    TakeMetered(w.tables.global, w.calls, e.now, GLOBAL_RATE, GLOBAL_BURST, Ask(e.host, e.client, e.out.Started?));
  }

  lemma {:induction false} JudgedClients(w: World, e: Event, w': World)
    requires GlobalInv(w.tables.global, w.calls, w.clock)
    requires ClientInv(w.tables.clients, w.clientCalls, w.clock) && AllAsked(w.tables.clients, w.calls)
    requires e.Enter? && Judged(e.out) && Next(w, e, w')
    ensures ClientInv(w'.tables.clients, w'.clientCalls, w'.clock)
    ensures AllAsked(w'.tables.clients, w'.calls)
  {
    var ok := Take(w.tables.global, e.now, GLOBAL_RATE, GLOBAL_BURST).1;
    if ok && e.client.Some? {
      ClientTakeKey(w.tables.clients, e.now, e.client.value, w'.tables.clients, e.out.Started?);
      ClientsCharged(w.tables.clients, w.clientCalls, w.calls, e.client.value, w.clock, e.now, e.later,
                     w'.tables.clients, e.out.Started?);
    } else {
      assert w'.tables.clients == w.tables.clients;
      ClientsIdle(w.tables.clients, w.clientCalls, w.clock, e.later);
    }
    AskedExtends(w.tables.clients, w.calls, NewCall(w, e), w'.tables.clients);
  }

  /** What a started query does to the tables other than the buckets. */
  lemma {:induction false} StartedEffect(w: World, e: Event, w': World)
    requires e.Enter? && e.out.Started? && Next(w, e, w')
    ensures e.host !in w.tables.pending && |w.tables.pending| < INFLIGHT_CAP
    ensures e.host in w.tables.recent ==> e.now - w.tables.recent[e.host] >= WINDOW
    ensures w'.tables.pending == w.tables.pending[e.host := w.tables.next]
    ensures w'.tables.recent == Bounded(w.tables.recent[e.host := e.now], e.later)
    ensures w'.tables.closed == w.tables.closed && w'.tables.next == w.tables.next + 1
    ensures w'.owners == w.owners[w.tables.next := e.host] && w'.closings == w.closings
  {
  }

  /** A refused or joining entry leaves every table but the buckets alone. */
  lemma {:induction false} QuietEffect(w: World, e: Event, w': World)
    requires e.Enter? && !e.out.Started? && Next(w, e, w')
    ensures w'.tables.pending == w.tables.pending && w'.tables.recent == w.tables.recent
    ensures w'.tables.closed == w.tables.closed && w'.tables.next == w.tables.next
    ensures w'.owners == w.owners && w'.closings == w.closings
    ensures !Judged(e.out) ==> w'.tables.global == w.tables.global && w'.tables.clients == w.tables.clients
    ensures !Judged(e.out) ==> w'.calls == w.calls && w'.clientCalls == w.clientCalls
  {
  }

  /** Every pending flight has its owner, under its own label. */
  ghost predicate Owned(pending: map<Label, Flight>, owners: map<Flight, Label>) {
    forall l :: l in pending ==> pending[l] in owners && owners[pending[l]] == l
  }

  lemma {:induction false} OwnedApart(pending: map<Label, Flight>, owners: map<Flight, Label>)
    requires Owned(pending, owners)
    ensures forall l, m :: l in pending && m in pending && l != m ==> pending[l] != pending[m]
  {
  }

  lemma {:induction false} StartedPending(pending: map<Label, Flight>, owners: map<Flight, Label>, host: Label,
                                          fl: Flight)
    requires Owned(pending, owners) && fl !in owners
    ensures Owned(pending[host := fl], owners[fl := host]) && |pending[host := fl]| <= |pending| + 1
  {
    assert pending[host := fl].Keys == pending.Keys + {host};
  }

  lemma {:induction false} StartedFlights(w: World, host: Label, w': World)
    requires FlightInv(w) && |w.tables.pending| < INFLIGHT_CAP
    requires w'.tables.pending == w.tables.pending[host := w.tables.next]
    requires w'.tables.closed == w.tables.closed && w'.tables.next == w.tables.next + 1
    requires w'.owners == w.owners[w.tables.next := host] && w'.closings == w.closings
    ensures FlightInv(w')
  {
    StartedPending(w.tables.pending, w.owners, host, w.tables.next);
    OwnedApart(w'.tables.pending, w'.owners);
  }

  lemma {:induction false} EnterFlights(w: World, e: Event, w': World)
    requires FlightInv(w) && e.Enter? && Next(w, e, w')
    ensures FlightInv(w')
  {
    if e.out.Started? {
      StartedEffect(w, e, w');
      StartedFlights(w, e.host, w');
    } else {
      QuietEffect(w, e, w');
    }
  }

  lemma {:induction false} EnterRecent(w: World, e: Event, w': World)
    requires GlobalInv(w.tables.global, w.calls, w.clock) && RecentInv(w.tables.recent, w.calls, w.clock)
    requires e.Enter? && Next(w, e, w')
    ensures RecentInv(w'.tables.recent, w'.calls, w'.clock)
  {
    var r := w.tables.recent;
    if e.out.Started? {
      StartedEffect(w, e, w');
      JudgedGlobal(w, e, w');
      RecentStarted(r, w.calls, NewCall(w, e), w.clock, e.later);
    } else {
      QuietEffect(w, e, w');
      if Judged(e.out) {
        JudgedGlobal(w, e, w');
        RecentRefused(r, w.calls, NewCall(w, e), w.clock, e.later);
      } else {
        forall i | 0 <= i < |w.calls| && w.calls[i].tag.emitted ensures Remembered(r, w.calls[i], e.later) {
          assert Remembered(r, w.calls[i], w.clock);
        }
      }
    }
  }

  lemma {:induction false} EnterRates(w: World, e: Event, w': World)
    requires GlobalInv(w.tables.global, w.calls, w.clock)
    requires ClientInv(w.tables.clients, w.clientCalls, w.clock) && AllAsked(w.tables.clients, w.calls)
    requires e.Enter? && Next(w, e, w')
    ensures GlobalInv(w'.tables.global, w'.calls, w'.clock)
    ensures ClientInv(w'.tables.clients, w'.clientCalls, w'.clock) && AllAsked(w'.tables.clients, w'.calls)
  {
    if Judged(e.out) {
      JudgedGlobal(w, e, w');
      JudgedClients(w, e, w');
    } else {
      QuietEffect(w, e, w');
      ClientsIdle(w.tables.clients, w.clientCalls, w.clock, e.later);
    }
  }

  lemma {:induction false} EnterKeeps(w: World, e: Event, w': World)
    requires Inv(w) && e.Enter? && Next(w, e, w')
    ensures Inv(w')
  {
    EnterRates(w, e, w');
    EnterRecent(w, e, w');
    EnterFlights(w, e, w');
  }

  // ---- completing and leaving ----

  /** What a completion does: it closes, once each, flights that were pending, and forgets them. */
  lemma {:induction false} CompletedShape(s: Tables, hosts: seq<Label>)
    requires Unclosed(s)
    ensures var (s', woken) := Completed(s, hosts);
            && s' == s.(pending := s'.pending, closed := s'.closed)
            && s'.pending.Keys <= s.pending.Keys && |s'.pending| <= |s.pending|
            && (forall l :: l in s'.pending ==> s'.pending[l] == s.pending[l])
            && Unclosed(s') && Distinct(woken)
            && (forall fl :: fl in woken ==> fl !in s.closed && exists l :: l in s.pending && s.pending[l] == fl)
            && (forall fl :: fl in s'.closed <==> fl in s.closed || fl in woken)
    decreases |hosts|
  {
    if hosts != [] {
      if hosts[0] in s.pending {
        var fl := s.pending[hosts[0]];
        var mid := s.(pending := s.pending - {hosts[0]}, closed := s.closed + {fl});
        assert mid.pending.Keys == s.pending.Keys - {hosts[0]};
        CompletedShape(mid, hosts[1..]);
      } else {
        CompletedShape(s, hosts[1..]);
      }
    }
  }

  lemma {:induction false} DistinctAppend(a: seq<Flight>, b: seq<Flight>)
    requires Distinct(a) && Distinct(b) && forall fl :: fl in b ==> fl !in a
    ensures Distinct(a + b)
  {
    forall i, j | 0 <= i < j < |a + b| ensures (a + b)[i] != (a + b)[j] {
      if i < |a| <= j { assert b[j - |a|] in b && a[i] in a; }
    }
  }

  lemma {:induction false} CompleteKeeps(w: World, e: Event, w': World)
    requires FlightInv(w) && e.Complete? && Next(w, e, w')
    ensures FlightInv(w')
  {
    CompletedShape(w.tables, e.hosts);
    DistinctAppend(w.closings, Completed(w.tables, e.hosts).1);
  }

  lemma {:induction false} LeftPending(pending: map<Label, Flight>, owners: map<Flight, Label>, fl: Flight,
                                       left: map<Label, Flight>)
    requires Owned(pending, owners) && fl in owners
    requires left == if owners[fl] in pending && pending[owners[fl]] == fl then pending - {owners[fl]} else pending
    ensures Owned(left, owners - {fl}) && |left| <= |pending| && fl !in left.Values
    ensures forall l :: l in left ==> l in pending && left[l] == pending[l]
  {
    if left != pending { assert left.Keys == pending.Keys - {owners[fl]}; }
  }

  /** Once its owner leaves, a flight is out of the table. */
  lemma {:induction false} FinishKeeps(w: World, e: Event, w': World)
    requires FlightInv(w) && e.Finish? && Next(w, e, w')
    ensures FlightInv(w') && e.flight !in w'.tables.pending.Values
  {
    LeftPending(w.tables.pending, w.owners, e.flight, w'.tables.pending);
    OwnedApart(w'.tables.pending, w'.owners);
  }

  lemma {:induction false} NextKeeps(w: World, e: Event, w': World)
    requires Inv(w) && Next(w, e, w')
    ensures Inv(w')
  {
    match e
    case Enter(_, _, _, _, _) => EnterKeeps(w, e, w');
    case Finish(_, _) => FinishKeeps(w, e, w');
    case Complete(hosts) =>
      CompletedShape(w.tables, hosts);
      CompleteKeeps(w, e, w');
  }

  lemma {:induction false} RunKeeps(ws: seq<World>, es: seq<Event>, n: nat)
    requires Run(ws, es) && n < |ws|
    ensures Inv(ws[n])
  {
    if n > 0 {
      RunKeeps(ws, es, n - 1);
      assert Next(ws[n-1], es[n-1], ws[n]);
      NextKeeps(ws[n-1], es[n-1], ws[n]);
    }
  }

  // ---- what every run guarantees ----

  /** Queries sent at or after `x`. */
  ghost function SentSince(calls: seq<Call<Ask>>, x: int): (n: nat) {
    if calls == [] then 0
    else
      var last := calls[|calls|-1];
      SentSince(calls[..|calls|-1], x) + (if last.at >= x && last.tag.emitted then 1 else 0)
  }

  lemma {:induction false} SentAdmitted(calls: seq<Call<Ask>>, x: int)
    requires EmittedAdmitted(calls)
    ensures SentSince(calls, x) <= AdmittedSince(calls, x)
  {
    if calls != [] { SentAdmitted(calls[..|calls|-1], x); }
  }

  /** The daemon sends at most 20 + 10 (t - x) queries in any interval [x, t]. */
  lemma {:induction false} QueryRate(ws: seq<World>, es: seq<Event>, n: nat, x: int)
    requires Run(ws, es) && n < |ws| && x <= ws[n].clock
    ensures SentSince(ws[n].calls, x) as real <= 20.0 + Accrued(ws[n].clock - x, 10.0)
  {
    RunKeeps(ws, es, n);
    SentAdmitted(ws[n].calls, x);
    AdmissionCurve(ws[n].calls, GLOBAL_RATE, GLOBAL_BURST, x, ws[n].clock);
  }

  /** Two queries for one host are never less than ten seconds apart. */
  lemma {:induction false} QueriesSpaced(ws: seq<World>, es: seq<Event>, n: nat, i: nat, j: nat)
    requires Run(ws, es) && n < |ws| && i < j < |ws[n].calls|
    requires ws[n].calls[i].tag.emitted && ws[n].calls[j].tag.emitted
    requires ws[n].calls[i].tag.host == ws[n].calls[j].tag.host
    ensures ws[n].calls[j].at - ws[n].calls[i].at >= 10 * SECOND
  {
    RunKeeps(ws, es, n);
    assert Emitted(ws[n].calls, j, ws[n].calls[i].tag.host);
  }

  lemma {:induction false} RunRates(ws: seq<World>, es: seq<Event>, n: nat)
    requires Run(ws, es) && n < |ws|
    ensures GlobalInv(ws[n].tables.global, ws[n].calls, ws[n].clock)
    ensures |ws[n].tables.recent| <= TABLE_CAP && Backed(ws[n].tables.recent, ws[n].calls)
    ensures AllAsked(ws[n].tables.clients, ws[n].calls)
  {
    RunKeeps(ws, es, n);
  }

  lemma {:induction false} StartedBounded(w: World, e: Event, w': World)
    requires GlobalInv(w.tables.global, w.calls, w.clock) && Backed(w.tables.recent, w.calls)
    requires e.Enter? && e.out.Started? && Next(w, e, w')
    ensures |Pruned(w.tables.recent[e.host := e.now], e.later)| <= 120
  {
    JudgedGlobal(w, e, w');
    NoHardReset(w.tables.recent, w.calls, NewCall(w, e), e.later);
  }

  /** The suppression table never exceeds its cap, and at most 120 of its entries are fresh. */
  lemma {:induction false} SuppressionBounded(ws: seq<World>, es: seq<Event>, n: nat)
    requires Run(ws, es) && n < |ws|
    ensures |ws[n].tables.recent| <= TABLE_CAP && |Pruned(ws[n].tables.recent, ws[n].clock)| <= 120
  {
    RunRates(ws, es, n);
    FreshBounded(ws[n].calls, ws[n].clock, ws[n].tables.recent);
  }

  /** The hard reset is never taken: a new query finds at most 120 entries worth keeping. */
  lemma {:induction false} HardResetUnreachable(ws: seq<World>, es: seq<Event>, n: nat, w: World, e: Event)
    requires Run(ws, es) && n < |es| && w == ws[n] && e == es[n] && e.Enter? && e.out.Started?
    ensures |Pruned(w.tables.recent[e.host := e.now], e.later)| <= 120
  {
    RunRates(ws, es, n);
    StartedBounded(w, e, ws[n+1]);
  }

  /** An active client is never trimmed: whenever a call comes in, at most 120 clients have used
      their bucket within the window. */
  lemma {:induction false} ActiveClientsKept(ws: seq<World>, es: seq<Event>, n: nat, now: int)
    requires Run(ws, es) && n < |ws| && ws[n].clock <= now
    ensures |DropIdle(ws[n].tables.clients, now - WINDOW)| <= 120
    ensures forall table :: Trimmed(ws[n].tables.clients, now, table) ==>
              forall c :: c in DropIdle(ws[n].tables.clients, now - WINDOW) ==>
                c in table && table[c] == ws[n].tables.clients[c]
  {
    RunRates(ws, es, n);
    BusyBounded(ws[n].tables.clients, ws[n].calls, now);
  }

  /** At most 64 queries are in flight, and each has a live owner whose leaving step is enabled and
      takes it out of the table. */
  lemma {:induction false} InFlightOwned(ws: seq<World>, es: seq<Event>, n: nat)
    requires Run(ws, es) && n < |ws|
    ensures |ws[n].tables.pending| <= 64
    ensures forall l :: l in ws[n].tables.pending ==>
              exists w' :: Next(ws[n], Finish(ws[n].tables.pending[l], false), w') && l !in w'.tables.pending
  {
    RunKeeps(ws, es, n);
    var w := ws[n];
    forall l | l in w.tables.pending
      ensures exists w' :: Next(w, Finish(w.tables.pending[l], false), w') && l !in w'.tables.pending
    {
      var fl := w.tables.pending[l];
      var w' := w.(tables := Finished(w.tables, l, fl, false), owners := w.owners - {fl});
      assert Next(w, Finish(fl, false), w');
    }
  }

  ghost predicate Gone(w: World, fl: Flight) {
    fl < w.tables.next && fl !in w.owners
  }

  lemma {:induction false} GoneStays(w: World, e: Event, w': World, fl: Flight)
    requires FlightInv(w) && Next(w, e, w') && Gone(w, fl)
    ensures Gone(w', fl)
  {
    match e
    case Enter(_, _, _, _, _) =>
      if e.out.Started? { StartedEffect(w, e, w'); } else { QuietEffect(w, e, w'); }
    case Finish(_, _) =>
    case Complete(hosts) => CompletedShape(w.tables, hosts);
  }

  /** An owner that left leaves no trace: its flight is in no later table. */
  lemma {:induction false} LeavesForGood(ws: seq<World>, es: seq<Event>, i: nat, j: nat)
    requires Run(ws, es) && i < j < |ws| && es[i].Finish?
    ensures Gone(ws[j], es[i].flight) && es[i].flight !in ws[j].tables.pending.Values
  {
    RunFlights(ws, es, j - 1);
    RunFlights(ws, es, j);
    if j - 1 > i {
      LeavesForGood(ws, es, i, j - 1);
      GoneStays(ws[j-1], es[j-1], ws[j], es[i].flight);
    }
  }

  lemma {:induction false} RunFlights(ws: seq<World>, es: seq<Event>, n: nat)
    requires Run(ws, es) && n < |ws|
    ensures FlightInv(ws[n])
  {
    RunKeeps(ws, es, n);
  }

  /** No wake channel is ever closed twice, and every woken owner's channel was closed. */
  lemma {:induction false} WakeOnce(ws: seq<World>, es: seq<Event>, n: nat, i: nat, j: nat)
    requires Run(ws, es) && n < |ws| && i < j < |ws[n].closings|
    ensures ws[n].closings[i] != ws[n].closings[j]
    ensures forall fl :: fl in ws[n].tables.closed <==> fl in ws[n].closings
  {
    RunKeeps(ws, es, n);
  }

  /** Queries sent for client `c` at or after `x`. */
  ghost function SentFor(calls: seq<Call<Ask>>, c: Client, x: int): (n: nat) {
    if calls == [] then 0
    else
      var last := calls[|calls|-1];
      SentFor(calls[..|calls|-1], c, x)
        + (if last.at >= x && last.tag.emitted && last.tag.client == Some(c) then 1 else 0)
  }

  ghost predicate Accounted(w: World, c: Client, x: int) {
    SentFor(w.calls, c, x) == AdmittedSince(History(w.clientCalls, c), x)
  }

  /** An entry extends the history of at most its own client, and does so when it sends. */
  lemma {:induction false} LogStep(w: World, e: Event, w': World, c: Client)
    requires e.Enter? && Judged(e.out) && Next(w, e, w')
    ensures var h, h' := History(w.clientCalls, c), History(w'.clientCalls, c);
            || (h' == h && !(e.out.Started? && e.client == Some(c)))
            || (e.client == Some(c) && exists level :: h' == h + [Call(e.now, level, e.out.Started?, ())])
  {
    if e.out.Started? && e.client == Some(c) {
      ClientTakeKey(w.tables.clients, e.now, c, w'.tables.clients, true);
    }
  }

  lemma {:induction false} SentForMore(calls: seq<Call<Ask>>, call: Call<Ask>, c: Client, x: int)
    ensures SentFor(calls + [call], c, x)
      == SentFor(calls, c, x) + (if call.at >= x && call.tag.emitted && call.tag.client == Some(c) then 1 else 0)
  {
    assert (calls + [call])[..|calls|] == calls;
  }

  lemma {:induction false} AdmittedMore(calls: seq<Call<()>>, call: Call<()>, x: int)
    ensures AdmittedSince(calls + [call], x)
      == AdmittedSince(calls, x) + (if call.at >= x && call.admitted then 1 else 0)
  {
    assert (calls + [call])[..|calls|] == calls;
  }

  lemma {:induction false} JudgedAccounted(w: World, e: Event, w': World, c: Client, x: int)
    requires GlobalInv(w.tables.global, w.calls, w.clock)
    requires e.Enter? && Judged(e.out) && Next(w, e, w') && Accounted(w, c, x)
    ensures Accounted(w', c, x)
  {
    JudgedGlobal(w, e, w');
    LogStep(w, e, w', c);
    SentForMore(w.calls, NewCall(w, e), c, x);
    var h, h' := History(w.clientCalls, c), History(w'.clientCalls, c);
    if h' != h {
      var level :| h' == h + [Call(e.now, level, e.out.Started?, ())];
      AdmittedMore(h, Call(e.now, level, e.out.Started?, ()), x);
    }
  }

  lemma {:induction false} AccountedNext(w: World, e: Event, w': World, c: Client, x: int)
    requires Inv(w) && Next(w, e, w') && Accounted(w, c, x)
    ensures Accounted(w', c, x)
  {
    if e.Enter? {
      if Judged(e.out) { JudgedAccounted(w, e, w', c, x); } else { QuietEffect(w, e, w'); }
    }
  }

  lemma {:induction false} RunAccounted(ws: seq<World>, es: seq<Event>, n: nat, c: Client, x: int)
    requires Run(ws, es) && n < |ws|
    ensures Accounted(ws[n], c, x)
  {
    if n > 0 {
      RunAccounted(ws, es, n - 1, c, x);
      RunKeeps(ws, es, n - 1);
      assert Next(ws[n-1], es[n-1], ws[n]);
      AccountedNext(ws[n-1], es[n-1], ws[n], c, x);
    }
  }

  /** One client causes at most 10 + 5 (t - x) queries in any interval [x, t], table trimming
      included. */
  lemma {:induction false} ClientQueryRate(ws: seq<World>, es: seq<Event>, n: nat, c: Client, x: int)
    requires Run(ws, es) && n < |ws| && x <= ws[n].clock
    ensures SentFor(ws[n].calls, c, x) as real <= 10.0 + Accrued(ws[n].clock - x, 5.0)
  {
    RunKeeps(ws, es, n);
    RunAccounted(ws, es, n, c, x);
    var w := ws[n];
    assert ClientTracks(w.tables.clients, History(w.clientCalls, c), c, w.clock);
    AdmissionCurve(History(w.clientCalls, c), CLIENT_RATE, CLIENT_BURST, x, w.clock);
  }
}
