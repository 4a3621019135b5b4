/** On-demand mDNS solicitation (internal/mdns/resolve.go).

    A caller that misses on a local host enters one critical section, which joins an outstanding
    query, refuses, or starts a query it then owns; a completer wakes owners whose host appeared;
    an owner leaves through a second critical section. The spec below gives each critical section
    as a relation on the guarded tables; `Solicitor` is the code; the lemmas speak of every
    interleaving of any number of callers and completions under a clock that does not go back. */
module Solicitation {
  import opened Options
  import opened TokenBucket
  import opened Durations

  type Label = string
  type Client = nat
  type Flight = nat // identity of one odInflight allocation

  const GLOBAL_RATE: real := 10.0
  const GLOBAL_BURST: real := 20.0
  const CLIENT_RATE: real := 5.0
  const CLIENT_BURST: real := 10.0
  const INFLIGHT_CAP: nat := 64
  const WINDOW: int := 10 * SECOND
  const TABLE_CAP: nat := 4096

  datatype Bucket = Bucket(tokens: real, last: Option<int>)

  const EMPTY_BUCKET: Bucket := Bucket(0.0, None)

  function Refilled(b: Bucket, now: int, rate: real, burst: real): (t: real) {
    var t := if b.last.Some? then b.tokens + Accrued(now - b.last.value, rate) else b.tokens;
    if t > burst then burst else if b.last.None? then burst else t
  }

  /** odBucket.allow: the bucket afterwards and the verdict. */
  function Take(b: Bucket, now: int, rate: real, burst: real): (r: (Bucket, bool)) {
    var t := Refilled(b, now, rate, burst);
    if t >= 1.0 then (Bucket(t - 1.0, Some(now)), true) else (Bucket(t, Some(now)), false)
  }

  /** The tables guarded by odMu, the closed wake channels, and the counters. */
  datatype Tables = Tables(
    pending: map<Label, Flight>,
    recent: map<Label, int>,
    global: Bucket,
    clients: map<Client, Bucket>,
    closed: set<Flight>,
    next: Flight,
    emitted: nat, hits: nat, suppressed: nat, limited: nat, capFull: nat)

  datatype Decision = Ignored | Joined(flight: Flight) | Suppressed | CapFull | Limited | Started(flight: Flight)

  // ---- the client table ----

  function DropIdle(clients: map<Client, Bucket>, cutoff: int): (r: map<Client, Bucket>) {
    map c | c in clients && clients[c].last.Some? && clients[c].last.value >= cutoff :: clients[c]
  }

  /** What the bounding code may leave: everything below the cap; else the busy buckets; and only
      if those are still too many, any TABLE_CAP of them (the map order decides which). */
  ghost predicate Trimmed(clients: map<Client, Bucket>, now: int, table: map<Client, Bucket>) {
    if |clients| <= TABLE_CAP then table == clients
    else
      var busy := DropIdle(clients, now - WINDOW);
      if |busy| <= TABLE_CAP then table == busy
      else |table| == TABLE_CAP && table.Keys <= busy.Keys && forall c :: c in table ==> table[c] == busy[c]
  }

  function BucketOf(table: map<Client, Bucket>, c: Client): (b: Bucket) {
    if c in table then table[c] else EMPTY_BUCKET
  }

  /** odClientAllow. */
  ghost predicate ClientTake(clients: map<Client, Bucket>, now: int, client: Option<Client>,
                             clients': map<Client, Bucket>, ok: bool)
  {
    match client
    case None => clients' == clients && ok
    case Some(c) =>
      exists table ::
        && Trimmed(clients, now, table)
        && clients' == table[c := Take(BucketOf(table, c), now, CLIENT_RATE, CLIENT_BURST).0]
        && ok == Take(BucketOf(table, c), now, CLIENT_RATE, CLIENT_BURST).1
  }

  /** Both limits: the client's is consulted only once the global one has spent a token. */
  ghost predicate Charged(global: Bucket, clients: map<Client, Bucket>, now: int, client: Option<Client>,
                          global': Bucket, clients': map<Client, Bucket>, ok: bool)
  {
    var (g, admitted) := Take(global, now, GLOBAL_RATE, GLOBAL_BURST);
    && global' == g
    && if admitted then ClientTake(clients, now, client, clients', ok) else clients' == clients && !ok
  }

  // ---- the recently-queried table ----

  function Pruned(recent: map<Label, int>, later: int): (r: map<Label, int>) {
    map l | l in recent && recent[l] >= later - WINDOW :: recent[l]
  }

  /** odBoundRecent; `later` is its own clock reading. */
  function Bounded(recent: map<Label, int>, later: int): (r: map<Label, int>) {
    if |recent| <= TABLE_CAP then recent
    else if |Pruned(recent, later)| > TABLE_CAP then map[] // the hard reset
    else Pruned(recent, later)
  }

  // ---- the critical sections ----

  ghost predicate Entered(s: Tables, host: Label, client: Option<Client>, now: int, later: int,
                          s': Tables, out: Decision)
  {
    if host == "" then s' == s && out == Ignored
    else if host in s.pending then s' == s && out == Joined(s.pending[host])
    else if host in s.recent && now - s.recent[host] < WINDOW then
      s' == s.(suppressed := s.suppressed + 1) && out == Suppressed
    else if |s.pending| >= INFLIGHT_CAP then s' == s.(capFull := s.capFull + 1) && out == CapFull
    else Opened(s, host, client, now, later, s', out)
  }

  /** The part of the gate that charges the buckets. */
  ghost predicate Opened(s: Tables, host: Label, client: Option<Client>, now: int, later: int,
                         s': Tables, out: Decision)
  {
    || (&& out == Limited
        && Charged(s.global, s.clients, now, client, s'.global, s'.clients, false)
        && s' == s.(global := s'.global, clients := s'.clients, limited := s.limited + 1))
    || (&& out == Started(s.next)
        && Charged(s.global, s.clients, now, client, s'.global, s'.clients, true)
        && s' == s.(global := s'.global, clients := s'.clients,
                    pending := s.pending[host := s.next],
                    recent := Bounded(s.recent[host := now], later),
                    next := s.next + 1, emitted := s.emitted + 1))
  }

  /** The owner's second critical section; `woken` is what its wait returned. */
  function Finished(s: Tables, host: Label, fl: Flight, woken: bool): (s': Tables) {
    s.(pending := if host in s.pending && s.pending[host] == fl then s.pending - {host} else s.pending,
       hits := if woken then s.hits + 1 else s.hits)
  }

  /** The flights completeInflight closes, in order, and the tables afterwards. */
  function Completed(s: Tables, hosts: seq<Label>): (r: (Tables, seq<Flight>))
    decreases |hosts|
  {
    if hosts == [] then (s, [])
    else if hosts[0] in s.pending then
      var fl := s.pending[hosts[0]];
      var (s', woken) := Completed(s.(pending := s.pending - {hosts[0]}, closed := s.closed + {fl}), hosts[1..]);
      (s', [fl] + woken)
    else Completed(s, hosts[1..])
  }

  // ---- the code ----

  class Solicitor {
    var pending: map<Label, Flight>
    var recent: map<Label, int>
    var global: Bucket
    var clients: map<Client, Bucket>
    var closed: set<Flight>
    var next: Flight
    var emitted: nat
    var hits: nat
    var suppressed: nat
    var limited: nat
    var capFull: nat

    constructor ()
      ensures State() == INITIAL
    {
      pending, recent, global, clients := map[], map[], EMPTY_BUCKET, map[];
      closed, next := {}, 0;
      emitted, hits, suppressed, limited, capFull := 0, 0, 0, 0, 0;
    }

    ghost function State(): (s: Tables)
      reads this
    {
      Tables(pending, recent, global, clients, closed, next, emitted, hits, suppressed, limited, capFull)
    }

    /** Drops idle client buckets once the table is over its cap, then trims to the cap. */
    method TrimClients(now: int)
      modifies this`clients
      ensures Trimmed(old(clients), now, clients)
    {
      if |clients| > TABLE_CAP {
        var cutoff := now - WINDOW;
        var todo := clients.Keys;
        while todo != {}
          invariant todo <= clients.Keys <= old(clients).Keys
          invariant forall c :: c in clients ==> clients[c] == old(clients)[c]
          invariant forall c :: c in old(clients) && c !in todo ==>
                      (c in clients <==> c in DropIdle(old(clients), cutoff))
          decreases todo
        {
          var k :| k in todo;
          todo := todo - {k};
          if clients[k].last.None? || clients[k].last.value < cutoff {
            clients := clients - {k};
          }
        }
        assert clients == DropIdle(old(clients), cutoff);
        while |clients| > TABLE_CAP
          invariant clients.Keys <= DropIdle(old(clients), cutoff).Keys
          invariant forall c :: c in clients ==> clients[c] == old(clients)[c]
          invariant |DropIdle(old(clients), cutoff)| <= TABLE_CAP ==> clients == DropIdle(old(clients), cutoff)
          invariant |DropIdle(old(clients), cutoff)| > TABLE_CAP ==> |clients| >= TABLE_CAP
          decreases |clients|
        {
          var k :| k in clients.Keys;
          assert |clients - {k}| == |clients| - 1 by { assert (clients - {k}).Keys == clients.Keys - {k}; }
          clients := clients - {k};
        }
      }
    }

    method ClientAllow(now: int, client: Option<Client>) returns (ok: bool)
      modifies this`clients
      ensures ClientTake(old(clients), now, client, clients, ok)
    {
      if client.None? { return true; }
      TrimClients(now);
      ghost var table := clients;
      var (b, allowed) := Take(BucketOf(clients, client.value), now, CLIENT_RATE, CLIENT_BURST);
      clients := clients[client.value := b];
      ok := allowed;
      assert Trimmed(old(clients), now, table);
    }

    method Charge(now: int, client: Option<Client>) returns (ok: bool)
      modifies this`global, this`clients
      ensures Charged(old(global), old(clients), now, client, global, clients, ok)
    {
      var (g, admitted) := Take(global, now, GLOBAL_RATE, GLOBAL_BURST);
      global := g;
      ok := admitted;
      if ok { ok := ClientAllow(now, client); }
    }

    method BoundRecent(later: int)
      modifies this`recent
      ensures recent == Bounded(old(recent), later)
    {
      if |recent| <= TABLE_CAP { return; }
      var todo := recent.Keys;
      while todo != {}
        invariant todo <= recent.Keys <= old(recent).Keys
        invariant forall l :: l in recent ==> recent[l] == old(recent)[l]
        invariant forall l :: l in old(recent) && l !in todo ==>
                    (l in recent <==> l in Pruned(old(recent), later))
        decreases todo
      {
        var k :| k in todo;
        todo := todo - {k};
        if recent[k] < later - WINDOW { recent := recent - {k}; }
      }
      assert recent == Pruned(old(recent), later);
      if |recent| > TABLE_CAP { recent := map[]; }
    }

    /** Registers a new flight and the time of its query. */
    method Launch(host: Label, now: int, later: int) returns (fl: Flight)
      modifies this`pending, this`recent, this`next, this`emitted
      ensures fl == old(next) && next == fl + 1 && emitted == old(emitted) + 1
      ensures pending == old(pending)[host := fl]
      ensures recent == Bounded(old(recent)[host := now], later)
    {
      fl := next;
      next := next + 1;
      pending := pending[host := fl];
      recent := recent[host := now];
      BoundRecent(later);
      emitted := emitted + 1;
    }

    /** Resolve up to its first unlock: the whole gate. */
    method Enter(host: Label, client: Option<Client>, now: int, later: int) returns (out: Decision)
      modifies this
      ensures Entered(old(State()), host, client, now, later, State(), out)
    {
      if host == "" { return Ignored; }
      if host in pending { return Joined(pending[host]); }
      if host in recent && now - recent[host] < WINDOW {
        suppressed := suppressed + 1;
        return Suppressed;
      }
      if |pending| >= INFLIGHT_CAP {
        capFull := capFull + 1;
        return CapFull;
      }
      out := Open(host, client, now, later);
    }

    method Open(host: Label, client: Option<Client>, now: int, later: int) returns (out: Decision)
      modifies this
      ensures Opened(old(State()), host, client, now, later, State(), out)
    {
      var ok := Charge(now, client);
      if ok {
        var fl := Launch(host, now, later);
        out := Started(fl);
      } else {
        limited := limited + 1;
        out := Limited;
      }
    }

    /** Resolve after its wait. */
    method Finish(host: Label, fl: Flight, woken: bool)
      modifies this`pending, this`hits
      ensures State() == Finished(old(State()), host, fl, woken)
    {
      if host in pending && pending[host] == fl { pending := pending - {host}; }
      if woken { hits := hits + 1; }
    }

    /** close(fl.done): closing a closed channel would panic, so that is a precondition. */
    method Close(fl: Flight)
      requires fl !in closed
      modifies this`closed
      ensures closed == old(closed) + {fl}
    {
      closed := closed + {fl};
    }

    method CompleteInflight(hosts: seq<Label>)
      requires Unclosed(State())
      modifies this`pending, this`closed
      ensures State() == Completed(old(State()), hosts).0 && Unclosed(State())
    {
      var i := 0;
      while i < |hosts|
        invariant 0 <= i <= |hosts|
        invariant Unclosed(State())
        invariant Completed(State(), hosts[i..]).0 == Completed(old(State()), hosts).0
      {
        var h := hosts[i];
        assert hosts[i..][0] == h && hosts[i..][1..] == hosts[i+1..];
        if h in pending {
          ghost var before := State();
          var fl := pending[h];
          Close(fl);
          pending := pending - {h};
          assert State() == before.(pending := before.pending - {h}, closed := before.closed + {fl});
        }
        i := i + 1;
      }
    }
  }

  const INITIAL: Tables := Tables(map[], map[], EMPTY_BUCKET, map[], {}, 0, 0, 0, 0, 0, 0)

  /** Pending flights are distinct and none of their channels is closed. */
  ghost predicate Unclosed(s: Tables) {
    && (forall l :: l in s.pending ==> s.pending[l] !in s.closed)
    && (forall l, m :: l in s.pending && m in s.pending && l != m ==> s.pending[l] != s.pending[m])
  }
}
