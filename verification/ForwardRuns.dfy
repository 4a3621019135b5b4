/** What clients see over whole runs of the forward path (internal/server/server.go:262-355). */
module ForwardRuns {
  import opened Options
  import opened Names
  import opened RecencyList
  import opened Messages
  import opened AnswerCache
  import opened Durations
  import R = AnswerCacheRuns
  import opened ForwardPath

  /** One call of forwardCached: the lookup at t0, the end at t1, the upstream's reply if it is asked. */
  datatype Call = Call(req: Request, allow: seq<Name>, up: Option<Message>, t0: int, t1: int)

  /** The cache, and for each key the upstream message last stored for it and when. */
  datatype History = History(s: State<Message>, stored: map<Key, (Message, int)>)

  /** The call has a key and stores the upstream's message. */
  predicate Stores(c: Config, s: State<Message>, call: Call) {
    && KeyFor(call.req).Some?
    && var r := Looked(c, s, KeyFor(call.req).value, call.t0).1;
    && (r == Miss || r == Stale)
    && Good(call.up) && Offered(c, call.up.value, call.t1).Some?
  }

  function Next(e: Setup, w: History, call: Call): (v: History)
    requires e.cache.Some?
  {
    var s := Forwarded(e, w.s, call.req, call.allow, call.up, call.t0, call.t1).0;
    History(s, if e.forwarder && Stores(e.cache.value, w.s, call)
             then w.stored[KeyFor(call.req).value := (call.up.value, call.t1)] else w.stored)
  }

  function Run(e: Setup, calls: seq<Call>): (w: History)
    requires e.cache.Some?
  {
    if calls == [] then History(State(Nil, map[], NO_STATS), map[])
    else Next(e, Run(e, calls[..|calls|-1]), calls[|calls|-1])
  }

  /** An entry is a failure marker, or holds the last stored message, without EDNS framing. */
  ghost predicate EntryTraced(c: Config, k: Key, e: Cached<Message>, stored: map<Key, (Message, int)>) {
    e.body.Some? ==>
      && k in stored && e.body == Some(Stripped(stored[k].0)) && e.at == stored[k].1
      && Cacheable(c, stored[k].0) == Some((e.ttl, e.kind))
  }

  ghost predicate Traced(c: Config, held: map<Key, Cached<Message>>, stored: map<Key, (Message, int)>) {
    forall k :: k in held ==> EntryTraced(c, k, held[k], stored) && WellTagged(held[k])
  }

  /** A state whose entries are those of s, but for their hit counters. */
  ghost predicate From(t: State<Message>, s: State<Message>) {
    forall k :: k in t.held ==> k in s.held && (t.held[k] == s.held[k] || t.held[k] == Counted(s.held[k]))
  }

  lemma LookedFrom(c: Config, s: State<Message>, k: Key, now: int)
    ensures From(Looked(c, s, k, now).0, s)
    ensures Looked(c, s, k, now).1 == Miss ==> k !in Looked(c, s, k, now).0.held
  {
  }

  lemma FromTraced(c: Config, t: State<Message>, s: State<Message>, stored: map<Key, (Message, int)>)
    requires Traced(c, s.held, stored) && From(t, s)
    ensures Traced(c, t.held, stored)
  {
  }

  /** A put adds its own entry and changes no other. */
  lemma InsertedFrom(c: Config, s: State<Message>, k: Key, e: Cached<Message>)
    ensures forall x :: x in Inserted(c, s, k, e).held ==>
      if x == k then Inserted(c, s, k, e).held[x] == e else x in s.held && Inserted(c, s, k, e).held[x] == s.held[x]
  {
  }

  lemma StoredTraced(c: Config, s: State<Message>, k: Key, m: Message, now: int, stored: map<Key, (Message, int)>)
    requires Traced(c, s.held, stored) && Offered(c, m, now).Some?
    ensures Traced(c, Stored(c, s, k, m, now).held, stored[k := (m, now)])
  {
    var e := Offered(c, m, now).value;
    InsertedFrom(c, s, k, e);
    assert EntryTraced(c, k, e, stored[k := (m, now)]);
  }

  lemma MarkTraced(c: Config, s: State<Message>, k: Key, now: int, stored: map<Key, (Message, int)>)
    requires Traced(c, s.held, stored)
    ensures Traced(c, StoredFail(c, s, k, now).held, stored)
  {
    InsertedFrom(c, s, k, Marker(c, now));
  }

  /** The upstream's message, if the call stores it. */
  function Recorded(c: Config, r: Result, k: Key, up: Option<Message>, t1: int, stored: map<Key, (Message, int)>):
      (s: map<Key, (Message, int)>) {
    if (r == Miss || r == Stale) && Good(up) && Offered(c, up.value, t1).Some? then stored[k := (up.value, t1)]
    else stored
  }

  lemma StateTraced(c: Config, s: State<Message>, k: Key, up: Option<Message>, t0: int, t1: int,
                    stored: map<Key, (Message, int)>)
    requires Traced(c, s.held, stored)
    ensures Traced(c, StateAfter(c, s, k, up, t0, t1).held, Recorded(c, Looked(c, s, k, t0).1, k, up, t1, stored))
  {
    var l := Looked(c, s, k, t0);
    LookedFrom(c, s, k, t0);
    FromTraced(c, l.0, s, stored);
    if l.1 == Miss || l.1 == Stale {
      if Good(up) {
        if Offered(c, up.value, t1).Some? { StoredTraced(c, l.0, k, up.value, t1, stored); }
      } else if l.1 == Miss {
        MarkTraced(c, l.0, k, t1, stored);
      }
    }
  }

  lemma NextTraced(e: Setup, w: History, call: Call)
    requires e.cache.Some? && Traced(e.cache.value, w.s.held, w.stored)
    ensures Traced(e.cache.value, Next(e, w, call).s.held, Next(e, w, call).stored)
  {
    if e.forwarder && KeyFor(call.req).Some? {
      StateTraced(e.cache.value, w.s, KeyFor(call.req).value, call.up, call.t0, call.t1, w.stored);
    }
  }

  lemma {:induction false} RunTraced(e: Setup, calls: seq<Call>)
    requires e.cache.Some?
    ensures Traced(e.cache.value, Run(e, calls).s.held, Run(e, calls).stored)
  {
    if calls != [] {
      RunTraced(e, calls[..|calls|-1]);
      NextTraced(e, Run(e, calls[..|calls|-1]), calls[|calls|-1]);
    }
  }

  // ---- fresh hits ----

  /** Every TTL the cache grants is one its 32-bit seconds can count. */
  predicate Countable(c: Config) {
    var most := (U32 - 1) * SECOND;
    c.minTTL <= most && c.maxTTL <= most && c.negMinTTL <= most && c.negMaxTTL <= most
  }

  /** The message after so long: every TTL less the whole seconds, but at least one. */
  function Older(m: Message, age: int): (r: Message)
    requires age >= 0
  {
    WithTtls(m, LeftAfter(age))
  }

  function LeftAfter(age: int): (f: nat -> nat) {
    ttl => Left(ttl, age)
  }

  predicate WireTtls(rrs: seq<RR>) {
    forall i :: 0 <= i < |rrs| ==> rrs[i].ttl < U32
  }

  /** TTLs fit their 32-bit field. */
  predicate Wire(m: Message) {
    WireTtls(m.answer) && WireTtls(m.ns) && WireTtls(m.extra)
  }

  lemma AgedSection(rrs: seq<RR>, age: int)
    requires 0 <= age / SECOND < U32 - 1 && age >= 0 && WireTtls(rrs)
    ensures MapTtl(rrs, AgedBy(age)) == MapTtl(rrs, LeftAfter(age))
  {
    forall i | 0 <= i < |rrs| ensures Aged(rrs[i].ttl, age) == Left(rrs[i].ttl, age) {
      assert (age / SECOND) % U32 == age / SECOND;
    }
  }

  lemma DecrementedIsOlder(m: Message, age: int)
    requires 0 <= age && age / SECOND < U32 - 1 && Wire(m)
    ensures Decremented(m, age) == Older(m, age)
  {
    AgedSection(m.answer, age);
    AgedSection(m.ns, age);
    AgedSection(m.extra, age);
  }

  lemma {:induction false} NoOptWire(rrs: seq<RR>)
    requires WireTtls(rrs)
    ensures WireTtls(NoOpt(rrs))
  {
    if rrs != [] { NoOptWire(rrs[..|rrs|-1]); }
  }

  /** The clock does not run backwards, and upstream messages come off the wire. */
  ghost predicate Plausible(calls: seq<Call>, now: int) {
    calls != [] ==>
      var last := calls[|calls|-1];
      && last.t0 <= last.t1 <= now && (last.up.Some? ==> Wire(last.up.value))
      && Plausible(calls[..|calls|-1], last.t0)
  }

  ghost predicate Known(stored: map<Key, (Message, int)>, now: int) {
    forall k :: k in stored ==> Wire(stored[k].0) && stored[k].1 <= now
  }

  lemma {:induction false} RunKnown(e: Setup, calls: seq<Call>, now: int)
    requires e.cache.Some? && Plausible(calls, now)
    ensures Known(Run(e, calls).stored, now)
  {
    if calls != [] { RunKnown(e, calls[..|calls|-1], calls[|calls|-1].t0); }
  }

  /** A stored message within its lifetime ages exactly. */
  lemma FreshOlder(c: Config, m: Message, age: int)
    requires Countable(c) && Wire(m) && Cacheable(c, m).Some? && 0 <= age < Cacheable(c, m).value.0
    ensures Decremented(Stripped(m), age) == Older(Stripped(m), age)
  {
    TtlBounded(c, m);
    NoOptWire(m.extra);
    DecrementedIsOlder(Stripped(m), age);
  }

  /** A fresh hit, from the entry's history. */
  lemma FreshEntry(c: Config, s: State<Message>, k: Key, t0: int, stored: map<Key, (Message, int)>)
    requires Countable(c) && Traced(c, s.held, stored) && Known(stored, t0) && Looked(c, s, k, t0).1 == Fresh
    ensures k in stored && Found(c, s, k, t0) == Some(Older(Stripped(stored[k].0), t0 - stored[k].1))
  {
    assert EntryTraced(c, k, s.held[k], stored) && s.held[k].body.Some?;
    FreshOlder(c, stored[k].0, t0 - stored[k].1);
  }

  lemma FreshFound(e: Setup, calls: seq<Call>, h: History, k: Key, t0: int)
    requires e.cache.Some? && Countable(e.cache.value) && Plausible(calls, t0) && h == Run(e, calls)
    requires Looked(e.cache.value, h.s, k, t0).1 == Fresh
    ensures k in h.stored && Known(h.stored, t0)
    ensures Found(e.cache.value, h.s, k, t0) == Some(Older(Stripped(h.stored[k].0), t0 - h.stored[k].1))
  {
    RunTraced(e, calls);
    RunKnown(e, calls, t0);
    FreshEntry(e.cache.value, h.s, k, t0, h.stored);
  }

  /** What a fresh hit owes the client: the message last stored, without EDNS framing, each TTL aged by the
      whole seconds since and at least one, under the request's own id and through the current filter. */
  function Owed(e: Setup, call: Call, last: (Message, int)): (r: Reply)
    requires last.1 <= call.t0
  {
    Served(Egress(Older(Stripped(last.0), call.t0 - last.1), call.req, call.allow, e.blocked))
  }

  lemma FreshReply(e: Setup, s: State<Message>, call: Call, last: (Message, int))
    requires e.cache.Some? && e.forwarder && KeyFor(call.req).Some? && last.1 <= call.t0
    requires Looked(e.cache.value, s, KeyFor(call.req).value, call.t0).1 == Fresh
    requires Found(e.cache.value, s, KeyFor(call.req).value, call.t0) == Some(Older(Stripped(last.0), call.t0 - last.1))
    ensures Forwarded(e, s, call.req, call.allow, call.up, call.t0, call.t1).1 == Owed(e, call, last)
  {
  }

  /** In every run, a fresh hit is answered with what is owed for the upstream message last stored for its
      key. */
  lemma FreshHit(e: Setup, calls: seq<Call>, h: History, call: Call)
    requires e.cache.Some? && e.forwarder && Countable(e.cache.value) && Plausible(calls, call.t0)
    requires h == Run(e, calls) && KeyFor(call.req).Some?
    requires Looked(e.cache.value, h.s, KeyFor(call.req).value, call.t0).1 == Fresh
    ensures KeyFor(call.req).value in h.stored && h.stored[KeyFor(call.req).value].1 <= call.t0
    ensures Forwarded(e, h.s, call.req, call.allow, call.up, call.t0, call.t1).1
      == Owed(e, call, h.stored[KeyFor(call.req).value])
  {
    var k := KeyFor(call.req).value;
    FreshFound(e, calls, h, k, call.t0);
    FreshReply(e, h.s, call, h.stored[k]);
  }

  // ---- failures ----

  /** While a fresh or a stale-eligible answer is held, no call is refused. */
  lemma HeldIsServed(e: Setup, calls: seq<Call>, call: Call)
    requires e.cache.Some? && e.forwarder && KeyFor(call.req).Some?
    requires Looked(e.cache.value, Run(e, calls).s, KeyFor(call.req).value, call.t0).1 in {Fresh, Stale}
    ensures Forwarded(e, Run(e, calls).s, call.req, call.allow, call.up, call.t0, call.t1).1.Served?
  {
    RunTraced(e, calls);
  }

  // ---- every forward run is a cache run ----

  /** The cache operations of one call. */
  function OpsOf(e: Setup, s: State<Message>, call: Call): (ops: seq<R.Op>)
    requires e.cache.Some?
  {
    if !e.forwarder || KeyFor(call.req).None? then []
    else
      var k := KeyFor(call.req).value;
      var r := Looked(e.cache.value, s, k, call.t0).1;
      [R.Lookup(k, call.t0)] +
      (if r == Fresh || r == FailHit then []
       else if Good(call.up) then [R.Store(k, call.up.value, call.t1)]
       else if r == Stale then [R.NoteStaleServed]
       else [R.StoreFail(k, call.t1)])
  }

  lemma CallIsOps(e: Setup, ops: seq<R.Op>, call: Call)
    requires e.cache.Some?
    ensures var s := R.Run(e.cache.value, ops).s;
      R.Run(e.cache.value, ops + OpsOf(e, s, call)).s
      == Forwarded(e, s, call.req, call.allow, call.up, call.t0, call.t1).0
  {
    var c, s := e.cache.value, R.Run(e.cache.value, ops).s;
    var more := OpsOf(e, s, call);
    if more == [] {
      assert ops + more == ops;
    } else {
      assert (ops + more[..1])[..|ops|] == ops;
      if |more| == 2 {
        assert (ops + more)[..|ops|+1] == ops + more[..1];
      } else {
        assert more == more[..1];
      }
    }
  }

  /** So everything every cache run keeps holds in every run of calls. */
  lemma {:induction false} RunIsOps(e: Setup, calls: seq<Call>) returns (ops: seq<R.Op>)
    requires e.cache.Some?
    ensures Run(e, calls).s == R.Run(e.cache.value, ops).s
  {
    ops := [];
    if calls != [] {
      ops := RunIsOps(e, calls[..|calls|-1]);
      CallIsOps(e, ops, calls[|calls|-1]);
      ops := ops + OpsOf(e, R.Run(e.cache.value, ops).s, calls[|calls|-1]);
    }
  }

  lemma RunWellFormed(e: Setup, calls: seq<Call>)
    requires e.cache.Some? && ValidConfig(e.cache.value)
    ensures WellFormed(e.cache.value, Run(e, calls).s)
  {
    var ops := RunIsOps(e, calls);
    R.RunKeeps(e.cache.value, ops);
  }

  // ---- failure markers ----

  /** The keys a call that stores a failure marker loses: the least recently touched one, when its own
      key is new and the cache is full; never its own. */
  function Displaced(c: Config, s: State<Message>, k: Key): (r: set<Key>) {
    if s.order.Cons? && k !in s.held && Len(s.order) == c.maxEntries then {Back(s.order)} else {}
  }

  /** The call asks the upstream in vain and has nothing to fall back on. */
  predicate Marks(e: Setup, s: State<Message>, call: Call)
    requires e.cache.Some?
  {
    && e.forwarder && KeyFor(call.req).Some? && !Good(call.up)
    && Looked(e.cache.value, s, KeyFor(call.req).value, call.t0).1 == Miss
  }

  lemma MarkedState(c: Config, s: State<Message>, k: Key, t0: int, t1: int)
    requires ValidConfig(c) && WellFormed(c, s) && Looked(c, s, k, t0).1 == Miss
    ensures StoredFail(c, Looked(c, s, k, t0).0, k, t1).held == (s.held - Displaced(c, s, k))[k := Marker(c, t1)]
  {
    WithoutDistinct(s.order, k);
    FrontDistinct(s.order, k);
    if k !in s.held {
      if s.order.Cons? { R.BackIsOld(s.order, k); }
      assert s.held[k := Marker(c, t1)] == (s.held - {})[k := Marker(c, t1)];
    } else {
      assert (s.held - {k})[k := Marker(c, t1)] == (s.held - {})[k := Marker(c, t1)];
    }
  }

  /** In every run, a failure marker is stored only where there was no usable answer. It replaces at most a
      marker or an answer past its stale window, leaves every other entry as it is, and costs another key its
      entry exactly when its own is new and the cache is full: the least recently touched one. */
  lemma MarkerDisplaces(e: Setup, calls: seq<Call>, h: History, call: Call)
    requires e.cache.Some? && ValidConfig(e.cache.value) && h == Run(e, calls) && Marks(e, h.s, call)
    ensures var c, k := e.cache.value, KeyFor(call.req).value;
      && (k in h.s.held ==> Standing(c, h.s.held[k], call.t0 - h.s.held[k].at) == Miss)
      && Next(e, h, call).s.held == (h.s.held - Displaced(c, h.s, k))[k := Marker(c, call.t1)]
  {
    RunWellFormed(e, calls);
    MarkedState(e.cache.value, h.s, KeyFor(call.req).value, call.t0, call.t1);
  }

  /** A call that puts its upstream's answer into an empty cache. */
  lemma FirstStored(e: Setup, call: Call)
    requires e.cache.Some? && e.forwarder && e.cache.value.maxEntries == 1 && Good(call.up)
    requires KeyFor(call.req).Some? && Offered(e.cache.value, call.up.value, call.t1).Some?
    ensures var s := Run(e, [call]).s;
      && s.order == Cons(KeyFor(call.req).value, Nil)
      && s.held == map[KeyFor(call.req).value := Offered(e.cache.value, call.up.value, call.t1).value]
  {
    assert [call][..0] == [];
    var c, k, empty := e.cache.value, KeyFor(call.req).value, State<Message>.State(Nil, map[], NO_STATS);
    var entry := Offered(c, call.up.value, call.t1).value;
    assert Looked(c, empty, k, call.t0) == (Missed(empty), Miss);
    FirstInserted(c, Missed(empty), k, entry);
    assert Run(e, [call]).s == Inserted(c, Missed(empty), k, entry);
  }

  lemma FirstInserted(c: Config, s: State<Message>, k: Key, entry: Cached<Message>)
    requires s.order.Nil? && s.held == map[] && c.maxEntries >= 1
    ensures Inserted(c, s, k, entry).order == Cons(k, Nil) && Inserted(c, s, k, entry).held == map[k := entry]
  {
    assert Len(Cons(k, Nil)) == 1;
  }

  /** The other key's entry may be a fresh one: in a cache of one entry, a name whose upstream fails costs
      the name answered just before its answer. */
  lemma MarkerMayEvictFresh(e: Setup, first: Call, second: Call)
    requires e.cache.Some? && e.forwarder && ValidConfig(e.cache.value) && e.cache.value.maxEntries == 1
    requires KeyFor(first.req).Some? && KeyFor(second.req).Some? && KeyFor(first.req) != KeyFor(second.req)
    requires Good(first.up) && Offered(e.cache.value, first.up.value, first.t1).Some? && second.up.None?
    requires second.t0 - first.t1 < Offered(e.cache.value, first.up.value, first.t1).value.ttl
    ensures var c, k, h := e.cache.value, KeyFor(first.req).value, Run(e, [first]);
      && Looked(c, h.s, k, second.t0).1 == Fresh
      && k !in Run(e, [first, second]).s.held
  {
    FirstStored(e, first);
    assert [first, second][..1] == [first];
    MarkerDisplaces(e, [first], Run(e, [first]), second);
  }

  /** Two such calls. */
  lemma MarkerEvictsFresh() returns (e: Setup, first: Call, second: Call)
    ensures e.cache.Some? && ValidConfig(e.cache.value)
    ensures KeyFor(first.req).Some? && first.t1 <= second.t0
    ensures Looked(e.cache.value, Run(e, [first]).s, KeyFor(first.req).value, second.t0).1 == Fresh
    ensures KeyFor(first.req).value !in Run(e, [first, second]).s.held
  {
    e := Setup(Some(Completed(Config(1, 0, 0, 0, 0, 0, false, 0, 0))), true, _ => false);
    var q, r := Question(["a"], 1, INET), Question(["b"], 1, INET);
    var m := Message(0, NOERROR, false, [q], [RR(["a"], 1, 300, Address(1))], [], []);
    first := Call(Request(1, [q], false), [], Some(m), 0, 0);
    second := Call(Request(2, [r], false), [], None, 1, 1);
    AnswerKept(e.cache.value, m, 1);
    MarkerMayEvictFresh(e, first, second);
  }

  lemma AnswerKept(c: Config, m: Message, typ: nat)
    requires ValidConfig(c) && !m.truncated && m.rcode == NOERROR && |m.questions| == 1
    requires m.questions[0].qtype == typ && typ != ANY && |m.answer| == 1 && m.answer[0].typ == typ
    requires c.minTTL >= 5 * SECOND && c.maxTTL >= 5 * SECOND
    ensures forall at :: Offered(c, m, at).Some? && Offered(c, m, at).value.ttl >= 5 * SECOND
                         && Offered(c, m, at).value.kind == Positive
  {
    assert AnswersType(m.answer, typ);
  }

  lemma TtlBounded(c: Config, m: Message)
    requires Countable(c) && Cacheable(c, m).Some?
    ensures Cacheable(c, m).value.0 <= (U32 - 1) * SECOND
  {
  }
}
