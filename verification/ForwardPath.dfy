/** The forward path with the answer cache and its common egress (internal/server/server.go:262-368). */
module ForwardPath {
  import opened Options
  import opened Names
  import opened RecencyList
  import opened Messages
  import opened AnswerCache

  /** A client query; dnssec is the DO bit of its OPT record, if any. */
  datatype Request = Request(id: nat, questions: seq<Question>, dnssec: bool)

  datatype Reply = Served(m: Message) | Refused(rcode: nat)

  /** What the server runs with: the cache configuration when it has a cache, whether it has a forwarder,
      and which addresses may not be forwarded. */
  datatype Setup = Setup(cache: Option<Config>, forwarder: bool, blocked: nat -> bool)

  function KeyFor(req: Request): (k: Option<Key>) {
    if |req.questions| != 1 then None
    else
      var q := req.questions[0];
      if q.qtype == ANY || q.qclass != INET then None else Some(Key(q.name, q.qtype, q.qclass, req.dnssec))
  }

  predicate CacheableRcode(rcode: nat) {
    rcode == NOERROR || rcode == NXDOMAIN
  }

  // ---- egress ----

  predicate UnderAllow(name: Name, allow: seq<Name>) {
    exists i :: 0 <= i < |allow| && Under(name, allow[i])
  }

  predicate Blocked(rr: RR, blocked: nat -> bool) {
    rr.data.Address? && blocked(rr.data.bits)
  }

  function Unblocked(rrs: seq<RR>, blocked: nat -> bool): (r: seq<RR>) {
    if rrs == [] then []
    else
      var n := |rrs| - 1;
      var kept := Unblocked(rrs[..n], blocked);
      if Blocked(rrs[n], blocked) then kept else kept + [rrs[n]]
  }

  /** The filter drops exactly the blocked addresses. */
  lemma {:induction false} UnblockedIs(rrs: seq<RR>, blocked: nat -> bool)
    ensures forall rr :: rr in Unblocked(rrs, blocked) <==> rr in rrs && !Blocked(rr, blocked)
  {
    if rrs != [] {
      var n := |rrs| - 1;
      UnblockedIs(rrs[..n], blocked);
      assert rrs == rrs[..n] + [rrs[n]];
    }
  }

  /** applyRebindFilter. */
  function Screened(m: Message, allow: seq<Name>, blocked: nat -> bool): (r: Message) {
    if |m.questions| > 0 && UnderAllow(m.questions[0].name, allow) then m
    else m.(answer := Unblocked(m.answer, blocked))
  }

  /** serveForwarded: the request's id, and the filter of the current snapshot. */
  function Egress(m: Message, req: Request, allow: seq<Name>, blocked: nat -> bool): (r: Message) {
    Screened(m.(id := req.id), allow, blocked)
  }

  // ---- one call of forwardCached ----

  function Noted<M>(s: State<M>): (r: State<M>) {
    s.(stats := s.stats.(staleServes := s.stats.staleServes + 1))
  }

  /** An upstream reply that is a real answer. */
  predicate Good(up: Option<Message>) {
    up.Some? && CacheableRcode(up.value.rcode)
  }

  /** The call without a cache key. */
  function Plain(e: Setup, req: Request, allow: seq<Name>, up: Option<Message>): (r: Reply) {
    if e.forwarder && Good(up) then Served(Egress(up.value, req, allow, e.blocked)) else Refused(SERVFAIL)
  }

  /** The cache once the upstream was asked, with or without a stale answer at hand. */
  function Refreshed(c: Config, s: State<Message>, k: Key, stale: bool, up: Option<Message>,
                     t1: int): (r: State<Message>) {
    if Good(up) then Stored(c, s, k, up.value, t1)
    else if stale then Noted(s)
    else StoredFail(c, s, k, t1)
  }

  /** What the client is sent once the upstream was asked. */
  function Fallback(stale: Option<Message>, up: Option<Message>, e: Setup, req: Request, allow: seq<Name>): (r: Reply) {
    if Good(up) then Served(Egress(up.value, req, allow, e.blocked))
    else if stale.Some? then Served(Egress(stale.value, req, allow, e.blocked))
    else Refused(SERVFAIL)
  }

  /** The message a lookup returns. */
  function Found(c: Config, s: State<Message>, k: Key, t0: int): (m: Option<Message>) {
    var r := Looked(c, s, k, t0).1;
    if k in s.held && s.held[k].body.Some? && (r == Fresh || r == Stale) then
      Some(Returned(c, r, s.held[k].body.value, t0 - s.held[k].at))
    else None
  }

  /** The state after a call that looks up k at t0 and finishes at t1, with the upstream replying up. */
  function StateAfter(c: Config, s: State<Message>, k: Key, up: Option<Message>, t0: int,
                      t1: int): (r: State<Message>) {
    var l := Looked(c, s, k, t0);
    if l.1 == Fresh || l.1 == FailHit then l.0 else Refreshed(c, l.0, k, l.1 == Stale, up, t1)
  }

  /** What the client is sent. */
  function ReplyTo(c: Config, s: State<Message>, k: Key, up: Option<Message>, t0: int, e: Setup, req: Request,
                   allow: seq<Name>): (r: Reply) {
    var r := Looked(c, s, k, t0).1;
    var found := Found(c, s, k, t0);
    if r == FailHit then Refused(SERVFAIL)
    else if r == Fresh && found.Some? then Served(Egress(found.value, req, allow, e.blocked))
    else Fallback(found, up, e, req, allow)
  }

  /** forwardCached as one step. */
  function Forwarded(e: Setup, s: State<Message>, req: Request, allow: seq<Name>, up: Option<Message>, t0: int,
                     t1: int): (r: (State<Message>, Reply)) {
    if !e.forwarder then (s, Refused(SERVFAIL))
    else if e.cache.None? || KeyFor(req).None? then (s, Plain(e, req, allow, up))
    else
      var (c, k) := (e.cache.value, KeyFor(req).value);
      (StateAfter(c, s, k, up, t0, t1), ReplyTo(c, s, k, up, t0, e, req, allow))
  }

  // ---- the code ----

  ghost function Bodies(s: State<Msg>): (r: set<Msg>) {
    set k | k in s.held && s.held[k].body.Some? :: s.held[k].body.value
  }

  ghost function ValuedEntry(e: Cached<Msg>): (r: Cached<Message>)
    reads if e.body.Some? then {e.body.value} else {}
  {
    Cached(if e.body.Some? then Some(e.body.value.Value()) else None, e.at, e.ttl, e.kind, e.hits)
  }

  /** The recency list with the messages read. */
  ghost function Valued(s: State<Msg>): (r: State<Message>)
    reads Bodies(s)
  {
    State(s.order, map k | k in s.held :: ValuedEntry(s.held[k]), s.stats)
  }

  lemma ValuedLooked(c: Config, s: State<Msg>, k: Key, now: int)
    ensures Valued(Looked(c, s, k, now).0) == Looked(c, Valued(s), k, now).0
    ensures Looked(c, s, k, now).1 == Looked(c, Valued(s), k, now).1
    ensures Bodies(Looked(c, s, k, now).0) <= Bodies(s)
  {
    if k in s.held {
      var e := s.held[k];
      match Standing(c, e, now - e.at)
      case Miss => ValuedDropped(s, k);
      case Stale => ValuedTouched(s, k, e);
      case _ => ValuedTouched(s, k, Counted(e));
    }
  }

  lemma ValuedTouched(s: State<Msg>, k: Key, e: Cached<Msg>)
    ensures Valued(Touched(s, k, e)) == Touched(Valued(s), k, ValuedEntry(e))
    ensures Bodies(Touched(s, k, e)) <= Bodies(s) + (if e.body.Some? then {e.body.value} else {})
  {
    assert Valued(Touched(s, k, e)).held == Valued(s).held[k := ValuedEntry(e)];
  }

  lemma ValuedDropped(s: State<Msg>, k: Key)
    ensures Valued(Dropped(s, k)) == Dropped(Valued(s), k)
    ensures Bodies(Dropped(s, k)) <= Bodies(s)
  {
    assert Valued(Dropped(s, k)).held == Valued(s).held - {k};
  }

  lemma ValuedInserted(c: Config, s: State<Msg>, k: Key, e: Cached<Msg>)
    ensures Valued(Inserted(c, s, k, e)) == Inserted(c, Valued(s), k, ValuedEntry(e))
    ensures Bodies(Inserted(c, s, k, e)) <= Bodies(s) + (if e.body.Some? then {e.body.value} else {})
  {
    ValuedTouched(s, k, e);
    var t := Touched(s, k, e).(stats := s.stats.(inserts := s.stats.inserts + 1));
    if t.order.Cons? { ValuedDropped(t, Back(t.order)); }
  }

  /** The message is what Lookup makes of the one held for the key. */
  ghost predicate Finds(msg: Msg, c: Config, r: Result, s: State<Message>, k: Key, t0: int)
    reads msg
  {
    && k in s.held && s.held[k].body.Some?
    && msg.Value() == Returned(c, r, s.held[k].body.value, t0 - s.held[k].at)
  }

  lemma ServesIs(msg: Msg, c: Config, r: Result, s: State<Msg>, k: Key, t0: int)
    requires k in s.held && Serves(msg, c, r, s.held[k], t0)
    ensures Finds(msg, c, r, Valued(s), k, t0)
  {
  }

  twostate lemma Unaltered(s: State<Msg>)
    requires forall b :: b in Bodies(s) ==> b.Value() == old(b.Value())
    ensures Valued(s) == old(Valued(s))
  {
    assert forall k :: k in s.held ==> ValuedEntry(s.held[k]) == old(ValuedEntry(s.held[k]));
  }

  ghost function Read(m: Msg?): (r: Option<Message>)
    reads m
  {
    if m == null then None else Some(m.Value())
  }

  ghost function Sent(m: Msg?): (r: Reply)
    reads m
  {
    if m == null then Refused(SERVFAIL) else Served(m.Value())
  }

  class Server {
    const setup: Setup
    const cache: Cache?

    ghost predicate Valid()
      reads this, cache
    {
      && (cache == null <==> setup.cache.None?)
      && (cache != null ==> cache.Valid() && setup.cache == Some(cache.cfg))
    }

    /** The cached entries, by value. */
    ghost function Cached(): (s: State<Message>)
      requires cache != null && cache.Valid()
      reads cache, Bodies(cache.Contents())
    {
      Valued(cache.Contents())
    }

    /** The message is not one the cache stores. */
    ghost predicate Outside(m: Msg)
      requires cache != null && cache.Valid()
      reads cache
    {
      m !in Bodies(cache.Contents())
    }

    constructor (e: Setup, cache: Cache?)
      requires cache == null <==> e.cache.None?
      requires cache != null ==> cache.Valid() && e.cache == Some(cache.cfg)
      ensures Valid() && setup == e && this.cache == cache
    {
      setup, this.cache := e, cache;
    }

    /** applyRebindFilter, in place. */
    method ApplyRebindFilter(resp: Msg, allow: seq<Name>)
      modifies resp
      ensures resp.Value() == Screened(old(resp.Value()), allow, setup.blocked)
    {
      if |resp.questions| > 0 {
        var under := IsUnderAllow(resp.questions[0].name, allow);
        if under { return; }
      }
      var kept: seq<RR> := [];
      for i := 0 to |resp.answer|
        invariant resp.Value() == old(resp.Value())
        invariant kept == Unblocked(resp.answer[..i], setup.blocked)
      {
        var rr := resp.answer[i];
        assert resp.answer[..i+1][..i] == resp.answer[..i];
        if !(rr.data.Address? && setup.blocked(rr.data.bits)) { kept := kept + [rr]; }
      }
      assert resp.answer[..|resp.answer|] == resp.answer;
      resp.answer := kept;
    }

    method IsUnderAllow(name: Name, allow: seq<Name>) returns (b: bool)
      ensures b == UnderAllow(name, allow)
    {
      for i := 0 to |allow|
        invariant forall j :: 0 <= j < i ==> !Under(name, allow[j])
      {
        if Under(name, allow[i]) { return true; }
      }
      return false;
    }

    /** serveForwarded, up to the EDNS framing. */
    method ServeForwarded(resp: Msg, req: Request, allow: seq<Name>)
      modifies resp
      ensures resp.Value() == Egress(old(resp.Value()), req, allow, setup.blocked)
    {
      resp.id := req.id;
      ApplyRebindFilter(resp, allow);
    }

    /** Lookup, by value. */
    method Find(k: Key, t0: int) returns (msg: Msg?, r: Result)
      requires cache != null && cache.Valid()
      modifies cache
      ensures cache.Valid() && Bodies(cache.Contents()) <= old(Bodies(cache.Contents()))
      ensures (Cached(), r) == Looked(cache.cfg, old(Cached()), k, t0)
      ensures msg == null <==> r == Miss || r == FailHit
      ensures msg == null ==> Found(cache.cfg, old(Cached()), k, t0) == None
      ensures msg != null ==> fresh(msg) && Found(cache.cfg, old(Cached()), k, t0) == Some(msg.Value())
    {
      ghost var s, v := cache.Contents(), Cached();
      msg, r := cache.Lookup(k, t0);
      ValuedLooked(cache.cfg, s, k, t0);
      assert Valued(s) == v;
      if msg != null { ServesIs(msg, cache.cfg, r, s, k, t0); }
    }

    /** Store, by value: the caller's message stays its own. */
    method Keep(k: Key, resp: Msg, t1: int)
      requires cache != null && cache.Valid() && Outside(resp)
      modifies cache
      ensures cache.Valid() && Outside(resp)
      ensures Cached() == Stored(cache.cfg, old(Cached()), k, resp.Value(), t1)
    {
      ghost var s := cache.Contents();
      ghost var copy := cache.Store(k, resp, t1);
      var c := Cacheable(cache.cfg, resp.Value());
      if c.Some? {
        ValuedInserted(cache.cfg, s, k, AnswerCache.Cached(Some(copy), t1, c.value.0, c.value.1, 0));
      }
    }

    /** StoreFail, by value. */
    method Mark(k: Key, t1: int)
      requires cache != null && cache.Valid()
      modifies cache
      ensures cache.Valid()
      ensures Cached() == StoredFail(cache.cfg, old(Cached()), k, t1)
    {
      ghost var s := cache.Contents();
      cache.StoreFail(k, t1);
      ValuedInserted(cache.cfg, s, k, Marker(cache.cfg, t1));
    }

    /** NoteStaleServed, by value. */
    method Note()
      requires cache != null && cache.Valid()
      modifies cache
      ensures cache.Valid() && Cached() == Noted(old(Cached()))
      ensures Bodies(cache.Contents()) == old(Bodies(cache.Contents()))
    {
      ghost var s := cache.Contents();
      cache.NoteStaleServed();
      Unaltered(s);
    }

    /** forwardCached; up is what the forwarder returns, if it is asked, and a null reply is SERVFAIL. */
    method ForwardCached(req: Request, allow: seq<Name>, up: Msg?, t0: int, t1: int) returns (reply: Msg?)
      requires Valid() && (cache != null && up != null ==> Outside(up))
      modifies cache, up
      ensures Valid()
      ensures cache == null ==>
        Sent(reply) == Forwarded(setup, State(Nil, map[], NO_STATS), req, allow, old(Read(up)), t0, t1).1
      ensures cache != null ==>
        (Cached(), Sent(reply)) == Forwarded(setup, old(Cached()), req, allow, old(Read(up)), t0, t1)
    {
      if !setup.forwarder { return null; }
      var key := if cache == null then None else KeyFor(req);
      if key.None? {
        reply := ForwardPlain(req, allow, up);
        if cache != null { Unaltered(cache.Contents()); }
      } else {
        reply := ForwardKeyed(key.value, req, allow, up, t0, t1);
      }
    }

    method ForwardPlain(req: Request, allow: seq<Name>, up: Msg?) returns (reply: Msg?)
      requires setup.forwarder
      modifies up
      ensures Sent(reply) == Plain(setup, req, allow, old(Read(up)))
    {
      if up != null && CacheableRcode(up.rcode) {
        ServeForwarded(up, req, allow);
        return up;
      }
      return null;
    }

    method ForwardKeyed(k: Key, req: Request, allow: seq<Name>, up: Msg?, t0: int, t1: int) returns (reply: Msg?)
      requires cache != null && cache.Valid() && (up != null ==> Outside(up))
      modifies cache, up
      ensures cache.Valid()
      ensures Cached() == StateAfter(cache.cfg, old(Cached()), k, old(Read(up)), t0, t1)
      ensures Sent(reply) == ReplyTo(cache.cfg, old(Cached()), k, old(Read(up)), t0, setup, req, allow)
    {
      var stale, r := Find(k, t0);
      if r == Fresh {
        ServeAside(stale, req, allow);
        return stale;
      }
      if r == FailHit { return null; }
      reply := Refresh(k, stale, req, allow, up, t1);
    }

    /** The part of forwardCached after the lookup. */
    method Refresh(k: Key, stale: Msg?, req: Request, allow: seq<Name>, up: Msg?, t1: int) returns (reply: Msg?)
      requires cache != null && cache.Valid() && (up != null ==> Outside(up))
      requires stale != null ==> Outside(stale) && stale != up
      modifies cache, up, stale
      ensures cache.Valid()
      ensures Cached() == Refreshed(cache.cfg, old(Cached()), k, stale != null, old(Read(up)), t1)
      ensures Sent(reply) == Fallback(old(Read(stale)), old(Read(up)), setup, req, allow)
    {
      if up != null && CacheableRcode(up.rcode) {
        Keep(k, up, t1);
        ServeAside(up, req, allow);
        return up;
      }
      if stale != null {
        Note();
        ServeAside(stale, req, allow);
        return stale;
      }
      Mark(k, t1);
      return null;
    }

    /** Serving a message the cache does not store leaves every stored one as it is. */
    method ServeAside(resp: Msg, req: Request, allow: seq<Name>)
      requires cache != null && cache.Valid() && Outside(resp)
      modifies resp
      ensures cache.Valid() && Cached() == old(Cached())
      ensures resp.Value() == Egress(old(resp.Value()), req, allow, setup.blocked)
    {
      ServeForwarded(resp, req, allow);
      Unaltered(cache.Contents());
    }
  }
}
