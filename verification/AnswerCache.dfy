/** The forward-path answer cache (internal/anscache/anscache.go).

    The specification is a list of entries, most recently touched first. The code keeps a list of
    elements, a map from key to element, and messages that are heap objects; it is proved to act on the
    list. Times and lifetimes are in nanoseconds, TTLs in seconds below 2^32. */
module AnswerCache {
  import opened Options
  import opened Names
  import opened Messages
  import opened RecencyList
  import opened Durations

  const U32: int := 0x1_0000_0000

  // ---- messages ----

  function MapTtl(rrs: seq<RR>, f: nat -> nat): (r: seq<RR>)
    ensures |r| == |rrs| && forall i :: 0 <= i < |rrs| ==> r[i] == rrs[i].(ttl := f(rrs[i].ttl))
  {
    seq(|rrs|, i requires 0 <= i < |rrs| => rrs[i].(ttl := f(rrs[i].ttl)))
  }

  function WithTtls(m: Message, f: nat -> nat): (r: Message) {
    m.(answer := MapTtl(m.answer, f), ns := MapTtl(m.ns, f), extra := MapTtl(m.extra, f))
  }

  /** Whole seconds, truncated towards zero. */
  function Seconds(d: int): (s: int) {
    if d >= 0 then d / SECOND else -(-d / SECOND)
  }

  /** decrementTTL on one record, in 32-bit arithmetic. */
  function Aged(ttl: nat, age: int): (r: nat) {
    var rem := Seconds(age) % U32;
    if ttl > (rem + 1) % U32 then (ttl - rem) % U32 else 1
  }

  /** What is left of a TTL, at least one second. */
  function Left(ttl: int, age: int): (r: int) {
    if ttl - age / SECOND > 1 then ttl - age / SECOND else 1
  }

  /** decrementTTL leaves every record max(1, ttl - whole seconds of age) exactly for ages its 32-bit
      arithmetic can count, and for those that wrap to the largest count but one. */
  lemma AgedIsLeft(age: int)
    requires age >= 0
    ensures (forall ttl: nat :: ttl < U32 ==> Aged(ttl, age) == Left(ttl, age))
      <==> age / SECOND < U32 - 1 || (age / SECOND) % U32 == U32 - 2
  {
    var secs := age / SECOND;
    var rem := secs % U32;
    if secs < U32 {
      assert rem == secs;
      if secs == U32 - 1 { assert Aged(1, age) != Left(1, age); }
    } else if rem == U32 - 1 {
      assert Aged(1, age) != Left(1, age);
    } else if rem < U32 - 2 {
      assert Aged(U32 - 1, age) != Left(U32 - 1, age);
    }
  }

  function AgedBy(age: int): (f: nat -> nat) {
    ttl => Aged(ttl, age)
  }

  function Decremented(m: Message, age: int): (r: Message) {
    WithTtls(m, AgedBy(age))
  }

  function Always(ttl: int): (f: nat -> nat) {
    _ => Seconds(ttl) % U32
  }

  /** stampTTL. */
  function Stamped(m: Message, ttl: int): (r: Message) {
    WithTtls(m, Always(ttl))
  }

  function NoOpt(rrs: seq<RR>): (r: seq<RR>) {
    if rrs == [] then [] else
      var init := NoOpt(rrs[..|rrs|-1]);
      if rrs[|rrs|-1].data.Opt? then init else init + [rrs[|rrs|-1]]
  }

  /** What Store keeps of a response: no EDNS framing, no id. */
  function Stripped(m: Message): (r: Message) {
    m.(extra := NoOpt(m.extra), id := 0)
  }

  // ---- what may be cached ----

  datatype Kind = Positive | Negative | Fail

  datatype Config = Config(maxEntries: int, minTTL: int, maxTTL: int, negMinTTL: int, negMaxTTL: int,
                           failTTL: int, serveStale: bool, staleTTL: int, staleMaxAge: int)

  predicate ValidConfig(c: Config) {
    && 1 <= c.maxEntries && 0 < c.minTTL && 0 < c.maxTTL && 0 < c.negMinTTL && 0 < c.negMaxTTL
    && 0 < c.failTTL <= 300 * SECOND && 0 < c.staleTTL && 0 < c.staleMaxAge
  }

  /** A configured value, or its default when it is unset. */
  function Or(d: int, dflt: int): (r: int) {
    if d <= 0 then dflt else d
  }

  /** New: unset fields take their defaults and a failure lives five minutes at most. */
  function Completed(c: Config): (r: Config)
    ensures ValidConfig(r)
  {
    var failTTL := Or(c.failTTL, 5 * SECOND);
    Config(Or(c.maxEntries, 10000), Or(c.minTTL, 5 * SECOND), Or(c.maxTTL, 86400 * SECOND),
           Or(c.negMinTTL, 5 * SECOND), Or(c.negMaxTTL, 3600 * SECOND),
           if failTTL > 300 * SECOND then 300 * SECOND else failTTL,
           c.serveStale, Or(c.staleTTL, 30 * SECOND), Or(c.staleMaxAge, 86400 * SECOND))
  }

  function Clamp(d: int, lo: int, hi: int): (r: int) {
    if d < lo then lo else if d > hi then hi else d
  }

  predicate AnswersType(rrs: seq<RR>, qtype: nat) {
    exists i :: 0 <= i < |rrs| && rrs[i].typ == qtype
  }

  /** minTTL: the least TTL of the section. */
  function MinTtl(rrs: seq<RR>): (t: nat)
    ensures forall i :: 0 <= i < |rrs| ==> t <= rrs[i].ttl
    ensures t == U32 - 1 || exists i :: 0 <= i < |rrs| && t == rrs[i].ttl
  {
    if rrs == [] then U32 - 1
    else
      var n := |rrs| - 1;
      var least := MinTtl(rrs[..n]);
      if rrs[n].ttl < least then rrs[n].ttl else least
  }

  method LeastTtl(rrs: seq<RR>) returns (min: nat)
    ensures min == MinTtl(rrs)
  {
    min := U32 - 1;
    for i := 0 to |rrs|
      invariant min == MinTtl(rrs[..i])
    {
      assert rrs[..i+1][..i] == rrs[..i];
      if rrs[i].ttl < min { min := rrs[i].ttl; }
    }
    assert rrs[..|rrs|] == rrs;
  }

  function SoaTtl(rr: RR): (t: nat)
    requires rr.data.Soa?
  {
    if rr.ttl < rr.data.minimum then rr.ttl else rr.data.minimum
  }

  /** findSOA: the first authority SOA whose owner is the queried name or above it. */
  function FindSoa(rrs: seq<RR>, qname: Name): (r: Option<RR>)
    ensures r.Some? ==> r.value.data.Soa?
  {
    if rrs == [] then None
    else if rrs[0].data.Soa? && (rrs[0].name == [] || Under(qname, rrs[0].name)) then Some(rrs[0])
    else FindSoa(rrs[1..], qname)
  }

  method FirstSoa(rrs: seq<RR>, qname: Name) returns (r: Option<RR>)
    ensures r == FindSoa(rrs, qname)
  {
    for i := 0 to |rrs|
      invariant FindSoa(rrs, qname) == FindSoa(rrs[i..], qname)
    {
      assert rrs[i..][1..] == rrs[i+1..];
      if rrs[i].data.Soa? && (rrs[i].name == [] || Under(qname, rrs[i].name)) { return Some(rrs[i]); }
    }
    return None;
  }

  /** cacheable: the lifetime and kind of a response that may be stored. */
  function Cacheable(c: Config, m: Message): (r: Option<(int, Kind)>) {
    if m.truncated || |m.questions| != 1 || m.questions[0].qtype == ANY then None
    else
      var q := m.questions[0];
      var soa := FindSoa(m.ns, q.name);
      if m.rcode == NOERROR && AnswersType(m.answer, q.qtype) then
        Some((Clamp(MinTtl(m.answer) * SECOND, c.minTTL, c.maxTTL), Positive))
      else if (m.rcode == NOERROR || m.rcode == NXDOMAIN) && soa.Some? then
        Some((Clamp(SoaTtl(soa.value) * SECOND, c.negMinTTL, c.negMaxTTL), Negative))
      else None
  }

  /** Within the configured bounds, when these are in order. */
  predicate Bounded(ttl: int, lo: int, hi: int) {
    lo <= hi ==> lo <= ttl <= hi
  }

  predicate InBailiwick(soa: RR, qname: Name) {
    soa.data.Soa? && (soa.name == [] || Under(qname, soa.name))
  }

  lemma {:induction false} FindSoaIs(rrs: seq<RR>, qname: Name)
    ensures FindSoa(rrs, qname).Some? <==> exists i :: 0 <= i < |rrs| && InBailiwick(rrs[i], qname)
    ensures FindSoa(rrs, qname).Some? ==>
      FindSoa(rrs, qname).value in rrs && InBailiwick(FindSoa(rrs, qname).value, qname)
  {
    if rrs != [] {
      FindSoaIs(rrs[1..], qname);
      if InBailiwick(rrs[0], qname) {
      } else if exists i :: 0 <= i < |rrs| && InBailiwick(rrs[i], qname) {
        var i :| 0 <= i < |rrs| && InBailiwick(rrs[i], qname);
        assert rrs[1..][i - 1] == rrs[i];
      }
    }
  }

  /** A response is kept exactly when it is whole, of one question that is not ANY, and either answers its
      type or is a negative with an SOA at or above the name. It is kept no longer than its shortest-lived
      record, or than the SOA and its MINIMUM, except up to the floor, and within the bounds. */
  lemma CacheableIs(c: Config, m: Message)
    ensures Cacheable(c, m).Some? <==>
      && !m.truncated && |m.questions| == 1 && m.questions[0].qtype != ANY
      && (|| (m.rcode == NOERROR && AnswersType(m.answer, m.questions[0].qtype))
          || ((m.rcode == NOERROR || m.rcode == NXDOMAIN)
              && exists i :: 0 <= i < |m.ns| && InBailiwick(m.ns[i], m.questions[0].name)))
    ensures Cacheable(c, m).Some? ==>
      var (ttl, kind) := Cacheable(c, m).value;
      && kind != Fail
      && (kind == Positive ==>
            && Bounded(ttl, c.minTTL, c.maxTTL)
            && forall i :: 0 <= i < |m.answer| ==> ttl <= c.minTTL || ttl <= m.answer[i].ttl * SECOND)
      && (kind == Negative ==>
            && Bounded(ttl, c.negMinTTL, c.negMaxTTL)
            && exists soa :: soa in m.ns && InBailiwick(soa, m.questions[0].name)
                 && (ttl <= c.negMinTTL || (ttl <= soa.ttl * SECOND && ttl <= soa.data.minimum * SECOND)))
  {
    if !m.truncated && |m.questions| == 1 { FindSoaIs(m.ns, m.questions[0].name); }
  }

  // ---- the cache as a recency list ----

  datatype Key = Key(name: Name, qtype: nat, qclass: nat, dnssec: bool)

  /** An entry, for messages of any representation; a failure marker has no message. */
  datatype Cached<M> = Cached(body: Option<M>, at: int, ttl: int, kind: Kind, hits: nat)

  datatype Stats = Stats(hits: nat, misses: nat, staleServes: nat, failHits: nat, inserts: nat, evictions: nat)

  const NO_STATS: Stats := Stats(0, 0, 0, 0, 0, 0)

  /** The keys, most recently touched first, what is held for each, and the counters. */
  datatype State<M> = State(order: List<Key>, held: map<Key, Cached<M>>, stats: Stats)

  datatype Result = Miss | Fresh | Stale | FailHit

  /** Only failure markers have no message. */
  predicate WellTagged<M>(e: Cached<M>) {
    e.kind == Fail <==> e.body.None?
  }

  ghost predicate WellFormed<M>(c: Config, s: State<M>) {
    && Distinct(s.order)
    && Len(s.order) <= c.maxEntries
    && Elements(s.order) == s.held.Keys
    && forall k :: k in s.held ==> WellTagged(s.held[k])
  }

  function Dropped<M>(s: State<M>, k: Key): (r: State<M>) {
    s.(order := Without(s.order, k), held := s.held - {k})
  }

  function Touched<M>(s: State<M>, k: Key, e: Cached<M>): (r: State<M>) {
    s.(order := Front(s.order, k), held := s.held[k := e])
  }

  function Missed<M>(s: State<M>): (r: State<M>) {
    s.(stats := s.stats.(misses := s.stats.misses + 1))
  }

  /** How Lookup classifies an entry at an age. */
  function Standing<M>(c: Config, e: Cached<M>, age: int): (r: Result) {
    if age < e.ttl then (if e.kind == Fail then FailHit else Fresh)
    else if e.kind != Fail && c.serveStale && age < e.ttl + c.staleMaxAge then Stale
    else Miss
  }

  function Counted<M>(e: Cached<M>): (r: Cached<M>) {
    e.(hits := e.hits + 1)
  }

  /** Lookup: the new state and the classification. */
  function Looked<M>(c: Config, s: State<M>, k: Key, now: int): (r: (State<M>, Result)) {
    if k !in s.held then (Missed(s), Miss)
    else
      var e := s.held[k];
      match Standing(c, e, now - e.at)
      case FailHit => (Touched(s, k, Counted(e)).(stats := s.stats.(failHits := s.stats.failHits + 1)), FailHit)
      case Fresh => (Touched(s, k, Counted(e)).(stats := s.stats.(hits := s.stats.hits + 1)), Fresh)
      case Stale => (Touched(s, k, e), Stale)
      case Miss => (Missed(Dropped(s, k)), Miss)
  }

  /** The least recently touched key is evicted. */
  function Ousted<M>(s: State<M>): (r: State<M>)
    requires s.order.Cons?
  {
    Dropped(s, Back(s.order)).(stats := s.stats.(evictions := s.stats.evictions + 1))
  }

  /** What put evicts once the entry is in front: the last key, when there is one too many. */
  function Trimmed<M>(c: Config, s: State<M>): (r: State<M>) {
    if Len(s.order) <= c.maxEntries || s.order.Nil? then s
    else Ousted(s)
  }

  /** put. */
  function Inserted<M>(c: Config, s: State<M>, k: Key, e: Cached<M>): (r: State<M>) {
    Trimmed(c, Touched(s, k, e).(stats := s.stats.(inserts := s.stats.inserts + 1)))
  }

  /** The message Lookup returns for an entry of a given age. */
  function Returned(c: Config, r: Result, body: Message, age: int): (m: Message) {
    if r == Fresh then Decremented(body, age) else Stamped(body, c.staleTTL)
  }

  /** What Store puts, if anything. */
  function Offered(c: Config, m: Message, now: int): (e: Option<Cached<Message>>) {
    match Cacheable(c, m)
    case None => None
    case Some((ttl, kind)) => Some(Cached(Some(Stripped(m)), now, ttl, kind, 0))
  }

  /** Store. */
  function Stored(c: Config, s: State<Message>, k: Key, m: Message, now: int): (r: State<Message>) {
    match Offered(c, m, now)
    case None => s
    case Some(e) => Inserted(c, s, k, e)
  }

  function Marker<M>(c: Config, now: int): (e: Cached<M>) {
    Cached(None, now, c.failTTL, Fail, 0)
  }

  /** StoreFail. */
  function StoredFail<M>(c: Config, s: State<M>, k: Key, now: int): (r: State<M>) {
    Inserted(c, s, k, Marker(c, now))
  }

  // ---- the code ----

  /** The TTL-rewriting loops of decrementTTL and stampTTL, on a copy. */
  method Retimed(m: Msg, f: nat -> nat) returns (c: Msg)
    ensures fresh(c) && c.Value() == WithTtls(m.Value(), f)
  {
    c := m.Copy();
    c.answer := Rewrite(c.answer, f);
    c.ns := Rewrite(c.ns, f);
    c.extra := Rewrite(c.extra, f);
  }

  method DecrementTtl(m: Msg, age: int) returns (c: Msg)
    ensures fresh(c) && c.Value() == Decremented(m.Value(), age)
  {
    c := Retimed(m, AgedBy(age));
  }

  method StampTtl(m: Msg, ttl: int) returns (c: Msg)
    ensures fresh(c) && c.Value() == Stamped(m.Value(), ttl)
  {
    c := Retimed(m, Always(ttl));
  }

  method Rewrite(rrs: seq<RR>, f: nat -> nat) returns (r: seq<RR>)
    ensures r == MapTtl(rrs, f)
  {
    r := rrs;
    for i := 0 to |rrs|
      invariant |r| == |rrs|
      invariant forall j :: 0 <= j < i ==> r[j] == rrs[j].(ttl := f(rrs[j].ttl))
      invariant forall j :: i <= j < |rrs| ==> r[j] == rrs[j]
    {
      r := r[i := r[i].(ttl := f(r[i].ttl))];
    }
  }

  /** stripOPT, in place. */
  method StripOpt(m: Msg)
    modifies m
    ensures m.Value() == old(m.Value()).(extra := NoOpt(old(m.extra)))
  {
    var kept: seq<RR> := [];
    for i := 0 to |m.extra|
      invariant m.Value() == old(m.Value())
      invariant kept == NoOpt(m.extra[..i])
    {
      assert m.extra[..i+1][..i] == m.extra[..i] && m.extra[..i+1][i] == m.extra[i];
      if !m.extra[i].data.Opt? { kept := kept + [m.extra[i]]; }
    }
    assert m.extra[..|m.extra|] == m.extra;
    m.extra := kept;
  }

  /** A list element; what it holds is in the element table. */
  type Id = nat

  datatype Entry<M> = Entry(key: Key, value: Cached<M>)

  /** The recency list of elements, what they hold, and the map from key to element. */
  datatype Links<M> = Links(ll: List<Id>, elems: map<Id, Entry<M>>, m: map<Key, Id>)

  /** The list and the map hold the same elements, each once, each under its own key. */
  ghost predicate Agree<M>(l: Links<M>) {
    && Distinct(l.ll)
    && Elements(l.ll) == l.elems.Keys
    && (forall el :: el in l.elems ==> l.elems[el].key in l.m && l.m[l.elems[el].key] == el)
    && (forall k :: k in l.m ==> l.m[k] in l.elems && l.elems[l.m[k]].key == k)
  }

  /** The keys in list order. */
  function Order<M>(ll: List<Id>, elems: map<Id, Entry<M>>): (r: List<Key>)
    requires Elements(ll) <= elems.Keys
    ensures Len(r) == Len(ll)
  {
    if ll.Nil? then Nil else Cons(elems[ll.head].key, Order(ll.tail, elems))
  }

  ghost predicate OwnKey<M>(elems: map<Id, Entry<M>>, el: Id) {
    el in elems && forall x :: x in elems && elems[x].key == elems[el].key ==> x == el
  }

  lemma {:induction false} OrderWithout<M>(ll: List<Id>, elems: map<Id, Entry<M>>, el: Id)
    requires OwnKey(elems, el) && Elements(ll) <= elems.Keys
    ensures Order(Without(ll, el), elems) == Without(Order(ll, elems), elems[el].key)
  {
    if ll.Cons? { OrderWithout(ll.tail, elems, el); }
  }

  lemma {:induction false} OrderSame<M>(ll: List<Id>, a: map<Id, Entry<M>>, b: map<Id, Entry<M>>)
    requires Elements(ll) <= a.Keys && Elements(ll) <= b.Keys
    requires forall x :: x in Elements(ll) ==> a[x].key == b[x].key
    ensures Order(ll, a) == Order(ll, b)
  {
    if ll.Cons? { OrderSame(ll.tail, a, b); }
  }

  lemma {:induction false} OrderDistinct<M>(ll: List<Id>, elems: map<Id, Entry<M>>, m: map<Key, Id>)
    requires Distinct(ll) && Elements(ll) <= elems.Keys
    requires forall el :: el in Elements(ll) ==> elems[el].key in m && m[elems[el].key] == el
    ensures Distinct(Order(ll, elems))
    ensures forall k :: k in Elements(Order(ll, elems)) <==> k in m && m[k] in Elements(ll) && elems[m[k]].key == k
  {
    if ll.Cons? { OrderDistinct(ll.tail, elems, m); }
  }

  lemma {:induction false} OrderBack<M>(ll: List<Id>, elems: map<Id, Entry<M>>)
    requires ll.Cons? && Elements(ll) <= elems.Keys
    ensures Back(Order(ll, elems)) == elems[Back(ll)].key
  {
    if ll.tail.Cons? { OrderBack(ll.tail, elems); }
  }

  ghost function Held<M>(elems: map<Id, Entry<M>>, m: map<Key, Id>): (r: map<Key, Cached<M>>)
    requires forall k :: k in m ==> m[k] in elems
  {
    map k | k in m :: elems[m[k]].value
  }

  /** The recency list that the links stand for. */
  ghost function Abstract<M>(l: Links<M>, stats: Stats): (s: State<M>)
    requires Agree(l)
  {
    State(Order(l.ll, l.elems), Held(l.elems, l.m), stats)
  }

  function Unlinked<M>(l: Links<M>, el: Id): (r: Links<M>)
    requires el in l.elems
  {
    Links(Without(l.ll, el), l.elems - {el}, l.m - {l.elems[el].key})
  }

  function Brought<M>(l: Links<M>, el: Id, e: Entry<M>): (r: Links<M>) {
    Links(Front(l.ll, el), l.elems[el := e], l.m[e.key := el])
  }

  lemma UnlinkedAgrees<M>(l: Links<M>, el: Id)
    requires Agree(l) && el in l.elems
    ensures Agree(Unlinked(l, el))
    ensures Len(Unlinked(l, el).ll) == Len(l.ll) - 1
  {
    WithoutDistinct(l.ll, el);
  }

  /** Removing an element drops its key from the recency list. */
  lemma UnlinkedIs<M>(l: Links<M>, el: Id, stats: Stats)
    requires Agree(l) && el in l.elems
    ensures Agree(Unlinked(l, el))
    ensures Abstract(Unlinked(l, el), stats) == Dropped(Abstract(l, stats), l.elems[el].key)
  {
    UnlinkedAgrees(l, el);
    OrderWithout(l.ll, l.elems, el);
    OrderSame(Without(l.ll, el), l.elems, l.elems - {el});
    assert Held(l.elems - {el}, l.m - {l.elems[el].key}) == Held(l.elems, l.m) - {l.elems[el].key};
  }

  ghost predicate Fits<M>(l: Links<M>, el: Id, e: Entry<M>) {
    if el in l.elems then l.elems[el].key == e.key else e.key !in l.m
  }

  lemma BroughtAgrees<M>(l: Links<M>, el: Id, e: Entry<M>)
    requires Agree(l) && Fits(l, el, e)
    ensures Agree(Brought(l, el, e))
    ensures Len(Brought(l, el, e).ll) == if el in l.elems then Len(l.ll) else Len(l.ll) + 1
  {
    FrontDistinct(l.ll, el);
  }

  lemma BroughtOrder<M>(l: Links<M>, el: Id, e: Entry<M>)
    requires Agree(l) && Fits(l, el, e)
    ensures Order(Front(l.ll, el), l.elems[el := e]) == Front(Order(l.ll, l.elems), e.key)
  {
    if el in l.elems { OrderWithout(l.ll, l.elems, el); } else { OrderDistinct(l.ll, l.elems, l.m); }
    OrderSame(Without(l.ll, el), l.elems, l.elems[el := e]);
  }

  /** Putting an element in front, new or not, touches its key. */
  lemma BroughtIs<M>(l: Links<M>, el: Id, e: Entry<M>, stats: Stats)
    requires Agree(l) && Fits(l, el, e)
    ensures Agree(Brought(l, el, e))
    ensures Abstract(Brought(l, el, e), stats) == Touched(Abstract(l, stats), e.key, e.value)
  {
    BroughtAgrees(l, el, e);
    BroughtOrder(l, el, e);
    assert Held(l.elems[el := e], l.m[e.key := el]) == Held(l.elems, l.m)[e.key := e.value];
  }

  ghost predicate Tagged<M>(elems: map<Id, Entry<M>>, next: Id) {
    forall el :: el in elems ==> el < next && WellTagged(elems[el].value)
  }

  ghost predicate Sound<M>(l: Links<M>, next: Id) {
    Agree(l) && Tagged(l.elems, next)
  }

  lemma BroughtSound<M>(l: Links<M>, el: Id, e: Entry<M>, next: Id, after: Id)
    requires Sound(l, next) && Fits(l, el, e) && WellTagged(e.value)
    requires next <= after && el < after
    ensures Sound(Brought(l, el, e), after)
    ensures Len(Brought(l, el, e).ll) == if el in l.elems then Len(l.ll) else Len(l.ll) + 1
  {
    BroughtAgrees(l, el, e);
  }

  lemma UnlinkedSound<M>(l: Links<M>, el: Id, next: Id)
    requires Sound(l, next) && el in l.elems
    ensures Sound(Unlinked(l, el), next)
    ensures Len(Unlinked(l, el).ll) == Len(l.ll) - 1
  {
    UnlinkedAgrees(l, el);
  }

  /** The message is what Lookup makes of the entry's own. */
  ghost predicate Serves(msg: Msg, c: Config, r: Result, e: Cached<Msg>, now: int)
    reads msg, if e.body.Some? then {e.body.value} else {}
  {
    e.body.Some? && msg.Value() == Returned(c, r, e.body.value.Value(), now - e.at)
  }

  class Cache {
    const cfg: Config
    var ll: List<Id>               // front = most recently used
    var elems: map<Id, Entry<Msg>> // what each list element holds
    var m: map<Key, Id>
    var stats: Stats
    var next: Id                   // names the element PushFront makes

    ghost function Structure(): (l: Links<Msg>)
      reads this
    {
      Links(ll, elems, m)
    }

    ghost predicate Valid()
      reads this
    {
      ValidConfig(cfg) && Sound(Structure(), next) && Len(ll) <= cfg.maxEntries
    }

    /** The cache as its recency list. */
    ghost function Contents(): (s: State<Msg>)
      requires Sound(Structure(), next)
      reads this
    {
      Abstract(Structure(), stats)
    }

    constructor (c: Config)
      ensures Valid() && cfg == Completed(c) && Contents() == State(Nil, map[], NO_STATS)
    {
      cfg, ll, elems, m, stats, next := Completed(c), Nil, map[], map[], NO_STATS, 0;
    }

    /** removeEl. */
    method RemoveEl(el: Id)
      requires el in elems
      modifies this`ll, this`elems, this`m
      ensures Structure() == Unlinked(old(Structure()), el)
    {
      m := m - {elems[el].key};
      ll := Without(ll, el);
      elems := elems - {el};
    }

    /** The element holds e and goes to the front. */
    method Bring(el: Id, e: Entry<Msg>)
      modifies this`ll, this`elems, this`m
      ensures Structure() == Brought(old(Structure()), el, e)
    {
      m := m[e.key := el];
      ll := Front(ll, el);
      elems := elems[el := e];
    }

    method Touch(el: Id, e: Entry<Msg>)
      requires Valid() && el in elems && e.key == elems[el].key && WellTagged(e.value)
      modifies this`ll, this`elems, this`m
      ensures Valid() && Contents() == Touched(old(Contents()), e.key, e.value)
    {
      BroughtSound(Structure(), el, e, next, next);
      BroughtIs(Structure(), el, e, stats);
      Bring(el, e);
    }

    /** The entry is served once more. */
    method Hit(el: Id)
      requires Valid() && el in elems
      modifies this`ll, this`elems, this`m
      ensures Valid()
      ensures Contents() == Touched(old(Contents()), old(elems[el].key), Counted(old(elems[el].value)))
    {
      Touch(el, elems[el].(value := Counted(elems[el].value)));
    }

    /** The entry is dead. */
    method Expire(el: Id)
      requires Valid() && el in elems
      modifies this
      ensures Valid() && Contents() == Missed(Dropped(old(Contents()), old(elems[el].key)))
    {
      UnlinkedSound(Structure(), el, next);
      UnlinkedIs(Structure(), el, stats);
      RemoveEl(el);
      stats := stats.(misses := stats.misses + 1);
    }

    method Lookup(k: Key, now: int) returns (msg: Msg?, r: Result)
      requires Valid()
      modifies this
      ensures Valid()
      ensures (Contents(), r) == Looked(cfg, old(Contents()), k, now)
      ensures msg == null <==> r == Miss || r == FailHit
      ensures msg != null ==>
        fresh(msg) && k in old(Contents()).held && Serves(msg, cfg, r, old(Contents()).held[k], now)
    {
      if k !in m {
        stats := stats.(misses := stats.misses + 1);
        return null, Miss;
      }
      var e := elems[m[k]].value;
      assert Contents().held[k] == e;
      r := Classify(m[k], now);
      if r == Miss || r == FailHit { return null, r; }
      msg := Render(e, r, now);
    }

    /** The new message for an entry that is fresh or stale. */
    method Render(e: Cached<Msg>, r: Result, now: int) returns (msg: Msg)
      requires e.body.Some? && (r == Fresh || r == Stale)
      ensures fresh(msg) && Serves(msg, cfg, r, e, now)
    {
      if r == Fresh {
        msg := DecrementTtl(e.body.value, now - e.at);
      } else {
        msg := StampTtl(e.body.value, cfg.staleTTL);
      }
    }

    /** The list and counter updates of Lookup for a known element. */
    method Classify(el: Id, now: int) returns (r: Result)
      requires Valid() && el in elems
      modifies this
      ensures Valid()
      ensures (Contents(), r) == Looked(cfg, old(Contents()), old(elems[el].key), now)
      ensures r == Standing(cfg, old(elems[el].value), now - old(elems[el].value).at)
    {
      var e := elems[el].value;
      if now - e.at < e.ttl {
        Hit(el);
        if e.kind == Fail {
          stats := stats.(failHits := stats.failHits + 1);
          return FailHit;
        }
        stats := stats.(hits := stats.hits + 1);
        return Fresh;
      }
      if e.kind != Fail && cfg.serveStale && now - e.at < e.ttl + cfg.staleMaxAge {
        Touch(el, elems[el]);
        return Stale;
      }
      Expire(el);
      return Miss;
    }

    method Put(e: Entry<Msg>)
      requires Valid() && WellTagged(e.value)
      modifies this
      ensures Valid() && Contents() == Inserted(cfg, old(Contents()), e.key, e.value)
    {
      Insert(e);
      ghost var before := Contents();
      while Len(ll) > cfg.maxEntries
        invariant ValidConfig(cfg) && Sound(Structure(), next)
        invariant Len(ll) <= cfg.maxEntries || Contents() == before
        invariant Len(ll) <= cfg.maxEntries + 1
        invariant Contents() == before || (Len(before.order) > cfg.maxEntries && Contents() == Trimmed(cfg, before))
        decreases Len(ll)
      {
        Evict();
      }
    }

    /** The entry replaces its key's, or gets a new element, in front. */
    method Insert(e: Entry<Msg>)
      requires Valid() && WellTagged(e.value)
      modifies this
      ensures Sound(Structure(), next) && Len(ll) <= cfg.maxEntries + 1
      ensures Contents()
        == Touched(old(Contents()), e.key, e.value).(stats := old(stats).(inserts := old(stats).inserts + 1))
    {
      var el := if e.key in m then m[e.key] else next;
      var after := if e.key in m then next else next + 1;
      BroughtSound(Structure(), el, e, next, after);
      BroughtIs(Structure(), el, e, stats);
      Bring(el, e);
      next := after;
      stats := stats.(inserts := stats.inserts + 1);
    }

    /** The last element goes. */
    method Evict()
      requires Sound(Structure(), next) && ll.Cons?
      modifies this
      ensures Sound(Structure(), next) && Len(ll) == old(Len(ll)) - 1
      ensures old(Contents()).order.Cons? && Contents() == Ousted(old(Contents()))
    {
      OrderBack(ll, elems);
      UnlinkedSound(Structure(), Back(ll), next);
      UnlinkedIs(Structure(), Back(ll), stats);
      RemoveEl(Back(ll));
      stats := stats.(evictions := stats.evictions + 1);
    }

    /** cacheable. */
    method Judge(resp: Msg) returns (r: Option<(int, Kind)>)
      ensures r == Cacheable(cfg, resp.Value())
    {
      if resp.truncated || |resp.questions| != 1 || resp.questions[0].qtype == ANY { return None; }
      var q := resp.questions[0];
      if resp.rcode == NOERROR && AnswersType(resp.answer, q.qtype) {
        var least := LeastTtl(resp.answer);
        return Some((Clamp(least * SECOND, cfg.minTTL, cfg.maxTTL), Positive));
      }
      if resp.rcode == NOERROR || resp.rcode == NXDOMAIN {
        var soa := FirstSoa(resp.ns, q.name);
        if soa.Some? { return Some((Clamp(SoaTtl(soa.value) * SECOND, cfg.negMinTTL, cfg.negMaxTTL), Negative)); }
      }
      return None;
    }

    /** Store: what is kept is a new copy. */
    method Store(k: Key, resp: Msg, now: int) returns (ghost copy: Msg?)
      requires Valid()
      modifies this
      ensures Valid()
      ensures match Cacheable(cfg, resp.Value())
        case None => Contents() == old(Contents())
        case Some((ttl, kind)) =>
          && copy != null && fresh(copy) && copy.Value() == Stripped(resp.Value())
          && Contents() == Inserted(cfg, old(Contents()), k, Cached(Some(copy), now, ttl, kind, 0))
    {
      copy := null;
      var c := Judge(resp);
      if c.Some? {
        var msg := resp.Copy();
        StripOpt(msg);
        msg.id := 0;
        copy := msg;
        Put(Entry(k, Cached(Some(msg), now, c.value.0, c.value.1, 0)));
      }
    }

    method StoreFail(k: Key, now: int)
      requires Valid()
      modifies this
      ensures Valid() && Contents() == StoredFail(cfg, old(Contents()), k, now)
    {
      Put(Entry(k, Marker(cfg, now)));
    }

    method NoteStaleServed()
      requires Valid()
      modifies this`stats
      ensures Valid()
      ensures Contents() == var s := old(Contents()); s.(stats := s.stats.(staleServes := s.stats.staleServes + 1))
    {
      stats := stats.(staleServes := stats.staleServes + 1);
    }

    method Flush()
      requires Valid()
      modifies this
      ensures Valid() && Contents() == State(Nil, map[], NO_STATS)
    {
      ll, elems, m, stats := Nil, map[], map[], NO_STATS;
    }
  }
}
