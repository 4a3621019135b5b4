/** What every run of the answer cache keeps (internal/anscache/anscache.go:170-407). */
module AnswerCacheRuns {
  import opened Options
  import opened RecencyList
  import opened Messages
  import opened AnswerCache

  datatype Op =
    | Lookup(k: Key, now: int)
    | Store(k: Key, m: Message, now: int)
    | StoreFail(k: Key, now: int)
    | NoteStaleServed
    | Flush

  /** The cache and its history: when each key was last touched, counting operations, and how many
      entries were replaced and how many expired since the last flush. */
  datatype World = World(s: State<Message>, clock: nat, touched: map<Key, nat>, replaced: nat, expired: nat)

  const START: World := World(State(Nil, map[], NO_STATS), 0, map[], 0, 0)

  function AfterLookup(c: Config, w: World, k: Key, now: int): (v: World) {
    var r := Looked(c, w.s, k, now);
    var v := w.(s := r.0, clock := w.clock + 1);
    if k !in w.s.held then v
    else if r.1 == Miss then v.(expired := w.expired + 1)
    else v.(touched := w.touched[k := w.clock])
  }

  function AfterPut(c: Config, w: World, k: Key, e: Cached<Message>): (v: World) {
    World(Inserted(c, w.s, k, e), w.clock + 1, w.touched[k := w.clock],
          if k in w.s.held then w.replaced + 1 else w.replaced, w.expired)
  }

  function Next(c: Config, w: World, op: Op): (v: World) {
    match op
    case Lookup(k, now) => AfterLookup(c, w, k, now)
    case Store(k, m, now) =>
      (match Offered(c, m, now)
       case None => w
       case Some(e) => AfterPut(c, w, k, e))
    case StoreFail(k, now) => AfterPut(c, w, k, Marker(c, now))
    case NoteStaleServed => w.(s := w.s.(stats := w.s.stats.(staleServes := w.s.stats.staleServes + 1)))
    case Flush => World(State(Nil, map[], NO_STATS), w.clock, w.touched, 0, 0)
  }

  function Run(c: Config, ops: seq<Op>): (w: World) {
    if ops == [] then START else Next(c, Run(c, ops[..|ops|-1]), ops[|ops|-1])
  }

  /** Most recently touched first. */
  ghost predicate ByTouch(l: List<Key>, touched: map<Key, nat>, bound: nat) {
    l.Cons? ==> l.head in touched && touched[l.head] < bound && ByTouch(l.tail, touched, touched[l.head])
  }

  ghost predicate Balanced(s: State<Message>, replaced: nat, expired: nat) {
    Len(s.order) + replaced + s.stats.evictions + expired == s.stats.inserts
  }

  ghost predicate Kept(c: Config, w: World) {
    && WellFormed(c, w.s)
    && ByTouch(w.s.order, w.touched, w.clock)
    && Balanced(w.s, w.replaced, w.expired)
  }

  // ---- recency ----

  lemma {:induction false} TouchWithout(l: List<Key>, touched: map<Key, nat>, bound: nat, k: Key)
    requires ByTouch(l, touched, bound)
    ensures ByTouch(Without(l, k), touched, bound)
  {
    if l.Cons? {
      TouchWithout(l.tail, touched, touched[l.head], k);
      if l.head == k { TouchLater(Without(l.tail, k), touched, touched[l.head], bound); }
    }
  }

  lemma TouchLater(l: List<Key>, touched: map<Key, nat>, a: nat, b: nat)
    requires ByTouch(l, touched, a) && a <= b
    ensures ByTouch(l, touched, b)
  {
  }

  lemma {:induction false} TouchOther(l: List<Key>, touched: map<Key, nat>, bound: nat, k: Key, at: nat)
    requires ByTouch(l, touched, bound) && k !in Elements(l)
    ensures ByTouch(l, touched[k := at], bound)
  {
    if l.Cons? { TouchOther(l.tail, touched, touched[l.head], k, at); }
  }

  lemma TouchFront(l: List<Key>, touched: map<Key, nat>, clock: nat, k: Key)
    requires ByTouch(l, touched, clock)
    ensures ByTouch(Front(l, k), touched[k := clock], clock + 1)
  {
    TouchWithout(l, touched, clock, k);
    TouchOther(Without(l, k), touched, clock, k, clock);
  }

  /** The back of the list was touched before everything else. */
  lemma {:induction false} BackOldest(l: List<Key>, touched: map<Key, nat>, bound: nat, x: Key)
    requires ByTouch(l, touched, bound) && x in Elements(l)
    ensures x in touched && touched[x] < bound
    ensures Back(l) in touched && touched[Back(l)] <= touched[x]
  {
    if l.tail.Cons? {
      BackOldest(l.tail, touched, touched[l.head], if x == l.head then l.tail.head else x);
    }
  }

  // ---- every step keeps the invariant ----

  lemma DropKeeps(c: Config, s: State<Message>, touched: map<Key, nat>, clock: nat, k: Key)
    requires WellFormed(c, s) && ByTouch(s.order, touched, clock) && k in s.held
    ensures WellFormed(c, Dropped(s, k)) && ByTouch(Dropped(s, k).order, touched, clock)
    ensures Len(Dropped(s, k).order) == Len(s.order) - 1
  {
    WithoutDistinct(s.order, k);
    TouchWithout(s.order, touched, clock, k);
  }

  /** Well-formed, except perhaps one over capacity. */
  ghost predicate Loose(s: State<Message>) {
    Distinct(s.order) && Elements(s.order) == s.held.Keys && forall k :: k in s.held ==> WellTagged(s.held[k])
  }

  lemma TouchKeeps(s: State<Message>, touched: map<Key, nat>, clock: nat, k: Key, e: Cached<Message>)
    requires Loose(s) && ByTouch(s.order, touched, clock) && WellTagged(e)
    ensures Loose(Touched(s, k, e))
    ensures ByTouch(Touched(s, k, e).order, touched[k := clock], clock + 1)
    ensures Len(Touched(s, k, e).order) == if k in s.held then Len(s.order) else Len(s.order) + 1
  {
    FrontDistinct(s.order, k);
    TouchFront(s.order, touched, clock, k);
  }

  lemma LookupKeeps(c: Config, w: World, k: Key, now: int)
    requires Kept(c, w)
    ensures Kept(c, AfterLookup(c, w, k, now))
  {
    TouchLater(w.s.order, w.touched, w.clock, w.clock + 1);
    if k in w.s.held {
      var e := w.s.held[k];
      if Standing(c, e, now - e.at) == Miss {
        DropKeeps(c, w.s, w.touched, w.clock, k);
        TouchLater(Without(w.s.order, k), w.touched, w.clock, w.clock + 1);
      } else {
        TouchKeeps(w.s, w.touched, w.clock, k, if Standing(c, e, now - e.at) == Stale then e else Counted(e));
      }
    }
  }

  lemma PutKeeps(c: Config, w: World, k: Key, e: Cached<Message>)
    requires ValidConfig(c) && Kept(c, w) && WellTagged(e)
    ensures Kept(c, AfterPut(c, w, k, e))
  {
    TouchKeeps(w.s, w.touched, w.clock, k, e);
    var s := Touched(w.s, k, e);
    if Len(s.order) > c.maxEntries {
      WithoutDistinct(s.order, Back(s.order));
      TouchWithout(s.order, w.touched[k := w.clock], w.clock + 1, Back(s.order));
    }
  }

  lemma NextKeeps(c: Config, w: World, op: Op)
    requires ValidConfig(c) && Kept(c, w)
    ensures Kept(c, Next(c, w, op))
  {
    match op
    case Lookup(k, now) => LookupKeeps(c, w, k, now);
    case Store(k, m, now) =>
      var e := Offered(c, m, now);
      if e.Some? { PutKeeps(c, w, k, e.value); }
    case StoreFail(k, now) => PutKeeps(c, w, k, Marker(c, now));
    case NoteStaleServed =>
    case Flush =>
  }

  /** In every run the recency list has no key twice, holds exactly the cached keys, is ordered by last
      touch and within capacity, and entries = inserts - replacements - evictions - expiries. */
  lemma {:induction false} RunKeeps(c: Config, ops: seq<Op>)
    requires ValidConfig(c)
    ensures Kept(c, Run(c, ops))
  {
    if ops != [] {
      RunKeeps(c, ops[..|ops|-1]);
      NextKeeps(c, Run(c, ops[..|ops|-1]), ops[|ops|-1]);
    }
  }

  ghost predicate Oldest(keys: set<Key>, touched: map<Key, nat>, x: Key) {
    x in touched && forall y :: y in keys ==> y in touched && touched[x] <= touched[y]
  }

  lemma BackIsOldest(l: List<Key>, touched: map<Key, nat>, bound: nat)
    requires ByTouch(l, touched, bound) && l.Cons?
    ensures Oldest(Elements(l), touched, Back(l))
  {
    forall y | y in Elements(l) ensures y in touched && touched[Back(l)] <= touched[y] {
      BackOldest(l, touched, bound, y);
    }
  }

  /** The entries left by a put: the new one, and the old ones but the victim. */
  function Remaining(held: map<Key, Cached<Message>>, k: Key, e: Cached<Message>,
                     victims: set<Key>): (r: map<Key, Cached<Message>>) {
    (held - victims)[k := e]
  }

  /** A put stores its own entry and keeps every other one as it was, except that when the key is new
      and the cache is full it loses one: the least recently touched. */
  lemma PutEvicts(c: Config, ops: seq<Op>, k: Key, e: Cached<Message>)
    requires ValidConfig(c) && WellTagged(e)
    ensures var w := Run(c, ops); var s := AfterPut(c, w, k, e).s;
      if k !in w.s.held && Len(w.s.order) == c.maxEntries then
        exists x :: x in w.s.held && Oldest(w.s.held.Keys, w.touched, x) && s.held == Remaining(w.s.held, k, e, {x})
      else s.held == Remaining(w.s.held, k, e, {})
  {
    RunKeeps(c, ops);
    PutLoses(c, Run(c, ops), k, e);
  }

  lemma PutLoses(c: Config, w: World, k: Key, e: Cached<Message>)
    requires ValidConfig(c) && Kept(c, w) && WellTagged(e)
    ensures var s := AfterPut(c, w, k, e).s;
      if k !in w.s.held && Len(w.s.order) == c.maxEntries then
        exists x :: x in w.s.held && Oldest(w.s.held.Keys, w.touched, x) && s.held == Remaining(w.s.held, k, e, {x})
      else s.held == Remaining(w.s.held, k, e, {})
  {
    FrontDistinct(w.s.order, k);
    if k !in w.s.held && Len(w.s.order) == c.maxEntries {
      var x := Back(w.s.order);
      BackIsOld(w.s.order, k);
      BackIsOldest(w.s.order, w.touched, w.clock);
      assert w.s.held[k := e] - {x} == Remaining(w.s.held, k, e, {x});
    } else {
      assert w.s.held[k := e] == Remaining(w.s.held, k, e, {});
    }
  }

  /** The back of a list to which a new key was added in front is the old back. */
  lemma BackIsOld(l: List<Key>, k: Key)
    requires l.Cons? && k !in Elements(l)
    ensures Back(Front(l, k)) == Back(l)
  {
  }
}
