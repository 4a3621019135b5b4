/** Handlers of the forward path that overlap (internal/server/server.go:262-316).

    A handler looks its key up and, unless that settles the matter, asks the upstream and comes back to the
    cache once. Both steps are atomic under the cache's lock; any number of handlers may be between them. */
module ForwardInterleaving {
  import opened Options
  import opened RecencyList
  import opened Messages
  import opened AnswerCache
  import opened ForwardPath
  import R = AnswerCacheRuns
  import F = ForwardRuns

  /** A handler that waits for the upstream, with or without a stale answer at hand. */
  datatype Waiter = Waiter(k: Key, stale: bool)

  datatype Event = Begin(id: nat, k: Key, at: int) | End(id: nat, up: Option<Message>, at: int)

  datatype World = World(s: State<Message>, waiting: map<nat, Waiter>)

  const START: World := World(State(Nil, map[], NO_STATS), map[])

  predicate Enabled(w: World, ev: Event) {
    ev.Begin? <==> ev.id !in w.waiting
  }

  function Step(c: Config, w: World, ev: Event): (v: World)
    requires Enabled(w, ev)
  {
    match ev
    case Begin(id, k, at) =>
      var (s, r) := Looked(c, w.s, k, at);
      World(s, if r == Miss || r == Stale then w.waiting[id := Waiter(k, r == Stale)] else w.waiting)
    case End(id, up, at) =>
      World(Refreshed(c, w.s, w.waiting[id].k, w.waiting[id].stale, up, at), w.waiting - {id})
  }

  ghost predicate Run(c: Config, ws: seq<World>, es: seq<Event>) {
    && |ws| == |es| + 1 && ws[0] == START
    && forall i {:trigger es[i]} :: 0 <= i < |es| ==> Enabled(ws[i], es[i]) && ws[i+1] == Step(c, ws[i], es[i])
  }

  /** A handler that nothing interrupts does what one call does. */
  lemma CallIsSteps(c: Config, w: World, id: nat, k: Key, up: Option<Message>, t0: int, t1: int)
    requires id !in w.waiting
    ensures var v := Step(c, w, Begin(id, k, t0));
      StateAfter(c, w.s, k, up, t0, t1) == if id in v.waiting then Step(c, v, End(id, up, t1)).s else v.s
  {
  }

  // ---- every interleaving is a cache run ----

  function OpOf(w: World, ev: Event): (op: R.Op)
    requires Enabled(w, ev)
  {
    match ev
    case Begin(_, k, at) => R.Lookup(k, at)
    case End(id, up, at) =>
      if Good(up) then R.Store(w.waiting[id].k, up.value, at)
      else if w.waiting[id].stale then R.NoteStaleServed
      else R.StoreFail(w.waiting[id].k, at)
  }

  lemma {:induction false} InterleavingIsOps(c: Config, ws: seq<World>, es: seq<Event>, n: nat) returns (ops: seq<R.Op>)
    requires Run(c, ws, es) && n < |ws|
    ensures R.Run(c, ops).s == ws[n].s
  {
    ops := [];
    if n > 0 {
      ops := InterleavingIsOps(c, ws, es, n - 1);
      var op := (assert Enabled(ws[n-1], es[n-1]); OpOf(ws[n-1], es[n-1]));
      assert (ops + [op])[..|ops|] == ops;
      ops := ops + [op];
    }
  }

  /** So everything every cache run keeps holds in every interleaving. */
  lemma InterleavingKeeps(c: Config, ws: seq<World>, es: seq<Event>, n: nat)
    requires Run(c, ws, es) && n < |ws| && ValidConfig(c)
    ensures WellFormed(c, ws[n].s)
  {
    var ops := InterleavingIsOps(c, ws, es, n);
    R.RunKeeps(c, ops);
  }

  // ---- what a failure marker may replace ----

  /** The handler that looked up at `b` comes back at `n`. */
  ghost predicate SameHandler(es: seq<Event>, b: nat, n: nat) {
    && b < n < |es| && es[b].Begin? && es[n].End? && es[n].id == es[b].id
    && forall i :: b < i < n ==> es[i].id != es[b].id
  }

  /** The event keeps the upstream's answer for the key. */
  ghost predicate Answers(c: Config, ws: seq<World>, es: seq<Event>, j: nat, k: Key)
    requires Run(c, ws, es) && j < |es|
  {
    && es[j].End? && es[j].id in ws[j].waiting && ws[j].waiting[es[j].id].k == k
    && Good(es[j].up) && Offered(c, es[j].up.value, es[j].at).Some?
  }

  /** The same entry, but for its hit counter. */
  predicate SameEntry(e: Cached<Message>, d: Cached<Message>) {
    e == d.(hits := e.hits)
  }

  /** What that event kept is held for the key from then up to the n-th event. */
  ghost predicate HeldSince(c: Config, ws: seq<World>, es: seq<Event>, j: nat, n: nat, k: Key)
    requires Run(c, ws, es) && j < n < |ws| && Answers(c, ws, es, j, k)
  {
    forall i {:trigger ws[i]} :: j < i <= n ==>
      k in ws[i].s.held && SameEntry(ws[i].s.held[k], Offered(c, es[j].up.value, es[j].at).value)
  }

  predicate UsableEntry(c: Config, e: Cached<Message>, at: int) {
    Standing(c, e, at - e.at) == Fresh || Standing(c, e, at - e.at) == Stale
  }

  /** An answer is held that a lookup would serve. */
  predicate UsableAt(c: Config, s: State<Message>, k: Key, at: int) {
    k in s.held && UsableEntry(c, s.held[k], at)
  }

  /** A step leaves a key's entry, but for its hit counter, or replaces it with what it puts. */
  lemma EntryFrom(c: Config, w: World, ev: Event, k: Key)
    requires Enabled(w, ev) && k in Step(c, w, ev).s.held && Step(c, w, ev).s.held[k].kind != Fail
    ensures var e := Step(c, w, ev).s.held[k];
      || (k in w.s.held && SameEntry(e, w.s.held[k]))
      || (ev.End? && w.waiting[ev.id].k == k && Good(ev.up) && Offered(c, ev.up.value, ev.at) == Some(e))
  {
    match ev
    case Begin(_, key, at) => F.LookedFrom(c, w.s, key, at);
    case End(id, up, at) =>
      var x := w.waiting[id];
      if Good(up) {
        if Offered(c, up.value, at).Some? { F.InsertedFrom(c, w.s, x.k, Offered(c, up.value, at).value); }
      } else if !x.stale {
        F.InsertedFrom(c, w.s, x.k, Marker(c, at));
      }
  }

  /** An answer held after a lookup that missed was kept by an event since. */
  lemma {:induction false} Origin(c: Config, ws: seq<World>, es: seq<Event>, b: nat, i: nat, k: Key) returns (j: nat)
    requires Run(c, ws, es) && b < i < |ws| && es[b].Begin? && es[b].k == k
    requires Looked(c, ws[b].s, k, es[b].at).1 == Miss && k in ws[i].s.held && ws[i].s.held[k].kind != Fail
    ensures b < j < i && Answers(c, ws, es, j, k) && HeldSince(c, ws, es, j, i, k)
  {
    assert Enabled(ws[i-1], es[i-1]);
    if i == b + 1 {
      F.LookedFrom(c, ws[b].s, k, es[b].at);
      assert false;
    } else {
      EntryFrom(c, ws[i-1], es[i-1], k);
      if k in ws[i-1].s.held && SameEntry(ws[i].s.held[k], ws[i-1].s.held[k]) {
        j := Origin(c, ws, es, b, i - 1, k);
      } else {
        j := i - 1;
      }
    }
  }

  /** What the waiting handler knows does not change while it waits. */
  lemma {:induction false} StillWaiting(c: Config, ws: seq<World>, es: seq<Event>, b: nat, i: nat)
    requires Run(c, ws, es) && b < i <= |es| && es[b].Begin? && forall j :: b < j < i ==> es[j].id != es[b].id
    requires Looked(c, ws[b].s, es[b].k, es[b].at).1 == Miss
    ensures es[b].id in ws[i].waiting && ws[i].waiting[es[b].id] == Waiter(es[b].k, false)
  {
    assert Enabled(ws[i-1], es[i-1]);
    if i > b + 1 { StillWaiting(c, ws, es, b, i - 1); }
  }

  /** Between the two, another handler of the key kept an answer, which is still held and still of use. */
  ghost predicate KeptAmid(c: Config, ws: seq<World>, es: seq<Event>, b: nat, n: nat, k: Key, j: nat)
    requires Run(c, ws, es) && b < n < |es|
  {
    && b < j < n && es[j].id != es[b].id && Answers(c, ws, es, j, k) && HeldSince(c, ws, es, j, n, k)
    && UsableEntry(c, Offered(c, es[j].up.value, es[j].at).value, es[n].at)
  }

  lemma {:induction false} UsableIff(c: Config, ws: seq<World>, es: seq<Event>, b: nat, n: nat, k: Key)
    requires Run(c, ws, es) && SameHandler(es, b, n) && es[b].k == k
    requires Looked(c, ws[b].s, k, es[b].at).1 == Miss
    ensures UsableAt(c, ws[n].s, k, es[n].at) <==> exists j :: KeptAmid(c, ws, es, b, n, k, j)
  {
    if UsableAt(c, ws[n].s, k, es[n].at) {
      var j := Origin(c, ws, es, b, n, k);
      assert SameEntry(ws[n].s.held[k], Offered(c, es[j].up.value, es[j].at).value);
      assert KeptAmid(c, ws, es, b, n, k, j);
    }
    if j: nat :| KeptAmid(c, ws, es, b, n, k, j) {
      assert SameEntry(ws[n].s.held[k], Offered(c, es[j].up.value, es[j].at).value);
    }
  }

  /** In every interleaving, a handler that missed and whose upstream fails puts its marker over a usable answer
      exactly when another handler of the same key kept one after that lookup, and it is still held and has
      not outlived its use. */
  lemma {:induction false} OverwritesIff(c: Config, ws: seq<World>, es: seq<Event>, b: nat, n: nat, k: Key)
    requires Run(c, ws, es) && SameHandler(es, b, n) && es[b].k == k && !Good(es[n].up)
    requires Looked(c, ws[b].s, k, es[b].at).1 == Miss
    ensures ws[n+1].s == StoredFail(c, ws[n].s, k, es[n].at)
    ensures UsableAt(c, ws[n].s, k, es[n].at) <==> exists j :: KeptAmid(c, ws, es, b, n, k, j)
  {
    StillWaiting(c, ws, es, b, n);
    assert Enabled(ws[n], es[n]);
    UsableIff(c, ws, es, b, n, k);
  }

  /** Two handlers of one key miss together; the first is answered, then the second's upstream fails. */
  function Overlap(k: Key, m: Message): (es: seq<Event>) {
    [Begin(0, k, 0), Begin(1, k, 0), End(0, Some(m), 1), End(1, None, 2)]
  }

  function Worlds(c: Config, k: Key, m: Message, entry: Cached<Message>): (ws: seq<World>) {
    var s1 := Missed(START.s);
    var s2 := Missed(s1);
    var s3 := Inserted(c, s2, k, entry);
    [START, World(s1, map[0 := Waiter(k, false)]), World(s2, map[0 := Waiter(k, false), 1 := Waiter(k, false)]),
     World(s3, map[1 := Waiter(k, false)]), World(StoredFail(c, s3, k, 2), map[])]
  }

  lemma OverlapRuns(c: Config, k: Key, m: Message, entry: Cached<Message>)
    requires Good(Some(m)) && Offered(c, m, 1) == Some(entry)
    ensures Run(c, Worlds(c, k, m, entry), Overlap(k, m))
  {
    var ws, es := Worlds(c, k, m, entry), Overlap(k, m);
    assert ws[1] == Step(c, ws[0], es[0]);
    assert ws[2] == Step(c, ws[1], es[1]);
    assert ws[3] == Step(c, ws[2], es[2]);
    assert ws[4].waiting == ws[3].waiting - {1};
    assert ws[4] == Step(c, ws[3], es[3]);
  }

  lemma OverlapFails(c: Config, k: Key, m: Message, entry: Cached<Message>)
    requires ValidConfig(c) && entry.at == 1 && entry.ttl > 1 && entry.kind != Fail
    ensures var ws := Worlds(c, k, m, entry);
      Looked(c, ws[3].s, k, 2).1 == Fresh && Looked(c, ws[4].s, k, 2).1 == FailHit
  {
    var ws := Worlds(c, k, m, entry);
    F.FirstInserted(c, ws[2].s, k, entry);
    assert Front(Cons(k, Nil), k) == Cons(k, Nil) && Len(Cons(k, Nil)) == 1;
    assert ws[4].s.held[k] == Marker(c, 2);
  }

  /** After that the key is refused, although a fresh answer had been kept for it. */
  lemma MarkerOverwritesFresh() returns (c: Config, k: Key, ws: seq<World>, es: seq<Event>)
    ensures ValidConfig(c) && Run(c, ws, es) && |es| == 4 && es[2].at <= es[3].at
    ensures Looked(c, ws[3].s, k, es[3].at).1 == Fresh && Looked(c, ws[4].s, k, es[3].at).1 == FailHit
  {
    c := Completed(Config(0, 0, 0, 0, 0, 0, false, 0, 0));
    var q := Question(["a"], 1, INET);
    var m := Message(0, NOERROR, false, [q], [RR(["a"], 1, 300, Address(1))], [], []);
    F.AnswerKept(c, m, 1);
    k := Key(["a"], 1, INET, false);
    var entry := Offered(c, m, 1).value;
    ws, es := Worlds(c, k, m, entry), Overlap(k, m);
    OverlapRuns(c, k, m, entry);
    OverlapFails(c, k, m, entry);
  }

  // ---- fresh hits ----

  /** For each key, the upstream message last kept for it and when. */
  ghost function LastKept(c: Config, ws: seq<World>, es: seq<Event>, n: nat): (r: map<Key, (Message, int)>)
    requires Run(c, ws, es) && n <= |es|
  {
    if n == 0 then map[]
    else
      var before := LastKept(c, ws, es, n - 1);
      assert Enabled(ws[n-1], es[n-1]);
      var k := if es[n-1].End? then ws[n-1].waiting[es[n-1].id].k else es[n-1].k;
      if Answers(c, ws, es, n - 1, k) then before[k := (es[n-1].up.value, es[n-1].at)] else before
  }

  /** The clock has not passed `now`, and upstream messages come off the wire. */
  ghost predicate Until(es: seq<Event>, n: nat, now: int)
    requires n <= |es|
  {
    forall i :: 0 <= i < n ==> es[i].at <= now && (es[i].End? && es[i].up.Some? ==> F.Wire(es[i].up.value))
  }

  lemma {:induction false} KeptTraced(c: Config, ws: seq<World>, es: seq<Event>, n: nat)
    requires Run(c, ws, es) && n <= |es|
    ensures F.Traced(c, ws[n].s.held, LastKept(c, ws, es, n))
  {
    if n > 0 {
      KeptTraced(c, ws, es, n - 1);
      var w, ev, before := ws[n-1], es[n-1], LastKept(c, ws, es, n - 1);
      assert Enabled(w, ev) && ws[n] == Step(c, w, ev);
      match ev
      case Begin(_, k, at) =>
        F.LookedFrom(c, w.s, k, at);
        F.FromTraced(c, ws[n].s, w.s, before);
      case End(id, up, at) =>
        if Good(up) {
          if Offered(c, up.value, at).Some? { F.StoredTraced(c, w.s, w.waiting[id].k, up.value, at, before); }
        } else if !w.waiting[id].stale {
          F.MarkTraced(c, w.s, w.waiting[id].k, at, before);
        }
    }
  }

  lemma {:induction false} KeptKnown(c: Config, ws: seq<World>, es: seq<Event>, n: nat, now: int)
    requires Run(c, ws, es) && n <= |es| && Until(es, n, now)
    ensures F.Known(LastKept(c, ws, es, n), now)
  {
    if n > 0 { KeptKnown(c, ws, es, n - 1, now); }
  }

  /** In every interleaving, a fresh hit returns the upstream message last kept for its key, every TTL aged by
      the whole seconds since and at least one. */
  lemma FreshAmid(c: Config, ws: seq<World>, es: seq<Event>, n: nat, k: Key, now: int, s: State<Message>,
                  kept: map<Key, (Message, int)>)
    requires Run(c, ws, es) && n <= |es| && Until(es, n, now) && F.Countable(c)
    requires s == ws[n].s && kept == LastKept(c, ws, es, n) && Looked(c, s, k, now).1 == Fresh
    ensures k in kept && kept[k].1 <= now
    ensures Found(c, s, k, now) == Some(F.Older(Stripped(kept[k].0), now - kept[k].1))
  {
    KeptTraced(c, ws, es, n);
    KeptKnown(c, ws, es, n, now);
    FreshKept(c, s, k, now, kept);
  }

  lemma FreshKept(c: Config, s: State<Message>, k: Key, now: int, kept: map<Key, (Message, int)>)
    requires F.Countable(c) && F.Traced(c, s.held, kept) && F.Known(kept, now) && Looked(c, s, k, now).1 == Fresh
    ensures k in kept && kept[k].1 <= now
    ensures Found(c, s, k, now) == Some(F.Older(Stripped(kept[k].0), now - kept[k].1))
  {
    F.FreshEntry(c, s, k, now, kept);
  }
}
