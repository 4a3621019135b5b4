/** The breaker over whole runs (internal/forwarder/breaker.go:84-215): its ring against a log of
    timestamped outcomes, its trip decision, its probing and its recovery. */
module BreakerRuns {
  import opened Options
  import opened Breaker

  datatype Outcome = Outcome(at: int, ok: bool)

  datatype Op = Ask(at: int) | Report(at: int, ok: bool)

  /** A breaker, the outcomes reported since its last recovery, and the latest clock reading. */
  datatype World = World(model: Model, log: seq<Outcome>, clock: int)

  function Begin(p: Policy, start: int): (w: World)
    requires Usable(p)
  {
    World(Fresh(p), [], start)
  }

  function Step(p: Policy, w: World, op: Op): (w': World)
    requires Usable(p) && |w.model.ring| == p.buckets
    ensures |w'.model.ring| == p.buckets
  {
    match op
    case Ask(t) => World(Allow(p, w.model, t).0, w.log, t)
    case Report(t, ok) =>
      World(Record(p, w.model, t, ok),
            if ok && !w.model.phase.Closed? then [] else w.log + [Outcome(t, ok)], t)
  }

  function Play(p: Policy, w: World, ops: seq<Op>): (w': World)
    requires Usable(p) && |w.model.ring| == p.buckets
    ensures |w'.model.ring| == p.buckets
    decreases |ops|
  {
    if ops == [] then w else Step(p, Play(p, w, ops[..|ops|-1]), ops[|ops|-1])
  }

  predicate Timely(ops: seq<Op>, start: int) {
    && (forall i :: 0 <= i < |ops| ==> start <= ops[i].at)
    && (forall i, j :: 0 <= i < j < |ops| ==> ops[i].at <= ops[j].at)
  }

  // ---- counting a log ----

  /** How many outcomes of kind `ok` fall in [lo, hi). */
  function Hits(log: seq<Outcome>, ok: bool, lo: int, hi: int): (n: nat) {
    if log == [] then 0
    else
      var last := log[|log|-1];
      Hits(log[..|log|-1], ok, lo, hi) + (if last.ok == ok && lo <= last.at < hi then 1 else 0)
  }

  /** How many outcomes of kind `ok` are at or after `cut`. */
  function HitsFrom(log: seq<Outcome>, ok: bool, cut: int): (n: nat) {
    if log == [] then 0
    else
      var last := log[|log|-1];
      HitsFrom(log[..|log|-1], ok, cut) + (if last.ok == ok && cut <= last.at then 1 else 0)
  }

  function CountFrom(log: seq<Outcome>, cut: int): (r: Tally) {
    Tally(HitsFrom(log, true, cut), HitsFrom(log, false, cut))
  }

  predicate Before(log: seq<Outcome>, t: int) {
    forall i :: 0 <= i < |log| ==> log[i].at < t
  }

  lemma {:induction false} HitsNone(log: seq<Outcome>, ok: bool, lo: int, hi: int)
    requires Before(log, lo) || hi <= lo
    ensures Hits(log, ok, lo, hi) == 0
  {
    if log != [] { HitsNone(log[..|log|-1], ok, lo, hi); }
  }

  lemma {:induction false} HitsSplit(log: seq<Outcome>, ok: bool, lo: int, mid: int, hi: int)
    requires lo <= mid <= hi
    ensures Hits(log, ok, lo, hi) == Hits(log, ok, lo, mid) + Hits(log, ok, mid, hi)
  {
    if log != [] { HitsSplit(log[..|log|-1], ok, lo, mid, hi); }
  }

  lemma {:induction false} HitsAll(log: seq<Outcome>, ok: bool, cut: int, hi: int)
    requires Before(log, hi)
    ensures Hits(log, ok, cut, hi) == HitsFrom(log, ok, cut)
  {
    if log != [] { HitsAll(log[..|log|-1], ok, cut, hi); }
  }

  /** A tally equals the counts of [lo, hi). */
  ghost predicate Tallies(c: Tally, log: seq<Outcome>, lo: int, hi: int) {
    c.ok == Hits(log, true, lo, hi) && c.fail == Hits(log, false, lo, hi)
  }

  lemma {:induction false} TalliesNone(log: seq<Outcome>, lo: int, hi: int)
    requires Before(log, lo) || hi <= lo
    ensures Tallies(ZERO, log, lo, hi)
  {
    HitsNone(log, true, lo, hi);
    HitsNone(log, false, lo, hi);
  }

  lemma {:induction false} TalliesJoin(a: Tally, b: Tally, log: seq<Outcome>, lo: int, mid: int, hi: int)
    requires lo <= mid <= hi && Tallies(a, log, mid, hi) && Tallies(b, log, lo, mid)
    ensures Tallies(Tally(a.ok + b.ok, a.fail + b.fail), log, lo, hi)
  {
    HitsSplit(log, true, lo, mid, hi);
    HitsSplit(log, false, lo, mid, hi);
  }

  lemma {:induction false} TalliesAppend(c: Tally, log: seq<Outcome>, o: Outcome, lo: int, hi: int)
    requires Tallies(c, log, lo, hi)
    ensures Tallies(if lo <= o.at < hi then Bumped(c, o.ok) else c, log + [o], lo, hi)
  {
    assert (log + [o])[..|log|] == log;
  }

  function TrailingFails(log: seq<Outcome>): (n: nat) {
    if log == [] || log[|log|-1].ok then 0 else 1 + TrailingFails(log[..|log|-1])
  }

  lemma {:induction false} TrailingAppend(log: seq<Outcome>, o: Outcome)
    ensures TrailingFails(log + [o]) == if o.ok then 0 else TrailingFails(log) + 1
  {
    assert (log + [o])[..|log|] == log;
  }

  // ---- the ring against the log ----

  /** When the k-th newest bucket started; the head started at `h`, each bucket lasts `d`. */
  function Edge(h: int, k: nat, d: int): (e: int) {
    if k == 0 then h else Edge(h, k - 1, d) - d
  }

  lemma {:induction false} EdgeShift(h: int, k: nat, d: int)
    ensures Edge(h + d, k + 1, d) == Edge(h, k, d)
  {
    if k > 0 { EdgeShift(h, k - 1, d); }
  }

  lemma {:induction false} EdgeOrder(h: int, j: nat, k: nat, d: int)
    requires 0 <= d && j <= k
    ensures Edge(h, k, d) <= Edge(h, j, d)
    decreases k
  {
    if j < k { EdgeOrder(h, j, k - 1, d); }
  }

  lemma {:induction false} EdgeIs(h: int, k: nat, d: int)
    ensures Edge(h, k, d) == h - k * d
  {
    if k > 0 { EdgeIs(h, k - 1, d); }
  }

  /** Every bucket tallies exactly the outcomes of its own stretch of time. */
  ghost predicate Matches(h: int, d: int, ring: seq<Tally>, log: seq<Outcome>) {
    forall k :: 0 <= k < |ring| ==> Tallies(ring[k], log, Edge(h, k, d), Edge(h, k, d) + d)
  }

  lemma {:induction false} ShiftMatches(h: int, d: int, ring: seq<Tally>, log: seq<Outcome>)
    requires ring != [] && Matches(h, d, ring, log) && Before(log, h + d)
    ensures Matches(h + d, d, Shift(ring), log)
  {
    forall k | 0 <= k < |ring| ensures Tallies(Shift(ring)[k], log, Edge(h + d, k, d), Edge(h + d, k, d) + d) {
      if k == 0 {
        TalliesNone(log, h + d, h + d + d);
      } else {
        EdgeShift(h, k - 1, d);
      }
    }
  }

  lemma {:induction false} RolledMatches(p: Policy, h: int, ring: seq<Tally>, log: seq<Outcome>, t: int)
    requires Rolls(p) && |ring| == p.buckets && Matches(h, Dur(p), ring, log) && Before(log, h + Dur(p))
    ensures var (h', ring') := Rolled(p, h, ring, t);
            h <= h' && Matches(h', Dur(p), ring', log)
    decreases t - h
  {
    if t - h >= Dur(p) {
      ShiftMatches(h, Dur(p), ring, log);
      RolledMatches(p, h + Dur(p), Shift(ring), log, t);
    }
  }

  lemma {:induction false} SpanFits(p: Policy)
    requires Rolls(p)
    ensures (p.buckets - 1) * Dur(p) + Dur(p) <= p.window
  {
  }

  lemma {:induction false} ClearedMatches(n: nat, d: int, t: int, log: seq<Outcome>)
    requires 1 <= n && 1 <= d && Before(log, Edge(t, n - 1, d))
    ensures Matches(t, d, Zeros(n), log)
  {
    forall k | 0 <= k < n ensures Tallies(ZERO, log, Edge(t, k, d), Edge(t, k, d) + d) {
      EdgeOrder(t, k, n - 1, d);
      TalliesNone(log, Edge(t, k, d), Edge(t, k, d) + d);
    }
  }

  ghost predicate WindowInv(p: Policy, w: World)
    requires Rolls(p)
  {
    && |w.model.ring| == p.buckets
    && Before(w.log, w.clock + 1)
    && match w.model.head
       case None => w.log == [] && w.model.ring == Zeros(p.buckets)
       case Some(h) => h <= w.clock && Before(w.log, h + Dur(p)) && Matches(h, Dur(p), w.model.ring, w.log)
  }

  lemma {:induction false} AdvanceMatches(p: Policy, w: World, t: int)
    requires Rolls(p) && WindowInv(p, w) && w.clock <= t
    ensures var m := Advance(p, w.model, t);
            && m.head.Some? && m.head.value <= t < m.head.value + Dur(p)
            && Matches(m.head.value, Dur(p), m.ring, w.log)
  {
    if w.model.head.None? {
      ClearedMatches(p.buckets, Dur(p), t, w.log);
    } else {
      var h := w.model.head.value;
      if t - h >= p.window {
        SpanFits(p);
        EdgeIs(t, p.buckets - 1, Dur(p));
        ClearedMatches(p.buckets, Dur(p), t, w.log);
      } else {
        RolledMatches(p, h, w.model.ring, w.log, t);
      }
    }
  }

  lemma {:induction false} SumMatches(h: int, d: int, ring: seq<Tally>, log: seq<Outcome>, k: nat)
    requires 1 <= d && Matches(h, d, ring, log) && k < |ring|
    ensures Tallies(Sum(ring[k..]), log, Edge(h, |ring| - 1, d), Edge(h, k, d) + d)
    decreases |ring| - k
  {
    var tail := ring[k..];
    assert tail[0] == ring[k] && tail[1..] == ring[k+1..];
    if k < |ring| - 1 {
      SumMatches(h, d, ring, log, k + 1);
      EdgeOrder(h, k, |ring| - 1, d);
      TalliesJoin(ring[k], Sum(ring[k+1..]), log, Edge(h, |ring| - 1, d), Edge(h, k, d), Edge(h, k, d) + d);
    }
  }

  lemma {:induction false} NoteMatches(h: int, d: int, ring: seq<Tally>, log: seq<Outcome>, o: Outcome)
    requires 1 <= d && ring != [] && Matches(h, d, ring, log) && h <= o.at < h + d
    ensures Matches(h, d, Note(ring, o.ok), log + [o])
  {
    forall k | 0 <= k < |ring|
      ensures Tallies(Note(ring, o.ok)[k], log + [o], Edge(h, k, d), Edge(h, k, d) + d)
    {
      TalliesAppend(ring[k], log, o, Edge(h, k, d), Edge(h, k, d) + d);
      if k > 0 { EdgeOrder(h, 1, k, d); }
    }
  }

  /** The totals of a ring whose head holds `t` count every outcome of age at most
      (Buckets - 1) * bucketDur and none of age Window or more. */
  lemma {:induction false} TotalsAt(p: Policy, h: int, ring: seq<Tally>, log: seq<Outcome>, t: int)
    requires Rolls(p) && |ring| == p.buckets && Matches(h, Dur(p), ring, log)
    requires h <= t < h + Dur(p) && Before(log, h + Dur(p))
    ensures var cut := Edge(h, p.buckets - 1, Dur(p));
            && t - p.window < cut <= t - (p.buckets - 1) * Dur(p)
            && Sum(ring) == CountFrom(log, cut)
  {
    var d := Dur(p);
    SumMatches(h, d, ring, log, 0);
    assert ring[0..] == ring;
    SpanFits(p);
    EdgeIs(h, p.buckets - 1, d);
    HitsAll(log, true, Edge(h, p.buckets - 1, d), h + d);
    HitsAll(log, false, Edge(h, p.buckets - 1, d), h + d);
  }

  // ---- the invariant over runs ----

  ghost predicate Inv(p: Policy, w: World)
    requires Rolls(p)
  {
    && WindowInv(p, w)
    && w.model.consec == TrailingFails(w.log)
    && (w.model.phase.HalfOpen? ==> 1 <= w.model.phase.probes <= p.halfOpenMax)
  }

  lemma {:induction false} ReportKeeps(p: Policy, w: World, t: int, ok: bool)
    requires Rolls(p) && Inv(p, w) && w.clock <= t
    ensures Inv(p, Step(p, w, Report(t, ok)))
  {
    if !(ok && !w.model.phase.Closed?) {
      AdvanceMatches(p, w, t);
      var m := Advance(p, w.model, t);
      NoteMatches(m.head.value, Dur(p), m.ring, w.log, Outcome(t, ok));
      TrailingAppend(w.log, Outcome(t, ok));
    }
  }

  lemma {:induction false} StepKeeps(p: Policy, w: World, op: Op)
    requires Rolls(p) && Inv(p, w) && w.clock <= op.at
    ensures Inv(p, Step(p, w, op))
  {
    match op
    case Ask(t) =>
    case Report(t, ok) => ReportKeeps(p, w, t, ok);
  }

  lemma {:induction false} PlayKeeps(p: Policy, start: int, ops: seq<Op>)
    requires Rolls(p) && Timely(ops, start)
    ensures Inv(p, Play(p, Begin(p, start), ops))
    ensures Play(p, Begin(p, start), ops).clock == if ops == [] then start else ops[|ops|-1].at
    decreases |ops|
  {
    if ops != [] {
      PlayKeeps(p, start, ops[..|ops|-1]);
      StepKeeps(p, Play(p, Begin(p, start), ops[..|ops|-1]), ops[|ops|-1]);
    }
  }

  // ---- what every run guarantees ----

  /** When the oldest bucket of the ring began, once it is advanced to `t`. */
  function Cut(p: Policy, m: Model, t: int): (cut: int)
    requires Rolls(p) && |m.ring| == p.buckets
  {
    Edge(Advance(p, m, t).head.value, p.buckets - 1, Dur(p))
  }

  /** After any run, advancing to `t` leaves totals that count exactly the outcomes since the last
      recovery and since the oldest bucket began, between (Buckets - 1) * bucketDur and Window ago. */
  lemma {:induction false} WindowCounts(p: Policy, start: int, ops: seq<Op>, t: int)
    requires Rolls(p) && Timely(ops + [Ask(t)], start)
    ensures var w := Play(p, Begin(p, start), ops);
            var cut := Cut(p, w.model, t);
            && t - p.window < cut <= t - (p.buckets - 1) * Dur(p)
            && Sum(Advance(p, w.model, t).ring) == CountFrom(w.log, cut)
  {
    var w := Play(p, Begin(p, start), ops);
    assert forall i :: 0 <= i < |ops| ==> (ops + [Ask(t)])[i] == ops[i];
    assert (ops + [Ask(t)])[|ops|] == Ask(t);
    PlayKeeps(p, start, ops);
    AdvanceMatches(p, w, t);
    var m := Advance(p, w.model, t);
    TotalsAt(p, m.head.value, m.ring, w.log, t);
  }

  lemma {:induction false} TripAt(p: Policy, w: World, t: int)
    requires Rolls(p) && WindowInv(p, w) && w.model.consec == TrailingFails(w.log)
    requires w.clock <= t && w.model.phase.Closed?
    ensures var log := w.log + [Outcome(t, false)];
            var cut := Cut(p, w.model, t);
            && t - p.window < cut <= t - (p.buckets - 1) * Dur(p)
            && (Record(p, w.model, t, false).phase == Open(t) <==>
                ShouldTrip(p, TrailingFails(log), CountFrom(log, cut)))
  {
    var o := Outcome(t, false);
    AdvanceMatches(p, w, t);
    var m := Advance(p, w.model, t);
    NoteMatches(m.head.value, Dur(p), m.ring, w.log, o);
    TrailingAppend(w.log, o);
    TotalsAt(p, m.head.value, Note(m.ring, false), w.log + [o], t);
  }

  /** A closed breaker opens on a failure exactly when the failures since the last success reach
      ConsecFail, or the outcomes since the oldest bucket began reach MinSamples at a failure ratio of
      at least FailRatio. */
  lemma {:induction false} TripDecision(p: Policy, start: int, ops: seq<Op>, t: int)
    requires Rolls(p) && Timely(ops + [Report(t, false)], start)
    requires Play(p, Begin(p, start), ops).model.phase.Closed?
    ensures var w := Play(p, Begin(p, start), ops);
            var log := w.log + [Outcome(t, false)];
            var cut := Cut(p, w.model, t);
            && t - p.window < cut <= t - (p.buckets - 1) * Dur(p)
            && (Record(p, w.model, t, false).phase == Open(t) <==>
                ShouldTrip(p, TrailingFails(log), CountFrom(log, cut)))
  {
    assert forall i :: 0 <= i < |ops| ==> (ops + [Report(t, false)])[i] == ops[i];
    assert (ops + [Report(t, false)])[|ops|] == Report(t, false);
    PlayKeeps(p, start, ops);
    TripAt(p, Play(p, Begin(p, start), ops), t);
  }

  // ---- a window that is not positive ----

  ghost predicate ClearInv(p: Policy, w: World) {
    w.model.consec == TrailingFails(w.log) && (w.model.head.None? ==> w.model.ring == Zeros(|w.model.ring|))
  }

  lemma {:induction false} ClearStep(p: Policy, w: World, op: Op)
    requires Usable(p) && p.window <= 0 && |w.model.ring| == p.buckets && ClearInv(p, w)
    ensures ClearInv(p, Step(p, w, op))
  {
    if op.Report? { TrailingAppend(w.log, Outcome(op.at, op.ok)); }
  }

  lemma {:induction false} ClearKeeps(p: Policy, start: int, ops: seq<Op>)
    requires Usable(p) && p.window <= 0
    ensures ClearInv(p, Play(p, Begin(p, start), ops))
    decreases |ops|
  {
    if ops != [] {
      ClearKeeps(p, start, ops[..|ops|-1]);
      ClearStep(p, Play(p, Begin(p, start), ops[..|ops|-1]), ops[|ops|-1]);
    }
  }

  lemma {:induction false} ClearTrip(p: Policy, w: World, t: int)
    requires Usable(p) && p.window <= 0 && |w.model.ring| == p.buckets && ClearInv(p, w) && w.model.phase.Closed?
    ensures Record(p, w.model, t, false).phase == Open(t) <==>
            ShouldTrip(p, TrailingFails(w.log + [Outcome(t, false)]), Tally(0, 1))
  {
    TrailingAppend(w.log, Outcome(t, false));
    OneNoted(p.buckets);
  }

  lemma {:induction false} OneNoted(n: nat)
    requires n > 0
    ensures Sum(Note(Zeros(n), false)) == Tally(0, 1)
  {
    assert Note(Zeros(n), false)[1..] == Zeros(n - 1);
    SumZeros(n - 1);
  }

  /** Then every advance clears the ring, and a closed breaker opens on a failure exactly when the
      failure streak says so or a single failure would. */
  lemma {:induction false} NoWindow(p: Policy, start: int, ops: seq<Op>, t: int)
    requires Usable(p) && p.window <= 0
    ensures var w := Play(p, Begin(p, start), ops);
            && Advance(p, w.model, t).ring == Zeros(p.buckets)
            && (w.model.phase.Closed? ==>
                  (Record(p, w.model, t, false).phase == Open(t) <==>
                   ShouldTrip(p, TrailingFails(w.log + [Outcome(t, false)]), Tally(0, 1))))
  {
    ClearKeeps(p, start, ops);
    var w := Play(p, Begin(p, start), ops);
    if w.model.phase.Closed? { ClearTrip(p, w, t); }
  }

  lemma {:induction false} SumZeros(n: nat)
    ensures Sum(Zeros(n)) == ZERO
  {
    if n > 0 {
      assert Zeros(n)[1..] == Zeros(n - 1);
      SumZeros(n - 1);
    }
  }

  /** The verdicts a run hands out. */
  function Verdicts(p: Policy, m: Model, ops: seq<Op>): (v: seq<bool>)
    requires Usable(p) && |m.ring| == p.buckets
    decreases |ops|
  {
    if ops == [] then []
    else match ops[0]
      case Ask(t) => var (m', ok) := Allow(p, m, t); [ok] + Verdicts(p, m', ops[1..])
      case Report(t, ok) => Verdicts(p, Record(p, m, t, ok), ops[1..])
  }

  /** The breaker after a run. */
  function After(p: Policy, m: Model, ops: seq<Op>): (m': Model)
    requires Usable(p) && |m.ring| == p.buckets
    ensures |m'.ring| == p.buckets
    decreases |ops|
  {
    if ops == [] then m
    else match ops[0]
      case Ask(t) => After(p, Allow(p, m, t).0, ops[1..])
      case Report(t, ok) => After(p, Record(p, m, t, ok), ops[1..])
  }

  lemma {:induction false} VerdictsJoin(p: Policy, m: Model, a: seq<Op>, b: seq<Op>)
    requires Usable(p) && |m.ring| == p.buckets
    ensures Verdicts(p, m, a + b) == Verdicts(p, m, a) + Verdicts(p, After(p, m, a), b)
    decreases |a|
  {
    if a == [] {
      assert a + b == b;
    } else {
      assert (a + b)[1..] == a[1..] + b;
      match a[0]
      case Ask(t) => VerdictsJoin(p, Allow(p, m, t).0, a[1..], b);
      case Report(t, ok) => VerdictsJoin(p, Record(p, m, t, ok), a[1..], b);
    }
  }

  /** A recovered breaker is a fresh breaker: in every run, what is admitted after a success that ends an
      open or half-open phase is what a new breaker would admit, whatever happened before. */
  lemma {:induction false} RecoveryIsFresh(p: Policy, before: seq<Op>, t: int, later: seq<Op>)
    requires Usable(p) && !After(p, Fresh(p), before).phase.Closed?
    ensures Verdicts(p, Fresh(p), before + ([Report(t, true)] + later))
      == Verdicts(p, Fresh(p), before) + Verdicts(p, Fresh(p), later)
  {
    VerdictsJoin(p, Fresh(p), before, [Report(t, true)] + later);
    assert ([Report(t, true)] + later)[1..] == later;
  }

  function Admitted(v: seq<bool>): (n: nat) {
    if v == [] then 0 else (if v[0] then 1 else 0) + Admitted(v[1..])
  }

  /** Early calls to an open breaker, with no success reported meanwhile. */
  predicate Quiet(p: Policy, since: int, ops: seq<Op>) {
    forall i :: 0 <= i < |ops| ==>
      (ops[i].Ask? ==> ops[i].at - since < p.cooldown) && (ops[i].Report? ==> !ops[i].ok)
  }

  /** An open breaker admits nothing before its cooldown has passed, whatever fails meanwhile, and
      admits the first request at or after it. */
  lemma {:induction false} OpenHolds(p: Policy, m: Model, ops: seq<Op>, t: int)
    requires Usable(p) && |m.ring| == p.buckets && m.phase.Open? && Quiet(p, m.phase.since, ops)
    requires t - m.phase.since >= p.cooldown
    ensures Admitted(Verdicts(p, m, ops)) == 0
    ensures var v := Verdicts(p, m, ops + [Ask(t)]);
            v == Verdicts(p, m, ops) + [true]
    decreases |ops|
  {
    if ops == [] {
      assert ops + [Ask(t)] == [Ask(t)];
    } else {
      var m' := if ops[0].Ask? then Allow(p, m, ops[0].at).0 else Record(p, m, ops[0].at, ops[0].ok);
      assert (ops + [Ask(t)])[1..] == ops[1..] + [Ask(t)] && (ops + [Ask(t)])[0] == ops[0];
      OpenHolds(p, m', ops[1..], t);
    }
  }

  /** Between entering half-open and the next reported outcome, the requests admitted are exactly
      the first HalfOpenMax that ask, counting those already admitted. */
  lemma {:induction false} ProbesBounded(p: Policy, m: Model, ops: seq<Op>)
    requires Usable(p) && |m.ring| == p.buckets
    requires m.phase.HalfOpen? && m.phase.probes <= p.halfOpenMax
    requires forall i :: 0 <= i < |ops| ==> ops[i].Ask?
    ensures m.phase.probes + Admitted(Verdicts(p, m, ops)) ==
            if m.phase.probes + |ops| <= p.halfOpenMax then m.phase.probes + |ops| else p.halfOpenMax
    decreases |ops|
  {
    if ops != [] { ProbesBounded(p, Allow(p, m, ops[0].at).0, ops[1..]); }
  }

  /** The rolling loop reaches its end, for an elapsed time within the window, exactly when the
      window is at least as many time units long as it has buckets. */
  lemma {:induction false} RollEnds(window: int, buckets: int, elapsed: int)
    requires 1 <= buckets && 0 <= elapsed < window
    ensures (exists n: nat {:trigger n * (window / buckets)} :: elapsed - n * (window / buckets) < window / buckets)
            <==> window >= buckets
  {
    var d := window / buckets;
    if window >= buckets {
      DivBounds(window, buckets);
      assert elapsed * d >= elapsed;
      assert elapsed - elapsed * d < d;
    } else {
      assert d == 0;
      forall n: nat ensures !(elapsed - n * d < d) {
        assert n * d == 0;
      }
    }
  }
}
