/** The per-upstream circuit breaker (internal/forwarder/breaker.go).

    `Model` is the breaker without its ring index: the window is a list of tallies, newest first,
    that shifts when time moves on. `Breaker` is the code: an array with a moving head. The methods
    are proved to act on the model, so two breakers that differ only by where the head stands in
    the array are the same breaker. */
module Breaker {
  import opened Options

  datatype Policy = Policy(
    window: int, buckets: int, minSamples: int, failRatio: real,
    consecFail: int, cooldown: int, halfOpenMax: int)

  /** newBreaker's floor on the two counts. */
  function Normal(p: Policy): (r: Policy) {
    p.(buckets := if p.buckets < 1 then 1 else p.buckets,
       halfOpenMax := if p.halfOpenMax < 1 then 1 else p.halfOpenMax)
  }

  /** A normalised policy under which the window rolls: see RollEnds for why Window >= Buckets. */
  predicate Rolls(p: Policy) {
    1 <= p.buckets <= p.window && 1 <= p.halfOpenMax
  }

  /** A normalised policy under which advancing ends: the window rolls, or every advance clears it. */
  predicate Usable(p: Policy) {
    1 <= p.buckets && 1 <= p.halfOpenMax && (p.buckets <= p.window || p.window <= 0)
  }

  function Dur(p: Policy): (d: int)
    requires Rolls(p)
    ensures 1 <= d && d * p.buckets <= p.window
  {
    assert p.window / p.buckets >= 1 && (p.window / p.buckets) * p.buckets <= p.window by {
      DivBounds(p.window, p.buckets);
    }
    p.window / p.buckets
  }

  lemma {:induction false} DivBounds(w: int, b: int)
    requires 1 <= b <= w
    ensures w / b >= 1 && (w / b) * b <= w
  {
  }

  datatype Tally = Tally(ok: nat, fail: nat)

  const ZERO: Tally := Tally(0, 0)

  function Bumped(c: Tally, ok: bool): (r: Tally) {
    if ok then Tally(c.ok + 1, c.fail) else Tally(c.ok, c.fail + 1)
  }

  function Sum(s: seq<Tally>): (r: Tally) {
    if s == [] then ZERO
    else
      var rest := Sum(s[1..]);
      Tally(s[0].ok + rest.ok, s[0].fail + rest.fail)
  }

  datatype Phase = Closed | Open(since: int) | HalfOpen(since: int, probes: nat)

  /** `ring[k]` is the tally of the k-th newest bucket; `head` is when the newest one started. */
  datatype Model = Model(phase: Phase, consec: nat, head: Option<int>, ring: seq<Tally>)

  function Zeros(n: nat): (s: seq<Tally>)
    ensures |s| == n && forall i :: 0 <= i < n ==> s[i] == ZERO
  {
    seq(n, _ => ZERO)
  }

  function Fresh(p: Policy): (m: Model)
    requires Usable(p)
  {
    Model(Closed, 0, None, Zeros(p.buckets))
  }

  function Shift(ring: seq<Tally>): (r: seq<Tally>)
    requires ring != []
    ensures |r| == |ring|
  {
    [ZERO] + ring[..|ring|-1]
  }

  /** The head moves on bucket by bucket until it holds `t`. */
  function Rolled(p: Policy, h: int, ring: seq<Tally>, t: int): (r: (int, seq<Tally>))
    requires Rolls(p) && |ring| == p.buckets
    ensures |r.1| == |ring| && t < r.0 + Dur(p) && (h <= t ==> r.0 <= t)
    decreases t - h
  {
    if t - h < Dur(p) then (h, ring) else Rolled(p, h + Dur(p), Shift(ring), t)
  }

  /** advanceLocked. */
  function Advance(p: Policy, m: Model, t: int): (m': Model)
    requires Usable(p) && |m.ring| == p.buckets
    ensures |m'.ring| == p.buckets && m'.head.Some?
  {
    if m.head.None? then m.(head := Some(t))
    else
      var elapsed := t - m.head.value;
      if p.window <= 0 || elapsed >= p.window then m.(head := Some(t), ring := Zeros(p.buckets))
      else
        var (h, ring) := Rolled(p, m.head.value, m.ring, t);
        m.(head := Some(h), ring := ring)
  }

  /** shouldTripLocked, on the streak and the window totals. */
  predicate ShouldTrip(p: Policy, consec: nat, total: Tally) {
    || (p.consecFail > 0 && consec >= p.consecFail)
    || (var n := total.ok + total.fail;
        n >= p.minSamples && n > 0 && total.fail as real / n as real >= p.failRatio)
  }

  /** allow: the breaker afterwards and the verdict. */
  function Allow(p: Policy, m: Model, now: int): (r: (Model, bool)) {
    match m.phase
    case Closed => (m, true)
    case Open(since) =>
      if now - since >= p.cooldown then (m.(phase := HalfOpen(since, 1)), true) else (m, false)
    case HalfOpen(since, probes) =>
      if probes < p.halfOpenMax then (m.(phase := HalfOpen(since, probes + 1)), true) else (m, false)
  }

  function Note(ring: seq<Tally>, ok: bool): (r: seq<Tally>)
    requires ring != []
    ensures |r| == |ring|
  {
    ring[0 := Bumped(ring[0], ok)]
  }

  /** record. */
  function Record(p: Policy, m: Model, t: int, ok: bool): (m': Model)
    requires Usable(p) && |m.ring| == p.buckets
    ensures |m'.ring| == p.buckets
  {
    var a := Advance(p, m, t);
    var noted := a.(ring := Note(a.ring, ok), consec := if ok then 0 else a.consec + 1);
    if ok then if m.phase.Closed? then noted else Model(Closed, 0, None, Zeros(p.buckets))
    else match m.phase
      case HalfOpen(_, _) => noted.(phase := Open(t))
      case Closed => if ShouldTrip(p, noted.consec, Sum(noted.ring)) then noted.(phase := Open(t)) else noted
      case Open(_) => noted
  }

  // ---- sums ----

  lemma {:induction false} SumConcat(a: seq<Tally>, b: seq<Tally>)
    ensures Sum(a + b) == Tally(Sum(a).ok + Sum(b).ok, Sum(a).fail + Sum(b).fail)
  {
    if a == [] {
      assert a + b == b;
    } else {
      var ab := a + b;
      assert ab[0] == a[0] && ab[1..] == a[1..] + b;
      SumConcat(a[1..], b);
      assert Sum(ab) == Tally(ab[0].ok + Sum(ab[1..]).ok, ab[0].fail + Sum(ab[1..]).fail);
    }
  }

  function Reversed(s: seq<Tally>): (r: seq<Tally>)
    ensures |r| == |s| && forall i :: 0 <= i < |s| ==> r[i] == s[|s| - 1 - i]
  {
    seq(|s|, i requires 0 <= i < |s| => s[|s| - 1 - i])
  }

  lemma {:induction false} SumReversed(s: seq<Tally>)
    ensures Sum(Reversed(s)) == Sum(s)
  {
    if s != [] {
      assert Reversed(s) == Reversed(s[1..]) + [s[0]];
      SumConcat(Reversed(s[1..]), [s[0]]);
      SumReversed(s[1..]);
      assert Sum([s[0]]) == s[0];
    }
  }

  // ---- the code ----

  datatype State = CLOSED | OPEN | HALF_OPEN

  /** The ring read from the head backwards. */
  function Unwound(cells: seq<Tally>, head: nat): (r: seq<Tally>)
    requires head < |cells|
    ensures |r| == |cells|
  {
    Reversed(cells[..head+1]) + Reversed(cells[head+1..])
  }

  lemma {:induction false} UnwoundSum(cells: seq<Tally>, head: nat)
    requires head < |cells|
    ensures Sum(Unwound(cells, head)) == Sum(cells)
  {
    SumConcat(Reversed(cells[..head+1]), Reversed(cells[head+1..]));
    SumReversed(cells[..head+1]);
    SumReversed(cells[head+1..]);
    SumConcat(cells[..head+1], cells[head+1..]);
    assert cells[..head+1] + cells[head+1..] == cells;
  }

  lemma {:induction false} UnwoundShift(cells: seq<Tally>, head: nat, next: nat)
    requires head < |cells| && next == (if head + 1 == |cells| then 0 else head + 1)
    ensures Unwound(cells[next := ZERO], next) == Shift(Unwound(cells, head))
  {
    var a, b := Unwound(cells[next := ZERO], next), Shift(Unwound(cells, head));
    forall i | 0 <= i < |cells| ensures a[i] == b[i] {
      if i > 0 { assert b[i] == Unwound(cells, head)[i-1]; }
    }
  }

  lemma {:induction false} WrapAround(head: nat, n: nat)
    requires head < n
    ensures (head + 1) % n == if head + 1 == n then 0 else head + 1
  {
  }

  class Breaker {
    const pol: Policy
    var state: State
    var consec: nat
    var openedAt: int
    var halfOpen: nat
    const buckets: array<Tally>
    const bucketDur: int
    var headStart: Option<int>
    var headIdx: nat

    ghost predicate Valid()
      reads this
    {
      && Usable(pol) && (Rolls(pol) ==> bucketDur == Dur(pol))
      && buckets.Length == pol.buckets && headIdx < buckets.Length
    }

    ghost function Value(): (m: Model)
      requires Valid()
      reads this, buckets
      ensures |m.ring| == pol.buckets
    {
      Model(match state
            case CLOSED => Closed
            case OPEN => Open(openedAt)
            case HALF_OPEN => HalfOpen(openedAt, halfOpen),
            consec, headStart, Unwound(buckets[..], headIdx))
    }

    constructor (p: Policy)
      requires Usable(Normal(p))
      ensures Valid() && fresh(buckets) && pol == Normal(p) && Value() == Fresh(pol)
    {
      var q := Normal(p);
      pol := q;
      state, consec, openedAt, halfOpen, headStart, headIdx := CLOSED, 0, 0, 0, None, 0;
      bucketDur := q.window / q.buckets;
      var cells := new Tally[q.buckets](_ => ZERO);
      buckets := cells;
      new;
      assert Unwound(buckets[..], 0) == Zeros(pol.buckets);
    }

    method Clear()
      requires Valid()
      modifies buckets
      ensures forall h :: 0 <= h < buckets.Length ==> Unwound(buckets[..], h) == Zeros(pol.buckets)
    {
      for i := 0 to buckets.Length
        invariant forall j :: 0 <= j < i ==> buckets[j] == ZERO
      {
        buckets[i] := ZERO;
      }
      forall h | 0 <= h < buckets.Length ensures Unwound(buckets[..], h) == Zeros(pol.buckets) {}
    }

    /** The clock has not run back behind the head: only a window that is not positive minds. */
    ghost predicate InTime(t: int)
      reads this
    {
      pol.window <= 0 && headStart.Some? ==> headStart.value <= t
    }

    method AdvanceTo(t: int)
      requires Valid() && InTime(t)
      modifies this`headStart, this`headIdx, buckets
      ensures Valid() && Value() == Advance(pol, old(Value()), t)
    {
      if headStart.None? {
        headStart := Some(t);
        return;
      }
      var elapsed := t - headStart.value;
      if elapsed >= pol.window {
        Clear();
        headStart := Some(t);
        headIdx := 0;
        return;
      }
      ghost var h0, ring0 := headStart.value, Value().ring;
      while elapsed >= bucketDur
        invariant Valid() && headStart.Some?
        invariant elapsed == t - headStart.value
        invariant Rolled(pol, headStart.value, Value().ring, t) == Rolled(pol, h0, ring0, t)
        invariant Value().phase == old(Value()).phase && consec == old(consec)
        decreases elapsed
      {
        ghost var cells := buckets[..];
        ghost var head := headIdx;
        WrapAround(headIdx, buckets.Length);
        headIdx := (headIdx + 1) % buckets.Length;
        buckets[headIdx] := ZERO;
        UnwoundShift(cells, head, headIdx);
        assert buckets[..] == cells[headIdx := ZERO];
        headStart := Some(headStart.value + bucketDur);
        elapsed := elapsed - bucketDur;
      }
    }

    method Trip(t: int)
      requires Valid()
      modifies this`state, this`openedAt, this`halfOpen
      ensures Valid() && Value() == old(Value()).(phase := Open(t))
    {
      state, openedAt, halfOpen := OPEN, t, 0;
    }

    method CloseBreaker()
      requires Valid()
      modifies this`state, this`halfOpen, this`headStart, buckets
      ensures Valid() && Value() == Model(Closed, old(consec), None, Zeros(pol.buckets))
    {
      state, halfOpen := CLOSED, 0;
      Clear();
      headStart := None;
    }

    method ShouldTripNow() returns (trip: bool)
      requires Valid()
      ensures trip == ShouldTrip(pol, consec, Sum(Value().ring))
    {
      UnwoundSum(buckets[..], headIdx);
      if pol.consecFail > 0 && consec >= pol.consecFail { return true; }
      var ok: nat, fail: nat := 0, 0;
      for i := 0 to buckets.Length
        invariant Sum(buckets[..i]) == Tally(ok, fail)
      {
        SumConcat(buckets[..i], [buckets[i]]);
        assert buckets[..i+1] == buckets[..i] + [buckets[i]] && Sum([buckets[i]]) == buckets[i];
        ok, fail := ok + buckets[i].ok, fail + buckets[i].fail;
      }
      assert buckets[..buckets.Length] == buckets[..];
      var total := ok + fail;
      trip := total >= pol.minSamples && total > 0 && fail as real / total as real >= pol.failRatio;
    }

    method Permit(now: int) returns (ok: bool)
      requires Valid()
      modifies this`state, this`halfOpen
      ensures Valid() && (Value(), ok) == Allow(pol, old(Value()), now)
    {
      match state
      case OPEN =>
        if now - openedAt >= pol.cooldown {
          state, halfOpen := HALF_OPEN, 1;
          return true;
        }
        return false;
      case HALF_OPEN =>
        if halfOpen < pol.halfOpenMax {
          halfOpen := halfOpen + 1;
          return true;
        }
        return false;
      case CLOSED =>
        return true;
    }

    method Settle(t: int, ok: bool)
      requires Valid() && InTime(t)
      modifies this, buckets
      ensures Valid() && Value() == Record(pol, old(Value()), t, ok)
    {
      AdvanceTo(t);
      Bump(ok);
      if ok {
        if state != CLOSED { CloseBreaker(); }
        return;
      }
      if state == HALF_OPEN {
        Trip(t);
      } else if state == CLOSED {
        var trip := ShouldTripNow();
        if trip { Trip(t); }
      }
    }

    /** Counts one outcome in the head bucket and in the failure streak. */
    method Bump(ok: bool)
      requires Valid()
      modifies this`consec, buckets
      ensures Valid() && Value() == old(Value()).(ring := Note(old(Value().ring), ok),
                                                  consec := if ok then 0 else old(consec) + 1)
    {
      ghost var cells := buckets[..];
      buckets[headIdx] := Bumped(buckets[headIdx], ok);
      consec := if ok then 0 else consec + 1;
      assert buckets[..] == cells[headIdx := Bumped(cells[headIdx], ok)];
      NoteUnwound(cells, headIdx, ok);
    }
  }

  lemma {:induction false} NoteUnwound(cells: seq<Tally>, head: nat, ok: bool)
    requires head < |cells|
    ensures Unwound(cells[head := Bumped(cells[head], ok)], head) == Note(Unwound(cells, head), ok)
  {
    var a := Unwound(cells[head := Bumped(cells[head], ok)], head);
    var b := Note(Unwound(cells, head), ok);
    forall i | 0 <= i < |cells| ensures a[i] == b[i] {}
  }
}
