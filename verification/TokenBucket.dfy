/** Token buckets over whole runs.

    Both rate limiters of the daemon (the on-demand solicitor and the dynamic-DNS writer)
    refill a level with elapsed time, cap it, and take one token per admitted call. This module
    states what that is worth: a trace of calls whose levels obey those two rules admits, in any
    interval, at most the burst plus what the rate accrues over the interval. */
module TokenBucket {
  import opened Sets

  /** One call: when it read the clock, the level it left behind, and its verdict. */
  datatype Call<T> = Call(at: int, level: real, admitted: bool, tag: T)

  function Cost(admitted: bool): (r: real) {
    if admitted then 1.0 else 0.0
  }

  /** Tokens accrued over `d` nanoseconds at `rate` tokens per second. */
  function Accrued(d: int, rate: real): (r: real) {
    (d as real / 1000000000.0) * rate
  }

  lemma {:induction false} AccruedAdds(d: int, e: int, rate: real)
    ensures Accrued(d + e, rate) == Accrued(d, rate) + Accrued(e, rate)
  {
    var x, y := d as real / 1000000000.0, e as real / 1000000000.0;
    assert (d + e) as real / 1000000000.0 == x + y;
    assert (x + y) * rate == x * rate + y * rate;
  }

  lemma {:induction false} AccruedMonotone(d: int, e: int, rate: real)
    requires d <= e && 0.0 <= rate
    ensures Accrued(d, rate) <= Accrued(e, rate)
  {
    var x, y := d as real / 1000000000.0, e as real / 1000000000.0;
    assert (y - x) * rate >= 0.0;
    assert y * rate - x * rate == (y - x) * rate;
  }

  /** Call `i` of the trace took no more than the cap holds and, when it has a predecessor, no more
      than that predecessor left plus the accrual since. */
  ghost predicate MeteredAt<T>(calls: seq<Call<T>>, i: nat, rate: real, burst: real)
    requires i < |calls|
  {
    && 0.0 <= calls[i].level
    && calls[i].level + Cost(calls[i].admitted) <= burst
    && (i > 0 ==>
          && calls[i-1].at <= calls[i].at
          && calls[i].level + Cost(calls[i].admitted)
             <= calls[i-1].level + Accrued(calls[i].at - calls[i-1].at, rate))
  }

  ghost predicate Metered<T>(calls: seq<Call<T>>, rate: real, burst: real) {
    forall i {:trigger calls[i]} :: 0 <= i < |calls| ==> MeteredAt(calls, i, rate, burst)
  }

  lemma {:induction false} MeteredExtend<T>(calls: seq<Call<T>>, c: Call<T>, rate: real, burst: real)
    requires Metered(calls, rate, burst)
    requires 0.0 <= c.level && c.level + Cost(c.admitted) <= burst
    requires calls != [] ==>
               var p := calls[|calls|-1];
               p.at <= c.at && c.level + Cost(c.admitted) <= p.level + Accrued(c.at - p.at, rate)
    ensures Metered(calls + [c], rate, burst)
  {
    var ext := calls + [c];
    forall i | 0 <= i < |ext| ensures MeteredAt(ext, i, rate, burst) {
      if i < |calls| { assert MeteredAt(calls, i, rate, burst); }
    }
  }

  /** Admitted calls made at or after `x`. */
  ghost function AdmittedSince<T>(calls: seq<Call<T>>, x: int): (n: nat) {
    if calls == [] then 0
    else
      var last := calls[|calls|-1];
      AdmittedSince(calls[..|calls|-1], x) + (if last.at >= x && last.admitted then 1 else 0)
  }

  lemma {:induction false} NoneSince<T>(calls: seq<Call<T>>, x: int)
    requires forall i :: 0 <= i < |calls| ==> calls[i].at < x
    ensures AdmittedSince(calls, x) == 0
  {
    if calls != [] { NoneSince(calls[..|calls|-1], x); }
  }

  lemma {:induction false} TimesSorted<T>(calls: seq<Call<T>>, rate: real, burst: real, i: nat)
    requires Metered(calls, rate, burst) && i < |calls|
    ensures calls[i].at <= calls[|calls|-1].at
    decreases |calls| - i
  {
    if i < |calls| - 1 {
      assert MeteredAt(calls, i + 1, rate, burst);
      TimesSorted(calls, rate, burst, i + 1);
    }
  }

  lemma {:induction false} MeteredPrefix<T>(calls: seq<Call<T>>, n: nat, rate: real, burst: real)
    requires Metered(calls, rate, burst) && n <= |calls|
    ensures Metered(calls[..n], rate, burst)
  {
    forall i | 0 <= i < n ensures MeteredAt(calls[..n], i, rate, burst) {
      assert MeteredAt(calls, i, rate, burst);
    }
  }

  lemma {:induction false} Potential<T>(calls: seq<Call<T>>, rate: real, burst: real, x: int)
    requires Metered(calls, rate, burst) && calls != [] && 0.0 <= rate
    requires calls[|calls|-1].at >= x
    ensures AdmittedSince(calls, x) as real + calls[|calls|-1].level
            <= burst + Accrued(calls[|calls|-1].at - x, rate)
  {
    var n := |calls| - 1;
    var last := calls[n];
    var init := calls[..n];
    assert MeteredAt(calls, n, rate, burst);
    AccruedMonotone(0, last.at - x, rate);
    if n > 0 {
      var prev := calls[n-1];
      MeteredPrefix(calls, n, rate, burst);
      if prev.at >= x {
        Potential(init, rate, burst, x);
        AccruedAdds(prev.at - x, last.at - prev.at, rate);
        assert prev.at - x + (last.at - prev.at) == last.at - x;
      } else {
        forall i | 0 <= i < n ensures init[i].at < x { TimesSorted(init, rate, burst, i); }
        NoneSince(init, x);
      }
    }
  }

  /** The admission curve: a metered trace admits at most `burst + rate * (t - x)` calls in
      `[x, t]`, for every `x` and every `t` no earlier than the last call. */
  lemma {:induction false} AdmissionCurve<T>(calls: seq<Call<T>>, rate: real, burst: real, x: int, t: int)
    requires Metered(calls, rate, burst) && 0.0 <= rate && 0.0 <= burst
    requires x <= t && (calls != [] ==> calls[|calls|-1].at <= t)
    ensures AdmittedSince(calls, x) as real <= burst + Accrued(t - x, rate)
  {
    AccruedMonotone(0, t - x, rate);
    if calls != [] {
      var last := calls[|calls|-1];
      if last.at >= x {
        Potential(calls, rate, burst, x);
        assert MeteredAt(calls, |calls|-1, rate, burst);
        AccruedMonotone(last.at - x, t - x, rate);
      } else {
        forall i | 0 <= i < |calls| ensures calls[i].at < x { TimesSorted(calls, rate, burst, i); }
        NoneSince(calls, x);
      }
    }
  }

  /** Distinct keys, each backed by an admitted call since `x` that carries it, are no more than
      the calls admitted since `x`. */
  lemma {:induction false} KeysBounded<T(!new), K(!new)>(calls: seq<Call<T>>, key: T -> K, keys: set<K>, x: int)
    requires forall k :: k in keys ==> exists i :: 0 <= i < |calls| && Carries(calls[i], key, k, x)
    ensures |keys| <= AdmittedSince(calls, x)
  {
    if calls == [] {
      if k :| k in keys { assert false; }
      assert keys == {};
    } else {
      var n := |calls| - 1;
      var k := key(calls[n].tag);
      var rest := if Carries(calls[n], key, k, x) then keys - {k} else keys;
      forall j | j in rest ensures exists i :: 0 <= i < n && Carries(calls[..n][i], key, j, x) {
        var i :| 0 <= i < |calls| && Carries(calls[i], key, j, x);
        assert i != n;
        assert calls[..n][i] == calls[i];
      }
      KeysBounded(calls[..n], key, rest, x);
      if Carries(calls[n], key, k, x) {
        assert keys <= rest + {k};
        SubsetSize(keys, rest + {k});
      }
    }
  }

  ghost predicate Carries<T, K>(c: Call<T>, key: T -> K, k: K, x: int) {
    c.admitted && c.at >= x && key(c.tag) == k
  }
}
