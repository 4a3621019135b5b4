/** The bounded, drop-oldest change queue (internal/ddns/ddns.go:82-83, 139-186).

    Submitters hold submitMu for their three non-blocking selects, so at most one is between
    selects; the draining worker may receive between any two of them. */
module ChangeQueue {

  const CAP: nat := 64

  type Change = nat

  /** Where the submitter holding the lock stands. */
  datatype Phase = Idle | MustDrop(c: Change) | MustRetry(c: Change)

  /** The channel, the submitter, everything sent so far, and what became of what has left the
      channel: true for delivered, false for dropped. */
  datatype World = World(queue: seq<Change>, phase: Phase, sent: seq<Change>, fates: seq<bool>, lost: seq<Change>)

  datatype Event = Submit(c: Change) | DropOldest | Retry | Receive

  const INITIAL: World := World([], Idle, [], [], [])

  /** Whether a step can be taken: the three selects always can, having a default. */
  predicate Enabled(w: World, e: Event) {
    match e
    case Submit(_) => w.phase.Idle?
    case DropOldest => w.phase.MustDrop?
    case Retry => w.phase.MustRetry?
    case Receive => w.queue != []
  }

  function Step(w: World, e: Event): (w': World)
    requires Enabled(w, e)
  {
    match e
    case Submit(c) =>
      if |w.queue| < CAP then w.(queue := w.queue + [c], sent := w.sent + [c])
      else w.(phase := MustDrop(c))
    case DropOldest =>
      var c := w.phase.c;
      if w.queue == [] then w.(phase := MustRetry(c))
      else w.(phase := MustRetry(c), queue := w.queue[1..], fates := w.fates + [false])
    case Retry =>
      var c := w.phase.c;
      if |w.queue| < CAP then w.(phase := Idle, queue := w.queue + [c], sent := w.sent + [c])
      else w.(phase := Idle, lost := w.lost + [c])
    case Receive => w.(queue := w.queue[1..], fates := w.fates + [true])
  }

  ghost predicate Run(ws: seq<World>, es: seq<Event>) {
    && |ws| == |es| + 1 && ws[0] == INITIAL
    && forall i {:trigger es[i]} :: 0 <= i < |es| ==> Enabled(ws[i], es[i]) && ws[i+1] == Step(ws[i], es[i])
  }

  ghost predicate Inv(w: World) {
    && |w.queue| <= CAP && (w.phase.MustRetry? ==> |w.queue| < CAP)
    && |w.fates| + |w.queue| == |w.sent|
    && w.queue == w.sent[|w.fates|..]
    && w.lost == []
  }

  lemma {:induction false} StepKeeps(w: World, e: Event)
    requires Inv(w) && Enabled(w, e)
    ensures Inv(Step(w, e))
  {
    var w' := Step(w, e);
    if w'.sent != w.sent {
      assert w'.sent[|w.fates|..] == w.sent[|w.fates|..] + [w'.sent[|w.sent|]];
    } else if w'.fates != w.fates {
      assert w.sent[|w.fates|..][1..] == w.sent[|w.fates|+1..];
    }
  }

  lemma {:induction false} RunKeeps(ws: seq<World>, es: seq<Event>, n: nat)
    requires Run(ws, es) && n < |ws|
    ensures Inv(ws[n])
  {
    if n > 0 {
      RunKeeps(ws, es, n - 1);
      assert Enabled(ws[n-1], es[n-1]);
      StepKeeps(ws[n-1], es[n-1]);
    }
  }

  /** In every interleaving the queue holds at most 64 changes, and they are the newest ones sent, in
      order; no submitted change is ever refused. */
  lemma {:induction false} QueueIsNewest(ws: seq<World>, es: seq<Event>, n: nat)
    requires Run(ws, es) && n < |ws|
    ensures |ws[n].queue| <= 64 && ws[n].lost == []
    ensures |ws[n].queue| <= |ws[n].sent| && ws[n].queue == ws[n].sent[|ws[n].sent| - |ws[n].queue|..]
  {
    RunKeeps(ws, es, n);
  }

  /** A change is the newest in the queue as soon as its submitter is done, whatever the worker did between
      the selects. */
  lemma {:induction false} SubmitSucceeds(ws: seq<World>, es: seq<Event>, n: nat)
    requires Run(ws, es) && n < |ws|
    ensures n < |es| && es[n].Retry? ==>
              && ws[n+1].phase.Idle?
              && ws[n+1].sent == ws[n].sent + [ws[n].phase.c]
              && ws[n+1].queue == ws[n].queue + [ws[n].phase.c]
    ensures n < |es| && es[n].Submit? && ws[n+1].phase.Idle? ==>
              ws[n+1].sent == ws[n].sent + [es[n].c] && ws[n+1].queue == ws[n].queue + [es[n].c]
  {
    RunKeeps(ws, es, n);
    if n < |es| { assert Enabled(ws[n], es[n]); }
  }

  /** How many of the events from `i` up to `k` are a submitter's. */
  ghost function OwnSteps(es: seq<Event>, i: nat, k: nat): (own: nat)
    requires i <= k <= |es|
  {
    if i == k then 0 else OwnSteps(es, i, k - 1) + (if es[k-1].Receive? then 0 else 1)
  }

  /** A submission that finds the queue full ends with its second further step, however many receives come
      in between: the first drops the oldest change, the second sends the submitted one. Until then nobody
      else sends anything. */
  lemma {:induction false} SubmitEnds(ws: seq<World>, es: seq<Event>, n: nat, k: nat)
    requires Run(ws, es) && n < k <= |es| && es[n].Submit? && !ws[n+1].phase.Idle?
    ensures var own, c := OwnSteps(es, n + 1, k), es[n].c;
      && (own == 0 ==> ws[k].phase == MustDrop(c) && ws[k].sent == ws[n].sent)
      && (own == 1 ==> ws[k].phase == MustRetry(c) && ws[k].sent == ws[n].sent)
      && (own == 2 ==> ws[k].phase == Idle && ws[k].sent == ws[n].sent + [c])
  {
    if k == n + 1 {
      assert Enabled(ws[n], es[n]);
    } else {
      SubmitEnds(ws, es, n, k - 1);
      RunKeeps(ws, es, k - 1);
      assert Enabled(ws[k-1], es[k-1]);
    }
  }

  /** The changes delivered: those of `sent` whose fate was to be received. */
  ghost function Delivered(sent: seq<Change>, fates: seq<bool>): (d: seq<Change>)
    requires |fates| <= |sent|
  {
    if fates == [] then []
    else
      var k := |fates| - 1;
      Delivered(sent, fates[..k]) + (if fates[k] then [sent[k]] else [])
  }

  ghost function ReceivedBy(ws: seq<World>, es: seq<Event>, n: nat): (d: seq<Change>)
    requires Run(ws, es) && n <= |es|
  {
    if n == 0 then []
    else
      assert Enabled(ws[n-1], es[n-1]);
      ReceivedBy(ws, es, n - 1) + (if es[n-1].Receive? then [ws[n-1].queue[0]] else [])
  }

  lemma {:induction false} DeliveredPrefix(sent: seq<Change>, more: seq<Change>, fates: seq<bool>)
    requires |fates| <= |sent|
    ensures Delivered(sent + more, fates) == Delivered(sent, fates)
  {
    if fates != [] { DeliveredPrefix(sent, more, fates[..|fates|-1]); }
  }

  /** What the worker receives is an in-order subsequence of what was sent: each change sent is
      delivered, dropped or still queued, exactly once, in order. */
  lemma {:induction false} DeliveriesInOrder(ws: seq<World>, es: seq<Event>, n: nat)
    requires Run(ws, es) && n < |ws|
    ensures |ws[n].fates| <= |ws[n].sent|
    ensures ReceivedBy(ws, es, n) == Delivered(ws[n].sent, ws[n].fates)
  {
    RunKeeps(ws, es, n);
    if n > 0 {
      RunKeeps(ws, es, n - 1);
      DeliveriesInOrder(ws, es, n - 1);
      assert Enabled(ws[n-1], es[n-1]);
      var w, w' := ws[n-1], ws[n];
      if w'.sent != w.sent {
        DeliveredPrefix(w.sent, [w'.sent[|w.sent|]], w.fates);
        assert w'.sent == w.sent + [w'.sent[|w.sent|]];
      } else if w'.fates != w.fates {
        assert w'.fates[..|w.fates|] == w.fates && w.queue[0] == w.sent[|w.fates|];
      }
    }
  }
}
