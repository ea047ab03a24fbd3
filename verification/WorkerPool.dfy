/**
 * The bounded worker pool as a state machine: between two awaits a worker runs alone, so each
 * step below is one such stretch, taken by any worker in any order.
 */
module WorkerPool {
  import opened Prelude

  datatype Worker = AtLoop | Busy(index: nat) | Exited

  /** `next` is the shared cursor; `aborted` is set by a worker that saw the signal. */
  datatype Pool = Pool(items: nat, next: nat, workers: seq<Worker>, signal: bool, aborted: bool,
                       dispatched: seq<nat>, finished: seq<nat>)

  function Initial(items: nat, concurrency: int): Pool {
    Pool(items, 0, seq(Max(1, concurrency), i => AtLoop), false, false, [], [])
  }

  datatype Step = Resume(worker: nat) | Settle(worker: nat) | Abort

  predicate Enabled(p: Pool, s: Step) {
    match s
    case Resume(w) => w < |p.workers| && p.workers[w].AtLoop?
    case Settle(w) => w < |p.workers| && p.workers[w].Busy?
    case Abort => !p.signal
  }

  function Apply(p: Pool, s: Step): Pool
    requires Enabled(p, s)
  {
    match s
    case Resume(w) =>
      if p.next >= p.items then p.(workers := p.workers[w := Exited])
      else if p.signal then p.(workers := p.workers[w := Exited], aborted := true)
      else p.(workers := p.workers[w := Busy(p.next)], dispatched := p.dispatched + [p.next], next := p.next + 1)
    case Settle(w) =>
      p.(workers := p.workers[w := AtLoop], finished := p.finished + [p.workers[w].index])
    case Abort => p.(signal := true)
  }

  function Run(p: Pool, steps: seq<Step>): Pool {
    if steps == [] then p
    else
      var before, s := Run(p, steps[..|steps| - 1]), steps[|steps| - 1];
      if Enabled(before, s) then Apply(before, s) else before
  }

  /** Every step was possible when it was taken. */
  predicate Legal(p: Pool, steps: seq<Step>) {
    forall i :: 0 <= i < |steps| ==> Enabled(Run(p, steps[..i]), steps[i])
  }

  lemma {:induction false} LegalPrefix(p: Pool, steps: seq<Step>)
    requires Legal(p, steps) && steps != []
    ensures Legal(p, steps[..|steps| - 1]) && Enabled(Run(p, steps[..|steps| - 1]), steps[|steps| - 1])
  {
    var before := steps[..|steps| - 1];
    assert forall i :: 0 <= i < |before| ==> before[..i] == steps[..i];
  }

  function UpTo(n: nat): seq<nat> { seq(n, i => i) }

  function Of(w: Worker): multiset<nat> { if w.Busy? then multiset{w.index} else multiset{} }

  /** The indices being worked on. */
  function InFlight(workers: seq<Worker>): multiset<nat> {
    if workers == [] then multiset{} else InFlight(workers[..|workers| - 1]) + Of(workers[|workers| - 1])
  }

  lemma {:induction false} InFlightUpdate(workers: seq<Worker>, i: nat, w: Worker)
    requires i < |workers|
    ensures InFlight(workers[i := w]) + Of(workers[i]) == InFlight(workers) + Of(w)
  {
    var n, updated := |workers| - 1, workers[i := w];
    if i == n {
      assert updated[..n] == workers[..n];
      Commute(InFlight(workers[..n]), Of(w), Of(workers[n]));
    } else {
      assert updated[..n] == workers[..n][i := w] && updated[n] == workers[n];
      InFlightUpdate(workers[..n], i, w);
      AddToBoth(InFlight(updated[..n]), Of(workers[i]), InFlight(workers[..n]), Of(w), Of(workers[n]));
    }
  }

  lemma {:induction false} Commute(a: multiset<nat>, x: multiset<nat>, y: multiset<nat>)
    ensures a + x + y == a + y + x
  {
  }

  lemma {:induction false} AddToBoth(a: multiset<nat>, x: multiset<nat>, b: multiset<nat>, y: multiset<nat>, z: multiset<nat>)
    requires a + x == b + y
    ensures (a + z) + x == (b + z) + y
  {
    assert (a + z) + x == (a + x) + z;
    assert (b + z) + y == (b + y) + z;
  }

  lemma {:induction false} InFlightSize(workers: seq<Worker>)
    ensures |InFlight(workers)| <= |workers|
    ensures InFlight(workers) == multiset{} <==> forall i :: 0 <= i < |workers| ==> !workers[i].Busy?
  {
    if workers != [] {
      InFlightSize(workers[..|workers| - 1]);
    }
  }

  /** Dispatch is in order and without gaps; every dispatched index is in flight or finished, once. */
  predicate Inv(p: Pool, width: nat) {
    && |p.workers| == width && p.next <= p.items
    && p.dispatched == UpTo(p.next)
    && multiset(p.finished) + InFlight(p.workers) == multiset(p.dispatched)
    && (p.aborted ==> p.signal && p.next < p.items)
    && (forall w :: 0 <= w < |p.workers| && p.workers[w].Exited? ==> p.aborted || p.next == p.items)
  }

  lemma {:induction false} NothingInFlight(workers: seq<Worker>)
    requires forall i :: 0 <= i < |workers| ==> workers[i].AtLoop?
    ensures InFlight(workers) == multiset{}
  {
    InFlightSize(workers);
  }

  lemma {:induction false} Dispatching(p: Pool, w: nat, width: nat)
    requires Inv(p, width) && Enabled(p, Resume(w)) && p.next < p.items && !p.signal
    ensures Inv(Apply(p, Resume(w)), width)
  {
    var p' := Apply(p, Resume(w));
    InFlightUpdate(p.workers, w, Busy(p.next));
    assert InFlight(p'.workers) == InFlight(p.workers) + multiset{p.next};
    DispatchedGrows(p.next, multiset(p.finished), InFlight(p.workers));
  }

  lemma {:induction false} DispatchedGrows(next: nat, finished: multiset<nat>, inFlight: multiset<nat>)
    requires finished + inFlight == multiset(UpTo(next))
    ensures UpTo(next) + [next] == UpTo(next + 1)
    ensures finished + (inFlight + multiset{next}) == multiset(UpTo(next) + [next])
  {
    assert multiset(UpTo(next) + [next]) == multiset(UpTo(next)) + multiset{next};
  }

  lemma {:induction false} Settling(p: Pool, w: nat, width: nat)
    requires Inv(p, width) && Enabled(p, Settle(w))
    ensures Inv(Apply(p, Settle(w)), width)
  {
    var p' := Apply(p, Settle(w));
    var index := p.workers[w].index;
    InFlightUpdate(p.workers, w, AtLoop);
    assert InFlight(p.workers) == InFlight(p'.workers) + multiset{index};
    assert multiset(p'.finished) == multiset(p.finished) + multiset{index};
  }

  lemma {:induction false} Exiting(p: Pool, w: nat, width: nat)
    requires Inv(p, width) && Enabled(p, Resume(w)) && (p.next >= p.items || p.signal)
    ensures Inv(Apply(p, Resume(w)), width)
  {
    var before, after := InFlight(p.workers), InFlight(p.workers[w := Exited]);
    InFlightUpdate(p.workers, w, Exited);
    assert before + multiset{} == before && after + multiset{} == after;
  }

  lemma {:induction false} StepInv(p: Pool, s: Step, width: nat)
    requires Inv(p, width) && Enabled(p, s)
    ensures Inv(Apply(p, s), width)
  {
    match s
    case Abort =>
    case Settle(w) => Settling(p, w, width);
    case Resume(w) =>
      if p.next >= p.items || p.signal {
        Exiting(p, w, width);
      } else {
        Dispatching(p, w, width);
      }
  }

  /** In every interleaving: each index at most once, a prefix, and bounded concurrency. */
  lemma {:induction false} PoolInvariant(items: nat, concurrency: int, steps: seq<Step>)
    requires Legal(Initial(items, concurrency), steps)
    ensures Inv(Run(Initial(items, concurrency), steps), Max(1, concurrency))
    ensures |InFlight(Run(Initial(items, concurrency), steps).workers)| <= Max(1, concurrency)
    ensures Run(Initial(items, concurrency), steps).items == items
  {
    var start, width := Initial(items, concurrency), Max(1, concurrency);
    if steps == [] {
      InitialInv(items, concurrency);
    } else {
      var before := steps[..|steps| - 1];
      LegalPrefix(start, steps);
      PoolInvariant(items, concurrency, before);
      StepInv(Run(start, before), steps[|steps| - 1], width);
    }
    InFlightSize(Run(start, steps).workers);
  }

  lemma {:induction false} InitialInv(items: nat, concurrency: int)
    ensures Inv(Initial(items, concurrency), Max(1, concurrency))
  {
    NothingInFlight(Initial(items, concurrency).workers);
  }

  /** Workers are not held back: while items are left and no signal was given, a free worker takes the next. */
  lemma {:induction false} FreeWorkerDispatches(p: Pool, w: nat)
    requires w < |p.workers| && p.workers[w].AtLoop? && p.next < p.items && !p.signal
    ensures Enabled(p, Resume(w))
    ensures var p' := Apply(p, Resume(w));
            && p'.workers == p.workers[w := Busy(p.next)] && p'.next == p.next + 1
            && p'.dispatched == p.dispatched + [p.next] && p'.finished == p.finished && p'.signal == p.signal
  {
  }

  predicate Ended(p: Pool) { forall w :: 0 <= w < |p.workers| ==> p.workers[w].Exited? }

  datatype Ending = Returned | AbortedMidFlight

  /** How the pool's caller sees the end: an abort is rethrown only on request. */
  function EndingOf(p: Pool, throwOnAbort: bool): Ending {
    if p.aborted && throwOnAbort then AbortedMidFlight else Returned
  }

  /**
   * When all workers have returned, every dispatched index has finished exactly once, and a worker
   * saw the abort signal exactly when some index was left out. So a caller that asked for the abort
   * to be thrown learns from a normal return that every index was done, and from the throw that not.
   */
  lemma {:induction false} EndedPoolDidItsWork(items: nat, concurrency: int, steps: seq<Step>, throwOnAbort: bool)
    requires Legal(Initial(items, concurrency), steps) && Ended(Run(Initial(items, concurrency), steps))
    ensures var p := Run(Initial(items, concurrency), steps);
            && multiset(p.finished) == multiset(p.dispatched)
            && (!p.aborted <==> multiset(p.finished) == multiset(UpTo(items)))
            && (!p.signal ==> !p.aborted)
            && (EndingOf(p, throwOnAbort) == AbortedMidFlight <==>
                  throwOnAbort && multiset(p.finished) != multiset(UpTo(items)))
  {
    PoolInvariant(items, concurrency, steps);
    var p := Run(Initial(items, concurrency), steps);
    InFlightSize(p.workers);
    assert p.workers[0].Exited?;
    assert |multiset(UpTo(p.next))| == p.next && |multiset(UpTo(items))| == items;
  }

  // ------------------------------------------------------------------------ progress

  function Rank(w: Worker): nat { if w.Exited? then 0 else if w.AtLoop? then 1 else 2 }

  function Ranks(workers: seq<Worker>): nat {
    if workers == [] then 0 else Ranks(workers[..|workers| - 1]) + Rank(workers[|workers| - 1])
  }

  lemma {:induction false} RanksUpdate(workers: seq<Worker>, i: nat, w: Worker)
    requires i < |workers|
    ensures Ranks(workers[i := w]) + Rank(workers[i]) == Ranks(workers) + Rank(w)
  {
    var n := |workers| - 1;
    if i == n {
      assert workers[i := w][..n] == workers[..n];
    } else {
      RanksUpdate(workers[..n], i, w);
      assert workers[i := w][..n] == workers[..n][i := w];
    }
  }

  /** Work left: two steps per undispatched item, the workers' own steps, and one signal. */
  function Left(p: Pool): int { 2 * (p.items - p.next) + Ranks(p.workers) + (if p.signal then 0 else 1) }

  lemma {:induction false} StepMakesProgress(p: Pool, s: Step)
    requires Enabled(p, s) && p.next <= p.items
    ensures Left(Apply(p, s)) == Left(p) - 1
  {
    match s
    case Abort =>
    case Resume(w) => RanksUpdate(p.workers, w, Apply(p, s).workers[w]);
    case Settle(w) => RanksUpdate(p.workers, w, AtLoop);
  }

  lemma {:induction false} FreshRanks(n: nat)
    ensures Ranks(seq(n, i => AtLoop)) == n
  {
    if n > 0 {
      assert seq(n, i => AtLoop)[..n - 1] == seq(n - 1, i => AtLoop);
      FreshRanks(n - 1);
    } else {
      assert seq(0, i => AtLoop) == [];
    }
  }

  /** Every run ends: it has at most two steps per item, one per worker, and one for the signal. */
  lemma {:induction false} RunsAreFinite(items: nat, concurrency: int, steps: seq<Step>)
    requires Legal(Initial(items, concurrency), steps)
    ensures |steps| + Left(Run(Initial(items, concurrency), steps)) == 2 * items + Max(1, concurrency) + 1
    ensures |steps| <= 2 * items + Max(1, concurrency) + 1
  {
    if steps == [] {
      FreshRanks(Max(1, concurrency));
    } else {
      var before := steps[..|steps| - 1];
      LegalPrefix(Initial(items, concurrency), steps);
      RunsAreFinite(items, concurrency, before);
      PoolInvariant(items, concurrency, before);
      StepMakesProgress(Run(Initial(items, concurrency), before), steps[|steps| - 1]);
    }
    PoolInvariant(items, concurrency, steps);
  }

  /** Until all workers have returned, some worker can take a step. */
  lemma {:induction false} NeverStuck(p: Pool)
    requires !Ended(p)
    ensures exists w :: Enabled(p, Resume(w)) || Enabled(p, Settle(w))
  {
    var w :| 0 <= w < |p.workers| && !p.workers[w].Exited?;
    assert Enabled(p, Resume(w)) || Enabled(p, Settle(w));
  }
}
