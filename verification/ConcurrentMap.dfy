/** Mapping a list with bounded concurrency: workers share one counter and claim the next
    index between awaits. */
module ConcurrentMap {
  import opened Options

  datatype Worker = Running(index: nat) | Finished | Failed

  /** `claims` and `settled` record, in order, the indices handed out and the task results
      that came back. */
  datatype State<R> = State(n: nat, next: nat, workers: seq<Worker>, results: seq<Option<R>>,
                            claims: seq<nat>, settled: seq<(nat, R)>)

  /** A worker's task succeeds or fails; everything else happens between awaits. */
  datatype Event<R> = Settle(worker: nat, value: R) | Reject(worker: nat)

  function Max(x: int, y: int): int { if x >= y then x else y }

  function Min(x: int, y: int): int { if x <= y then x else y }

  function WorkerCount(n: nat, concurrency: int): nat { Min(Max(1, concurrency), n) }

  /** The loop head of worker `w`: claim the next index, or stop when none is left. */
  function Claim<R>(s: State<R>, w: nat): State<R>
    requires w < |s.workers|
  {
    if s.next < s.n
    then s.(next := s.next + 1, workers := s.workers[w := Running(s.next)], claims := s.claims + [s.next])
    else s.(workers := s.workers[w := Finished])
  }

  predicate Enabled<R>(s: State<R>, e: Event<R>) {
    e.worker < |s.workers| && s.workers[e.worker].Running? && s.workers[e.worker].index < |s.results|
  }

  function Step<R>(s: State<R>, e: Event<R>): State<R>
    requires Enabled(s, e)
  {
    match e
    case Reject(w) => s.(workers := s.workers[w := Failed])
    case Settle(w, value) =>
      var i := s.workers[w].index;
      Claim(s.(results := s.results[i := Some(value)], settled := s.settled + [(i, value)]), w)
  }

  /** The state once every worker has reached its first await. */
  function Start<R>(n: nat, concurrency: int): State<R> {
    var w := WorkerCount(n, concurrency);
    State(n, w, seq(w, i requires 0 <= i < w => Running(i)), seq(n, i => None), seq(w, i requires 0 <= i < w => i), [])
  }

  ghost predicate IsRun<R(!new)>(s: State<R>, events: seq<Event<R>>, end: State<R>)
    decreases |events|
  {
    if events == [] then end == s
    else Enabled(s, events[0]) && IsRun(Step(s, events[0]), events[1..], end)
  }

  predicate Holds<R>(s: State<R>, i: nat) {
    exists w :: 0 <= w < |s.workers| && s.workers[w] == Running(i)
  }

  predicate Reported<R(==)>(s: State<R>, i: nat) {
    exists k :: 0 <= k < |s.settled| && s.settled[k].0 == i
  }

  ghost predicate Inv<R(!new)>(s: State<R>, width: nat) {
    ClaimInv(s, width) && ReportInv(s) && NothingLost(s)
  }

  ghost predicate ClaimInv<R(!new)>(s: State<R>, width: nat) {
    && |s.workers| == width && |s.results| == s.n && s.next <= s.n
    // Each index below the counter was claimed once, in order, and no other.
    && |s.claims| == s.next && (forall k :: 0 <= k < s.next ==> s.claims[k] == k)
    // A claimed index is run by one worker at most, and has no result yet.
    && (forall w :: 0 <= w < width && s.workers[w].Running? ==>
       s.workers[w].index < s.next && s.results[s.workers[w].index].None?)
    && (forall v, w :: 0 <= v < w < width && s.workers[v].Running? && s.workers[w].Running? ==>
       s.workers[v].index != s.workers[w].index)
    // Indices never claimed have no result, and a worker that finished left none unclaimed.
    && (forall i :: s.next <= i < s.n ==> s.results[i].None?)
    && (forall w :: 0 <= w < width && s.workers[w].Finished? ==> s.next == s.n)
  }

  /** Results are exactly the reports, one for each index. */
  ghost predicate ReportInv<R(!new)>(s: State<R>) {
    && (forall k :: 0 <= k < |s.settled| ==>
       s.settled[k].0 < |s.results| && s.results[s.settled[k].0] == Some(s.settled[k].1))
    && (forall j, k :: 0 <= j < k < |s.settled| ==> s.settled[j].0 != s.settled[k].0)
    && (forall i :: 0 <= i < |s.results| && s.results[i].Some? ==> Reported(s, i))
  }

  /** Unless a worker failed, a claimed index is running or has its result. */
  ghost predicate NothingLost<R(!new)>(s: State<R>) {
    (forall w :: 0 <= w < |s.workers| ==> !s.workers[w].Failed?) ==>
      forall i :: 0 <= i < s.next && i < |s.results| ==> Holds(s, i) || s.results[i].Some?
  }

  lemma StartEstablishes<R(!new)>(n: nat, concurrency: int)
    ensures Inv(Start<R>(n, concurrency), WorkerCount(n, concurrency))
  {
    var s := Start<R>(n, concurrency);
    forall i | 0 <= i < s.next ensures Holds(s, i) {
      assert s.workers[i] == Running(i);
    }
  }

  lemma StepPreserves<R(!new)>(s: State<R>, e: Event<R>, width: nat)
    requires Inv(s, width) && Enabled(s, e)
    ensures Inv(Step(s, e), width)
  {
    StepClaims(s, e, width);
    if e.Settle? { SettleReports(s, e); }
    StepLosesNothing(s, e, width);
  }

  lemma StepClaims<R(!new)>(s: State<R>, e: Event<R>, width: nat)
    requires ClaimInv(s, width) && Enabled(s, e)
    ensures ClaimInv(Step(s, e), width)
  {
    var t := Step(s, e);
    assert forall v :: 0 <= v < width && v != e.worker ==> s.workers[v] == t.workers[v];
  }

  lemma StepLosesNothing<R(!new)>(s: State<R>, e: Event<R>, width: nat)
    requires ClaimInv(s, width) && NothingLost(s) && Enabled(s, e)
    ensures NothingLost(Step(s, e))
  {
    var t, w := Step(s, e), e.worker;
    assert forall v :: 0 <= v < width && v != w ==> s.workers[v] == t.workers[v];
    if e.Reject? {
      assert t.workers[w].Failed?;
    } else {
      forall j | 0 <= j < t.next && (forall v :: 0 <= v < width ==> !t.workers[v].Failed?)
        ensures Holds(t, j) || t.results[j].Some?
      {
        if j < s.next {
          if Holds(s, j) {
            var v :| 0 <= v < width && s.workers[v] == Running(j);
            if v != w { assert t.workers[v] == Running(j); }
          }
        } else {
          assert t.workers[w] == Running(j);
        }
      }
    }
  }

  lemma SettleReports<R(!new)>(s: State<R>, e: Event<R>)
    requires Enabled(s, e) && e.Settle?
    requires ReportInv(s) && s.results[s.workers[e.worker].index].None?
    ensures ReportInv(Step(s, e))
  {
    var t := Step(s, e);
    forall i | 0 <= i < |s.results| && t.results[i].Some? ensures Reported(t, i) {
      if i == s.workers[e.worker].index {
        assert t.settled[|s.settled|].0 == i;
      } else {
        var k :| 0 <= k < |s.settled| && s.settled[k].0 == i;
        assert t.settled[k].0 == i;
      }
    }
  }

  lemma {:induction false} RunPreserves<R(!new)>(s: State<R>, events: seq<Event<R>>, end: State<R>, width: nat)
    requires Inv(s, width) && IsRun(s, events, end)
    ensures Inv(end, width)
    decreases |events|
  {
    if events != [] {
      StepPreserves(s, events[0], width);
      RunPreserves(Step(s, events[0]), events[1..], end, width);
    }
  }

  function RunningCount(workers: seq<Worker>): nat {
    if workers == [] then 0 else (if workers[0].Running? then 1 else 0) + RunningCount(workers[1..])
  }

  lemma {:induction false} RunningAtMost(workers: seq<Worker>)
    ensures RunningCount(workers) <= |workers|
  {
    if workers != [] { RunningAtMost(workers[1..]); }
  }

  lemma {:induction false} AllRunning(workers: seq<Worker>)
    requires forall w :: 0 <= w < |workers| ==> workers[w].Running?
    ensures RunningCount(workers) == |workers|
  {
    if workers != [] { AllRunning(workers[1..]); }
  }

  /** Over every interleaving: indices are claimed once and in order; the number of workers bounds
      the tasks running, and all of them run while items are left and none has failed; once all
      have finished every item's own result is in its place, reported once. */
  lemma EveryIndexOnce<R(!new)>(n: nat, concurrency: int, events: seq<Event<R>>, end: State<R>)
    requires IsRun(Start(n, concurrency), events, end)
    ensures end.claims == seq(end.next, i => i) && end.next <= n == |end.results|
    ensures |end.workers| == (if n == 0 then 0 else if concurrency < 1 then 1 else if concurrency < n then concurrency
            else n)
    ensures RunningCount(end.workers) <= |end.workers|
    ensures end.next < n && (forall w :: 0 <= w < |end.workers| ==> !end.workers[w].Failed?) ==>
      RunningCount(end.workers) == |end.workers|
    ensures (forall w :: 0 <= w < |end.workers| ==> end.workers[w].Finished?) ==>
      end.next == n && forall i :: 0 <= i < n ==> HasItsOwnResult(end, i)
  {
    StartEstablishes<R>(n, concurrency);
    RunPreserves(Start(n, concurrency), events, end, WorkerCount(n, concurrency));
    RunKeepsSize(Start(n, concurrency), events, end);
    RunningAtMost(end.workers);
    if forall w :: 0 <= w < |end.workers| ==> end.workers[w].Running? { AllRunning(end.workers); }
    if forall w :: 0 <= w < |end.workers| ==> end.workers[w].Finished? {
      if n > 0 { assert end.workers[0].Finished?; }
      forall i | 0 <= i < n ensures HasItsOwnResult(end, i) {
        assert !Holds(end, i);
        assert Reported(end, i);
      }
    }
  }

  /** Item `i` was reported exactly once, and its result is what was reported. */
  ghost predicate HasItsOwnResult<R(!new)>(s: State<R>, i: nat)
    requires i < |s.results|
  {
    exists k :: 0 <= k < |s.settled| && s.settled[k].0 == i && s.results[i] == Some(s.settled[k].1)
                && forall j :: 0 <= j < |s.settled| && j != k ==> s.settled[j].0 != i
  }

  lemma {:induction false} RunKeepsSize<R(!new)>(s: State<R>, events: seq<Event<R>>, end: State<R>)
    requires IsRun(s, events, end)
    ensures end.n == s.n
    decreases |events|
  {
    if events != [] { RunKeepsSize(Step(s, events[0]), events[1..], end); }
  }

  /** The shared variables of one call. */
  class Mapping<R> {
    const n: nat
    var next: nat
    var workers: seq<Worker>
    var results: array<Option<R>>
    ghost var claims: seq<nat>
    ghost var settled: seq<(nat, R)>

    ghost function View(): State<R>
      reads this, results
    {
      State(n, next, workers, results[..], claims, settled)
    }

    /** Starts the workers one after the other; each runs to its first await. */
    constructor (items: nat, concurrency: int)
      ensures View() == Start(items, concurrency) && fresh(results)
    {
      var width := WorkerCount(items, concurrency);
      n := items;
      next, workers, claims, settled := 0, seq(width, _ => Finished), [], [];
      results := new Option<R>[items](_ => None);
      new;
      for w := 0 to width
        invariant next == w && |workers| == width && |claims| == w && settled == [] && n == items && fresh(results)
        invariant results[..] == seq(items, i => None)
        invariant forall v :: 0 <= v < w ==> workers[v] == Running(v) && claims[v] == v
        modifies this`next, this`workers, this`claims
      {
        ClaimNext(w);
      }
    }

    method ClaimNext(w: nat)
      requires w < |workers|
      modifies this`next, this`workers, this`claims
      ensures View() == Claim(old(View()), w)
    {
      if next < n {
        workers, claims := workers[w := Running(next)], claims + [next];
        next := next + 1;
      } else {
        workers := workers[w := Finished];
      }
    }

    method TaskSettled(w: nat, value: R)
      requires Enabled(View(), Settle(w, value))
      modifies this`next, this`workers, this`claims, this`settled, results
      ensures View() == Step(old(View()), Settle(w, value)) && results == old(results)
    {
      var index := workers[w].index;
      results[index] := Some(value);
      settled := settled + [(index, value)];
      ClaimNext(w);
    }

    method TaskRejected(w: nat)
      requires Enabled(View(), Reject(w))
      modifies this`workers
      ensures View() == Step(old(View()), Reject(w))
    {
      workers := workers[w := Failed];
    }
  }
}
