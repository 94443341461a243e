/** What the `loadtest.soak` handler's batching loop computes, stated over
    the outcomes of the sub-invocations it makes, in call order.

    The loop starts `i` and `errorCount` at 0 and, while `i < iterations`,
    issues a batch of C sub-invocations, C being the least count at which
    `j < concurrency` fails (`Values.Bound`), advancing `i` once per
    invocation in the `for` update, then awaits the whole batch. A
    synchronous throw leaves the `for` before that update; a rejected batch
    is seen only at the await. Either failure increments `errorCount` once
    and ends the loop. */
module SoakSpec {
  import opened Values

  /** How `await Promise.all(batch)` ends: every element resolved, some
      element rejected, or neither and some element never settles. */
  datatype BatchFate = Fulfils | Rejects | Stalls

  /** `Promise.all` over a batch, element by element: a rejection anywhere
      rejects the whole, even past an element that never settles. */
  function All(batch: seq<Outcome<Value>>): (r: BatchFate)
    ensures r == Fulfils ==> forall k :: 0 <= k < |batch| ==> batch[k].Resolved?
    ensures r == Rejects ==> exists k :: 0 <= k < |batch| && batch[k].Fails()
  {
    if batch == [] then Fulfils
    else match batch[0]
      case Resolved(_) => All(batch[1..])
      case Pending => if All(batch[1..]) == Rejects then Rejects else Stalls
      case _ => Rejects
  }

  /** The batch fails exactly when some element fails, and fulfils exactly
      when every element resolves. */
  lemma {:induction false} AllFate(batch: seq<Outcome<Value>>)
    ensures All(batch) == Rejects <==> exists k :: 0 <= k < |batch| && batch[k].Fails()
    ensures All(batch) == Fulfils <==> forall k :: 0 <= k < |batch| ==> batch[k].Resolved?
    ensures All(batch) == Stalls <==>
              (forall k :: 0 <= k < |batch| ==> !batch[k].Fails()) && exists k :: 0 <= k < |batch| && batch[k].Pending?
  {
    if batch != [] {
      AllFate(batch[1..]);
      assert forall k :: 1 <= k < |batch| ==> batch[k] == batch[1..][k - 1];
    }
  }

  /** How the loop ends: with its counters, or never (the handler's promise
      then stays pending). */
  datatype SoakEnd = Done(iterations: nat, errorCount: nat) | Hung

  /** The index of the first synchronous throw in `t[lo..hi]`, or `hi`. */
  function FirstThrow(t: seq<Outcome<Value>>, lo: nat, hi: nat): (k: nat)
    requires lo <= hi <= |t|
    ensures lo <= k <= hi
    ensures k < hi ==> t[k].Threw?
    ensures forall m :: lo <= m < k ==> !(t[m].Threw?)
    decreases hi - lo
  {
    if lo == hi then hi
    else if t[lo].Threw? then lo
    else FirstThrow(t, lo + 1, hi)
  }

  function Exactly(t: seq<Outcome<Value>>, n: nat, e: SoakEnd): Option<SoakEnd> {
    if |t| == n then Some(e) else None
  }

  /** The end of the loop entered with `i` when the sub-invocations it makes
      from there on have the outcomes `t[i..]`, for the bounds N of
      `iterations` and C of `concurrency` (`Values.Bound`); None when `t`
      is not exactly the sequence of invocations such a run makes (it
      stops short, or goes on past the run's end). */
  function Run(t: seq<Outcome<Value>>, i: nat, N: int, C: int): (r: Option<SoakEnd>)
    requires i <= |t|
    ensures r.Some? && r.value.Done? ==> r.value.errorCount <= 1
    decreases |t| - i
  {
    if N <= i then Exactly(t, i, Done(i, 0))
    // `j < concurrency` never holds, `i` never moves: the loop spins forever
    else if C < 1 then Exactly(t, i, Hung)
    else
      var stop := if i + C <= |t| then i + C else |t|;
      var k := FirstThrow(t, i, stop);
      if k < stop then Exactly(t, k + 1, Done(k, 1))
      else if |t| < i + C then None
      else match All(t[i..i + C])
        case Rejects => Exactly(t, i + C, Done(i + C, 1))
        case Stalls => Exactly(t, i + C, Hung)
        case Fulfils => Run(t, i + C, N, C)
  }

  /** The value of `i` after the loop entered with `i` runs with every
      sub-invocation succeeding: the first multiple of C past `i` that is
      not below N. */
  function PlannedFrom(i: int, N: int, C: int): (r: int)
    requires C >= 1
    ensures r >= i && r >= N
    ensures i < N ==> r >= i + C
    decreases N - i
  {
    if N <= i then i else PlannedFrom(i + C, N, C)
  }

  /** The number of sub-invocations counted when none fails. */
  function Planned(N: int, C: int): (r: nat)
    requires N <= 0 || C >= 1
    ensures N > 0 ==> r >= N
  {
    if N <= 0 then 0 else PlannedFrom(0, N, C)
  }

  lemma MulMono(a: int, b: int, c: int)
    requires a <= b && c >= 0
    ensures a * c <= b * c
  {
  }

  lemma {:induction false} PlannedFromMultiple(m: nat, q: nat, N: int, C: int)
    requires C >= 1 && N > 0 && q == (N + C - 1) / C && m <= q
    ensures PlannedFrom(m * C, N, C) == q * C
    decreases q - m
  {
    var r := (N + C - 1) % C;
    assert N + C - 1 == q * C + r && 0 <= r < C;
    assert (q - 1) * C == q * C - C;
    if m * C >= N {
      if m < q {
        MulMono(m, q - 1, C);
        assert false;
      }
    } else {
      assert m * C + C == (m + 1) * C;
      PlannedFromMultiple(m + 1, q, N, C);
    }
  }

  /** With every sub-invocation succeeding, the counter ends at
      ceil(N / C) * C, overshooting N when C does not divide it, and at 0
      when N <= 0. */
  lemma PlannedIsCeiling(N: int, C: int)
    requires C >= 1
    ensures Planned(N, C) == if N <= 0 then 0 else (N + C - 1) / C * C
  {
    if N > 0 {
      PlannedFromMultiple(0, (N + C - 1) / C, N, C);
    }
  }

  /** The run entered with `i` stopped in the batch that starts at
      `i + b * C`: every earlier invocation resolved; and either the last
      invocation threw synchronously (leaving the counter at its index),
      or the batch completed and some element of it rejected. */
  ghost predicate FailedBatch(t: seq<Outcome<Value>>, i: nat, b: nat, C: int, n: int) {
    var s := i + b * C;
    && s < |t| <= s + C
    && (forall k :: i <= k < s ==> t[k].Resolved?)
    && (forall k :: s <= k < |t| - 1 ==> !t[k].Threw?)
    && ((n == |t| - 1 && t[n].Threw?)
        || (n == |t| == s + C && !t[n - 1].Threw? && exists k :: s <= k < n && t[k].Rejected?))
  }

  /** The first batch of the run entered with `i` ends it: a synchronous
      throw, or a completed batch in which some element fails. */
  lemma FirstBatchFails(t: seq<Outcome<Value>>, i: nat, N: int, C: int, e: SoakEnd)
    requires C >= 1 && i < N && i <= |t| && Run(t, i, N, C) == Some(e)
    requires FirstThrow(t, i, if i + C <= |t| then i + C else |t|) < i + C || All(t[i..i + C]) == Rejects
    ensures e.Done? && e.errorCount == 1 && FailedBatch(t, i, 0, C, e.iterations)
  {
    var stop := if i + C <= |t| then i + C else |t|;
    var k := FirstThrow(t, i, stop);
    if k == stop {
      var batch := t[i..i + C];
      AllFate(batch);
      var m :| 0 <= m < |batch| && batch[m].Fails();
      assert t[i + m] == batch[m];
    }
  }

  lemma FailedBatchFails(t: seq<Outcome<Value>>, i: nat, b: nat, C: int, n: int)
    requires FailedBatch(t, i, b, C, n)
    ensures exists k :: 0 <= k < |t| && t[k].Fails()
  {
    if !(n == |t| - 1 && t[n].Threw?) {
      var k :| i + b * C <= k < n && t[k].Rejected?;
    }
  }

  /** The first batch of the run entered with `i` is complete, has no
      synchronous throw and does not reject. */
  lemma FirstBatchPasses(t: seq<Outcome<Value>>, i: nat, N: int, C: int)
    requires C >= 1 && i < N && i <= |t| && Run(t, i, N, C).Some?
    requires !(FirstThrow(t, i, if i + C <= |t| then i + C else |t|) < i + C || All(t[i..i + C]) == Rejects)
    ensures i + C <= |t|
    ensures All(t[i..i + C]) == Fulfils ==>
              (forall k :: i <= k < i + C ==> t[k].Resolved?) && Run(t, i, N, C) == Run(t, i + C, N, C)
    ensures All(t[i..i + C]) == Stalls ==>
              |t| == i + C && Run(t, i, N, C) == Some(Hung)
              && (forall k :: i <= k < i + C ==> !t[k].Fails()) && exists k :: i <= k < i + C && t[k].Pending?
  {
    var stop := if i + C <= |t| then i + C else |t|;
    assert FirstThrow(t, i, stop) == stop == i + C;
    var batch := t[i..i + C];
    AllFate(batch);
    assert forall m :: 0 <= m < C ==> batch[m] == t[i + m];
    if All(batch) == Fulfils {
      forall k | i <= k < i + C
        ensures t[k].Resolved?
      {
        assert t[k] == batch[k - i];
      }
      RunOneBatch(t, i, N, C);
    } else {
      assert Run(t, i, N, C) == Exactly(t, i + C, Hung);
      var m :| 0 <= m < |batch| && batch[m].Pending?;
      assert t[i + m].Pending?;
      forall k | i <= k < i + C
        ensures !t[k].Fails()
      {
        assert t[k] == batch[k - i];
      }
    }
  }

  /** The counters the run entered with `i` ends with. */
  lemma {:induction false} RunFacts(t: seq<Outcome<Value>>, i: nat, N: int, C: int, e: SoakEnd)
    requires C >= 1 && i <= |t| && Run(t, i, N, C) == Some(e)
    ensures e.Done? ==> i <= e.iterations <= |t| <= PlannedFrom(i, N, C)
    ensures e.Done? ==> e.errorCount == 0 || e.errorCount == 1
    ensures e.Done? && e.errorCount == 0 ==>
              e.iterations == |t| == PlannedFrom(i, N, C) && forall k :: i <= k < |t| ==> t[k].Resolved?
    decreases |t| - i
  {
    if N <= i {
      return;
    }
    var stop := if i + C <= |t| then i + C else |t|;
    if FirstThrow(t, i, stop) < i + C || All(t[i..i + C]) == Rejects {
      FirstBatchFails(t, i, N, C, e);
      return;
    }
    FirstBatchPasses(t, i, N, C);
    if All(t[i..i + C]) == Fulfils {
      RunFacts(t, i + C, N, C, e);
    }
  }

  /** The run entered with `i` never ends only when some invocation never
      settles and none fails. */
  lemma {:induction false} RunHangs(t: seq<Outcome<Value>>, i: nat, N: int, C: int)
    requires C >= 1 && i <= |t| && Run(t, i, N, C) == Some(Hung)
    ensures (forall k :: i <= k < |t| ==> !t[k].Fails()) && exists k :: i <= k < |t| && t[k].Pending?
    decreases |t| - i
  {
    var stop := if i + C <= |t| then i + C else |t|;
    if FirstThrow(t, i, stop) < i + C || All(t[i..i + C]) == Rejects {
      FirstBatchFails(t, i, N, C, Hung);
      return;
    }
    FirstBatchPasses(t, i, N, C);
    if All(t[i..i + C]) == Fulfils {
      RunHangs(t, i + C, N, C);
    }
  }

  /** A run entered with `i` that counts an error stopped in one of its
      batches, all before which resolved. */
  lemma {:induction false} RunFailure(t: seq<Outcome<Value>>, i: nat, N: int, C: int, n: nat)
    requires C >= 1 && i <= |t| && Run(t, i, N, C) == Some(Done(n, 1))
    ensures exists b: nat :: FailedBatch(t, i, b, C, n)
    decreases |t| - i
  {
    var stop := if i + C <= |t| then i + C else |t|;
    if FirstThrow(t, i, stop) < i + C || All(t[i..i + C]) == Rejects {
      FirstBatchFails(t, i, N, C, Done(n, 1));
      return;
    }
    var batch := t[i..i + C];
    AllFate(batch);
    RunFailure(t, i + C, N, C, n);
    var b: nat :| FailedBatch(t, i + C, b, C, n);
    assert i + C + b * C == i + (b + 1) * C;
    assert forall k :: i <= k < i + C ==> t[k] == batch[k - i];
    assert FailedBatch(t, i, b + 1, C, n);
  }

  /** A complete batch started below N whose elements all resolve hands
      the run on to the next batch. */
  lemma RunOneBatch(t: seq<Outcome<Value>>, i: nat, N: int, C: int)
    requires C >= 1 && i < N && i + C <= |t|
    requires forall k :: i <= k < i + C ==> t[k].Resolved?
    ensures Run(t, i, N, C) == Run(t, i + C, N, C)
  {
    assert FirstThrow(t, i, i + C) == i + C;
    var batch := t[i..i + C];
    AllFate(batch);
    assert forall k :: 0 <= k < C ==> batch[k] == t[i + k];
  }

  lemma BatchStep(i: int, m: nat, C: int, s: int)
    requires C >= 1 && m > 0 && s == i + m * C
    ensures s == (i + C) + (m - 1) * C && i <= i + (m - 1) * C
    ensures m > 1 ==> (i + C) + (m - 2) * C == i + (m - 1) * C
  {
    MulMono(0, m - 1, C);
  }

  /** The loop goes from `i` to `s` in whole batches of C, each started
      below N. */
  predicate WholeBatches(i: int, s: int, N: int, C: int)
    requires C >= 1
    decreases s - i
  {
    i == s || (i < N && i + C <= s && WholeBatches(i + C, s, N, C))
  }

  /** `m` batches, each started below N, lead from `i` to `i + m * C`. */
  lemma {:induction false} BatchesOf(i: int, m: nat, N: int, C: int)
    requires C >= 1 && (m > 0 ==> i + (m - 1) * C < N)
    ensures WholeBatches(i, i + m * C, N, C)
    decreases m
  {
    if m > 0 {
      BatchStep(i, m, C, i + m * C);
      BatchesOf(i + C, m - 1, N, C);
    }
  }

  /** Complete batches that all resolve, each started below N, carry the
      run from `i` to `s` unchanged. */
  lemma {:induction false} RunSkip(t: seq<Outcome<Value>>, i: nat, s: nat, N: int, C: int)
    requires C >= 1 && i <= s <= |t| && WholeBatches(i, s, N, C)
    requires forall k :: i <= k < s ==> t[k].Resolved?
    ensures Run(t, i, N, C) == Run(t, s, N, C)
    decreases s - i
  {
    if i < s {
      RunOneBatch(t, i, N, C);
      RunSkip(t, i + C, s, N, C);
    }
  }

  /** The run from the start reaches the batch that starts at `s == b * C`
      unchanged when every invocation before it resolved and every batch
      before it started below N. */
  lemma RunToBatch(t: seq<Outcome<Value>>, b: nat, s: nat, N: int, C: int)
    requires C >= 1 && s == b * C && s <= |t|
    requires b > 0 ==> s - C < N
    requires forall k :: 0 <= k < s ==> t[k].Resolved?
    ensures Run(t, 0, N, C) == Run(t, s, N, C)
  {
    BatchesOf(0, b, N, C);
    RunSkip(t, 0, s, N, C);
  }

  /** A synchronous throw at `s + j`, inside the batch that starts at `s`,
      ends the run with the counter at `s + j` and one error. */
  lemma RunThrowsInBatch(t: seq<Outcome<Value>>, s: nat, j: nat, N: int, C: int)
    requires C >= 1 && s < N && j < C && |t| == s + j + 1
    requires forall k :: s <= k < s + j ==> !t[k].Threw?
    requires t[s + j].Threw?
    ensures Run(t, s, N, C) == Some(Done(s + j, 1))
  {
    assert FirstThrow(t, s, |t|) == s + j;
  }

  /** A complete batch that starts at `s`, with no synchronous throw,
      ends the run when it does not fulfil: with one error when it
      rejects, never when it stalls. */
  lemma RunBatchEnds(t: seq<Outcome<Value>>, s: nat, N: int, C: int)
    requires C >= 1 && s < N && |t| == s + C
    requires forall k :: s <= k < s + C ==> !t[k].Threw?
    requires All(t[s..]) != Fulfils
    ensures Run(t, s, N, C) == Some(if All(t[s..]) == Rejects then Done(s + C, 1) else Hung)
  {
    assert FirstThrow(t, s, s + C) == s + C;
    assert t[s..s + C] == t[s..];
  }

  /** `t` is `b` complete batches, every one started below N and every
      invocation in them resolved: the state at the top of the loop. */
  ghost predicate Batches(t: seq<Outcome<Value>>, b: nat, N: int, C: int) {
    && C >= 1
    && |t| == b * C
    && (b > 0 ==> |t| - C < N)
    && forall k :: 0 <= k < |t| ==> t[k].Resolved?
  }

  /** A batch cut short by a synchronous throw ends the run there. */
  lemma BatchThrows(t: seq<Outcome<Value>>, batch: seq<Outcome<Value>>, b: nat, N: int, C: int)
    requires Batches(t, b, N, C) && |t| < N
    requires 1 <= |batch| <= C && batch[|batch| - 1].Threw?
    requires forall k :: 0 <= k < |batch| - 1 ==> !batch[k].Threw?
    ensures Run(t + batch, 0, N, C) == Some(Done(|t| + |batch| - 1, 1))
  {
    var u := t + batch;
    assert forall k :: |t| <= k < |u| ==> u[k] == batch[k - |t|];
    RunThrowsInBatch(u, |t|, |batch| - 1, N, C);
    RunToBatch(u, b, |t|, N, C);
  }

  /** A complete batch without a synchronous throw, once awaited: it ends
      the run when it rejects or stalls, and adds a batch otherwise. */
  lemma BatchAwaited(t: seq<Outcome<Value>>, batch: seq<Outcome<Value>>, b: nat, N: int, C: int)
    requires Batches(t, b, N, C) && |t| < N
    requires |batch| == C && forall k :: 0 <= k < C ==> !batch[k].Threw?
    ensures All(batch) == Fulfils ==> Batches(t + batch, b + 1, N, C)
    ensures All(batch) == Rejects ==> Run(t + batch, 0, N, C) == Some(Done(|t| + C, 1))
    ensures All(batch) == Stalls ==> Run(t + batch, 0, N, C) == Some(Hung)
  {
    var u := t + batch;
    assert u[|t|..] == batch;
    assert forall k :: |t| <= k < |u| ==> u[k] == batch[k - |t|];
    AllFate(batch);
    if All(batch) == Fulfils {
      assert (b + 1) * C == b * C + C;
    } else {
      RunBatchEnds(u, |t|, N, C);
      RunToBatch(u, b, |t|, N, C);
    }
  }

  /** The loop's exit: the batches made so far are the whole run. */
  lemma BatchesDone(t: seq<Outcome<Value>>, b: nat, N: int, C: int)
    requires Batches(t, b, N, C) && N <= |t|
    ensures Run(t, 0, N, C) == Some(Done(|t|, 0))
  {
    RunToBatch(t, b, |t|, N, C);
  }

  /** With every sub-invocation succeeding the loop ends with no error and
      with the counter at `Planned(N, C)`. */
  lemma {:induction false} RunResolved(t: seq<Outcome<Value>>, i: nat, N: int, C: int)
    requires C >= 1 && i <= |t| == PlannedFrom(i, N, C)
    requires forall k :: i <= k < |t| ==> t[k].Resolved?
    ensures Run(t, i, N, C) == Some(Done(|t|, 0))
    decreases |t| - i
  {
    if i < N {
      var batch := t[i..i + C];
      AllFate(batch);
      RunResolved(t, i + C, N, C);
    }
  }

  /** When no sub-invocation fails, the soak ends with `errorCount == 0` and
      `i == Planned(N, C)`; the sub-invocations made are exactly that many. */
  lemma SoakWithoutFailures(v: Value, N: int, C: int)
    requires N <= 0 || C >= 1
    ensures var t := seq(Planned(N, C), _ => Resolved(v));
            Run(t, 0, N, C) == Some(Done(Planned(N, C), 0))
  {
    if N > 0 {
      RunResolved(seq(Planned(N, C), _ => Resolved(v)), 0, N, C);
    }
  }

  /** `errorCount` is 0 or 1; it is 0 exactly when every sub-invocation
      made resolved, and then the counter is `Planned(N, C)`. */
  lemma SoakErrorCount(t: seq<Outcome<Value>>, N: int, C: int, n: nat, e: nat)
    requires Run(t, 0, N, C) == Some(Done(n, e))
    ensures e == 0 || e == 1
    ensures e == 0 <==> forall k :: 0 <= k < |t| ==> t[k].Resolved?
    ensures e == 0 ==> (N <= 0 || C >= 1) && n == |t| == Planned(N, C)
  {
    if 0 < N {
      RunFacts(t, 0, N, C, Done(n, e));
      if e == 1 {
        RunFailure(t, 0, N, C, n);
        var b: nat :| FailedBatch(t, 0, b, C, n);
        FailedBatchFails(t, 0, b, C, n);
      }
    }
  }

  /** A failing batch ends the soak: no batch is issued after the one that
      holds the first failure, that batch starts at a multiple of C, and the
      counter stops at the synchronous throw or at the batch's end. */
  lemma SoakStopsAtFailingBatch(t: seq<Outcome<Value>>, N: int, C: int, n: nat)
    requires Run(t, 0, N, C) == Some(Done(n, 1))
    ensures 0 < N && C >= 1
    ensures n <= |t| <= Planned(N, C)
    ensures exists b: nat :: FailedBatch(t, 0, b, C, n)
  {
    RunFacts(t, 0, N, C, Done(n, 1));
    RunFailure(t, 0, N, C, n);
  }

  /** The soak never settles only when the per-batch count C is below 1
      while N > 0, or when some sub-invocation never settles and none
      fails. */
  lemma SoakHangs(t: seq<Outcome<Value>>, N: int, C: int)
    requires Run(t, 0, N, C) == Some(Hung)
    ensures (0 < N && C < 1 && t == [])
            || (C >= 1 && (forall k :: 0 <= k < |t| ==> !t[k].Fails()) && exists k :: 0 <= k < |t| && t[k].Pending?)
  {
    if C >= 1 {
      RunHangs(t, 0, N, C);
    }
  }

  /** A sub-method that always succeeds: the soak ends with no error and
      the counter at `Planned(N, C)`, or never ends when C < 1. */
  lemma SoakOfResolved(t: seq<Outcome<Value>>, N: int, C: int, end: SoakEnd)
    requires Run(t, 0, N, C) == Some(end)
    requires forall k :: 0 <= k < |t| ==> t[k].Resolved?
    ensures (N <= 0 || C >= 1) ==> end == Done(Planned(N, C), 0)
    ensures 0 < N && C < 1 ==> end == Hung
  {
    if end.Hung? {
      if C >= 1 {
        RunHangs(t, 0, N, C);
        assert false;
      }
    } else {
      SoakErrorCount(t, N, C, end.iterations, end.errorCount);
    }
  }

  /** A sub-method that always throws synchronously: the soak makes one
      invocation and ends with `iterations == 0` and one error. */
  lemma SoakOfThrowing(t: seq<Outcome<Value>>, N: int, C: int, end: SoakEnd)
    requires Run(t, 0, N, C) == Some(end) && 0 < N && C >= 1
    requires forall k :: 0 <= k < |t| ==> t[k].Threw?
    ensures end == Done(0, 1) && |t| == 1
  {
  }

  /** The counters the handler reports, with `durationMs` already clamped. */
  datatype SoakReport = SoakReport(iterations: int, startTime: int, durationMs: int, errorCount: int)

  /** `durationMs = Math.max(1, now - startTime)` and the report around it. */
  function Summarise(iterations: int, startTime: int, now: int, errorCount: int): (r: SoakReport)
    ensures r.durationMs >= 1 && r.durationMs >= now - startTime
    ensures now - startTime >= 1 ==> r.durationMs == now - startTime
    ensures now - startTime < 1 ==> r.durationMs == 1
    ensures r.iterations == iterations && r.startTime == startTime && r.errorCount == errorCount
  {
    SoakReport(iterations, startTime, if now - startTime < 1 then 1 else now - startTime, errorCount)
  }

  /** The object the handler resolves with: `ratePerSecond` is
      `iterations * 1000 / durationMs` and `errorRate` is
      `errorCount / iterations`, both as exact quotients. */
  function ReportValue(r: SoakReport): (v: Value)
    requires r.iterations >= 0 && r.durationMs >= 1
    ensures v.Record? && v.fields.Keys == {"iterations", "startTime", "durationMs", "ratePerSecond", "errorCount", "errorRate"}
    ensures v.fields["iterations"] == Num(r.iterations) && v.fields["errorCount"] == Num(r.errorCount)
    ensures v.fields["startTime"] == Num(r.startTime) && v.fields["durationMs"] == Num(r.durationMs)
    ensures v.fields["ratePerSecond"] == Quotient(r.iterations * 1000, r.durationMs)
    ensures v.fields["errorRate"] == Quotient(r.errorCount, r.iterations)
    ensures r.iterations > 0 ==> Positive(v.fields["ratePerSecond"])
    ensures r.iterations > 0 && r.errorCount == 0 ==> v.fields["errorRate"] == Num(0)
    ensures r.iterations == 0 ==> v.fields["ratePerSecond"] == Num(0) && v.fields["errorRate"] == Rational(r.errorCount, 0)
  {
    Record(map[
      "iterations" := Num(r.iterations),
      "startTime" := Num(r.startTime),
      "durationMs" := Num(r.durationMs),
      "ratePerSecond" := Quotient(r.iterations * 1000, r.durationMs),
      "errorCount" := Num(r.errorCount),
      "errorRate" := Quotient(r.errorCount, r.iterations)])
  }

  predicate Positive(v: Value) {
    (v.Num? && v.n > 0) || (v.Rational? && v.num > 0 && v.den > 0)
  }
}
