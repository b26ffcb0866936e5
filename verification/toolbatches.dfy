/** `partition_tool_batches` and `execute_tools`: group calls into batches, run them batch by batch, and
    stop after a fatal one. */
module ToolBatches {
  import opened Basics
  import opened Messages

  /** One tool call requested by the model. */
  datatype Call = Call(id: string, name: string, arguments: string)

  datatype ToolEvent = ToolEvent(name: string, status: string, detail: string)

  /** What running one call yields; `fatal` only when the run is set to fail on tool errors. */
  datatype Outcome = Outcome(result: Json, event: ToolEvent, fatal: Option<string>)

  /** Which tools exist and may run alongside others. */
  type Safety = string -> bool

  predicate AllSafe(safe: Safety, calls: seq<Call>) {
    forall c :: c in calls ==> safe(c.name)
  }

  predicate SingleUnsafe(safe: Safety, calls: seq<Call>) {
    |calls| == 1 && !safe(calls[0].name)
  }

  /** Every batch is a non-empty run of safe calls or one unsafe call, and no run could be longer. */
  predicate Grouped(safe: Safety, batches: seq<seq<Call>>) {
    && (forall b :: b in batches ==> b != [] && (AllSafe(safe, b) || SingleUnsafe(safe, b)))
    && (forall i :: 0 <= i < |batches| - 1 ==> SingleUnsafe(safe, batches[i]) || SingleUnsafe(safe, batches[i + 1]))
  }

  predicate Singletons(batches: seq<seq<Call>>) {
    forall b :: b in batches ==> |b| == 1
  }

  method PartitionToolBatches(concurrent: bool, safe: Safety, calls: seq<Call>) returns (batches: seq<seq<Call>>)
    ensures Flatten(batches) == calls
    ensures !concurrent ==> Singletons(batches)
    ensures concurrent ==> Grouped(safe, batches)
  {
    if !concurrent {
      SinglesFlat(calls);
      return Singles(calls);
    }
    hide Grouped, Flatten, Singletons;
    batches := [];
    var current: seq<Call> := [];
    NoBatches(safe);
    for i := 0 to |calls|
      invariant Flatten(batches) + current == calls[..i]
      invariant Grouped(safe, batches) && AllSafe(safe, current)
      invariant batches != [] ==> SingleUnsafe(safe, batches[|batches| - 1])
    {
      var tc := calls[i];
      SplitAt(calls, i);
      if safe(tc.name) {
        assert Flatten(batches) + (current + [tc]) == (Flatten(batches) + current) + [tc];
        current := current + [tc];
        continue;
      }
      if current != [] {
        FlattenSnoc(batches, current);
        GroupedSnoc(safe, batches, current);
        batches := batches + [current];
        current := [];
      }
      FlattenSnoc(batches, [tc]);
      GroupedSnoc(safe, batches, [tc]);
      batches := batches + [[tc]];
    }
    if current != [] {
      FlattenSnoc(batches, current);
      GroupedSnoc(safe, batches, current);
      batches := batches + [current];
    }
    assert calls[..|calls|] == calls;
  }

  lemma NoBatches(safe: Safety)
    ensures Flatten<Call>([]) == [] && Grouped(safe, [])
  {
  }

  lemma GroupedSnoc(safe: Safety, batches: seq<seq<Call>>, b: seq<Call>)
    requires Grouped(safe, batches) && b != []
    requires SingleUnsafe(safe, b) ||
             (AllSafe(safe, b) && (batches != [] ==> SingleUnsafe(safe, batches[|batches| - 1])))
    ensures Grouped(safe, batches + [b])
  {
    hide AllSafe, SingleUnsafe;
  }

  // ---- Execution ----

  function SafeRunEnd(safe: Safety, calls: seq<Call>, i: nat): (e: nat)
    ensures i <= |calls| ==> i <= e <= |calls|
    decreases |calls| - i
  {
    if i < |calls| && safe(calls[i].name) then SafeRunEnd(safe, calls, i + 1) else i
  }

  /** End of the batch that call `i` belongs to. */
  function BatchEnd(concurrent: bool, safe: Safety, calls: seq<Call>, i: nat): (e: nat)
    requires i < |calls|
    ensures e <= |calls|
  {
    if concurrent && safe(calls[i].name) then SafeRunEnd(safe, calls, i) else i + 1
  }

  /** First fatal call from `i` on, or `n`. */
  function FirstFatal(exec: nat -> Outcome, n: nat, i: nat): nat
    decreases n - i
  {
    if i < n && exec(i).fatal.None? then FirstFatal(exec, n, i + 1) else i
  }

  function LastFatal(exec: nat -> Outcome, lo: nat, hi: nat): Option<string>
    decreases hi - lo
  {
    if hi <= lo then None
    else if exec(hi - 1).fatal.Some? then exec(hi - 1).fatal
    else LastFatal(exec, lo, hi - 1)
  }

  /** How many calls are run: all of them, or those up to the end of the batch with the first fatal one. */
  function ExecutedCount(concurrent: bool, safe: Safety, calls: seq<Call>, exec: nat -> Outcome): (n: nat)
    ensures n <= |calls|
  {
    var f := FirstFatal(exec, |calls|, 0);
    if f < |calls| then BatchEnd(concurrent, safe, calls, f) else |calls|
  }

  function Results(exec: nat -> Outcome, n: nat): (r: seq<Json>)
    ensures |r| == n && forall k :: 0 <= k < n ==> r[k] == exec(k).result
  {
    if n == 0 then [] else Results(exec, n - 1) + [exec(n - 1).result]
  }

  function Events(exec: nat -> Outcome, n: nat): (r: seq<ToolEvent>)
    ensures |r| == n && forall k :: 0 <= k < n ==> r[k] == exec(k).event
  {
    if n == 0 then [] else Events(exec, n - 1) + [exec(n - 1).event]
  }

  /** `exec(k)` is what running the k-th call yields. Results and events line up with a prefix of the
      calls: all of them if none is fatal, else up to the end of the first failing batch. */
  method ExecuteTools(concurrent: bool, safe: Safety, calls: seq<Call>, exec: nat -> Outcome)
    returns (results: seq<Json>, events: seq<ToolEvent>, fatal: Option<string>)
    ensures |results| == |events| == ExecutedCount(concurrent, safe, calls, exec) && |results| <= |calls|
    ensures forall k :: 0 <= k < |results| ==> results[k] == exec(k).result && events[k] == exec(k).event
    ensures results == Results(exec, |results|) && events == Events(exec, |results|)
    ensures fatal == LastFatal(exec, 0, |results|)
    ensures fatal.None? <==> FirstFatal(exec, |calls|, 0) == |calls|
    ensures fatal.None? ==> |results| == |calls|
    ensures calls != [] ==> results != []
  {
    hide *;
    var batches := PartitionToolBatches(concurrent, safe, calls);
    results, events, fatal := [], [], None;
    NothingExecuted(exec, batches);
    assert batches[0..] == batches;
    for j := 0 to |batches|
      invariant |results| <= |calls| && Flatten(batches[j..]) == calls[|results|..]
      invariant results == Results(exec, |results|) && events == Events(exec, |results|)
      invariant fatal.None? && FirstFatal(exec, |calls|, 0) == FirstFatal(exec, |calls|, |results|)
      invariant LastFatal(exec, 0, |results|).None?
      invariant if concurrent then Grouped(safe, batches[j..]) else Singletons(batches)
    {
      var batch := batches[j];
      ghost var pos := |results|;
      BatchBounds(concurrent, safe, calls, batches, j, pos);
      results, events, fatal := RunBatch(concurrent && |batch| > 1, |batch|, exec, results, events);
      FatalInBatch(exec, |calls|, pos, |results|);
      LastFatalConcat(exec, pos, |results|);
      if fatal.Some? {
        FailedBatch(concurrent, safe, calls, exec, pos, pos + |batch|, |results|);
        return;
      }
    }
    AllBatchesDone(exec, calls, |results|, batches);
    Finished(concurrent, safe, calls, exec);
  }

  /** Some call is run if there is one, and all are run if none of those run is fatal. */
  lemma RanCounts(concurrent: bool, safe: Safety, calls: seq<Call>, exec: nat -> Outcome)
    requires calls != []
    ensures var n := ExecutedCount(concurrent, safe, calls, exec);
            0 < n && (LastFatal(exec, 0, n).None? ==> n == |calls|)
  {
    hide SafeRunEnd;
    var f := FirstFatal(exec, |calls|, 0);
    FirstFatalIs(exec, |calls|, 0);
    if f < |calls| {
      var n := ExecutedCount(concurrent, safe, calls, exec);
      BatchEndAfter(concurrent, safe, calls, f);
      FatalSeen(exec, 0, n, f);
    }
  }

  /** Which calls are run, call by call: up to the first fatal one, `f`, and beyond it only safe calls that
      run together with it and are not followed by another safe call; all of them if none is fatal. The error
      reported is that of the last fatal call run. */
  lemma ExecutedCountIs(concurrent: bool, safe: Safety, calls: seq<Call>, exec: nat -> Outcome)
    ensures var n := ExecutedCount(concurrent, safe, calls, exec);
            && (n < |calls| ==> exists f :: 0 <= f < n && exec(f).fatal.Some?)
            && (forall f ::
                  0 <= f < |calls| && exec(f).fatal.Some? && (forall k :: 0 <= k < f ==> exec(k).fatal.None?) ==>
                  && f < n && (n > f + 1 ==> concurrent)
                  && (n > f + 1 ==> forall k :: f <= k < n ==> safe(calls[k].name))
                  && (concurrent && safe(calls[f].name) ==> n == |calls| || !safe(calls[n].name)))
            && (LastFatal(exec, 0, n).None? <==> forall k :: 0 <= k < |calls| ==> exec(k).fatal.None?)
  {
    hide SafeRunEnd, LastFatal;
    var n := ExecutedCount(concurrent, safe, calls, exec);
    var first := FirstFatal(exec, |calls|, 0);
    FirstFatalIs(exec, |calls|, 0);
    if first < |calls| {
      BatchEndAfter(concurrent, safe, calls, first);
      SafeRunIsSafe(safe, calls, first);
      FatalSeen(exec, 0, n, first);
    } else {
      NoneFatal(exec, n);
    }
  }

  /** The calls of a safe run are safe, and the run ends before an unsafe call or with the list. */
  lemma {:induction false} SafeRunIsSafe(safe: Safety, calls: seq<Call>, i: nat)
    requires i <= |calls|
    ensures var e := SafeRunEnd(safe, calls, i);
            (forall k :: i <= k < e ==> safe(calls[k].name)) && (e < |calls| ==> !safe(calls[e].name))
    decreases |calls| - i
  {
    if i < |calls| && safe(calls[i].name) {
      SafeRunIsSafe(safe, calls, i + 1);
    }
  }

  lemma {:induction false} NoneFatal(exec: nat -> Outcome, n: nat)
    requires forall k :: 0 <= k < n ==> exec(k).fatal.None?
    ensures LastFatal(exec, 0, n).None?
  {
    if n > 0 {
      NoneFatal(exec, n - 1);
    }
  }

  /** The error reported belongs to a fatal call after which no other was run. */
  lemma {:induction false} LastFatalIs(exec: nat -> Outcome, n: nat) returns (k: nat)
    requires LastFatal(exec, 0, n).Some?
    ensures k < n && exec(k).fatal == LastFatal(exec, 0, n) && forall j :: k < j < n ==> exec(j).fatal.None?
  {
    if exec(n - 1).fatal.Some? {
      k := n - 1;
    } else {
      k := LastFatalIs(exec, n - 1);
    }
  }

  lemma {:induction false} FirstFatalIs(exec: nat -> Outcome, n: nat, i: nat)
    ensures var f := FirstFatal(exec, n, i);
            && i <= f && (i <= n ==> f <= n) && (f < n ==> exec(f).fatal.Some?)
            && forall k :: i <= k < f && k < n ==> exec(k).fatal.None?
    decreases n - i
  {
    if i < n && exec(i).fatal.None? {
      FirstFatalIs(exec, n, i + 1);
    }
  }

  lemma BatchEndAfter(concurrent: bool, safe: Safety, calls: seq<Call>, i: nat)
    requires i < |calls|
    ensures i < BatchEnd(concurrent, safe, calls, i)
  {
    if concurrent && safe(calls[i].name) {
      assert SafeRunEnd(safe, calls, i) == SafeRunEnd(safe, calls, i + 1) >= i + 1;
    }
  }

  lemma {:induction false} FatalSeen(exec: nat -> Outcome, lo: nat, hi: nat, f: nat)
    requires lo <= f < hi && exec(f).fatal.Some?
    ensures LastFatal(exec, lo, hi).Some?
    decreases hi
  {
    if f < hi - 1 && exec(hi - 1).fatal.None? {
      FatalSeen(exec, lo, hi - 1, f);
    }
  }

  lemma NothingExecuted(exec: nat -> Outcome, batches: seq<seq<Call>>)
    ensures Results(exec, 0) == [] && Events(exec, 0) == [] && LastFatal(exec, 0, 0).None?
  {
  }

  lemma AllBatchesDone(exec: nat -> Outcome, calls: seq<Call>, n: nat, batches: seq<seq<Call>>)
    requires n <= |calls| && Flatten(batches[|batches|..]) == calls[n..]
    ensures n == |calls|
  {
    assert batches[|batches|..] == [];
  }

  lemma Finished(concurrent: bool, safe: Safety, calls: seq<Call>, exec: nat -> Outcome)
    requires FirstFatal(exec, |calls|, 0) == FirstFatal(exec, |calls|, |calls|)
    ensures FirstFatal(exec, |calls|, 0) == |calls|
    ensures ExecutedCount(concurrent, safe, calls, exec) == |calls|
  {
  }

  /** A single batch, run concurrently to its end or sequentially up to the first fatal call. */
  method RunBatch(together: bool, size: nat, exec: nat -> Outcome, results0: seq<Json>, events0: seq<ToolEvent>)
    returns (results: seq<Json>, events: seq<ToolEvent>, fatal: Option<string>)
    requires results0 == Results(exec, |results0|) && events0 == Events(exec, |results0|) && size > 0
    ensures |results0| < |results| <= |results0| + size && |events| == |results|
    ensures results == Results(exec, |results|) && events == Events(exec, |results|)
    ensures fatal == LastFatal(exec, |results0|, |results|)
    ensures fatal.None? || together ==> |results| == |results0| + size
    ensures forall k :: 0 <= k < |results| ==> results[k] == exec(k).result && events[k] == exec(k).event
  {
    hide Results, Events, LastFatal;
    results, events, fatal := results0, events0, None;
    NoFatalYet(exec, |results0|);
    for k := 0 to size
      invariant |results| == |results0| + k
      invariant results == Results(exec, |results|) && events == Events(exec, |results|)
      invariant fatal == LastFatal(exec, |results0|, |results|)
      invariant !together ==> fatal.None?
    {
      var n := |results|;
      OneMore(exec, |results0|, n);
      var outcome := exec(n);
      results := results + [outcome.result];
      events := events + [outcome.event];
      if outcome.fatal.Some? {
        fatal := outcome.fatal;
        if !together {
          break;
        }
      }
    }
  }

  lemma NoFatalYet(exec: nat -> Outcome, n: nat)
    ensures LastFatal(exec, n, n).None?
  {
  }

  lemma OneMore(exec: nat -> Outcome, lo: nat, n: nat)
    requires lo <= n
    ensures Results(exec, n + 1) == Results(exec, n) + [exec(n).result]
    ensures Events(exec, n + 1) == Events(exec, n) + [exec(n).event]
    ensures LastFatal(exec, lo, n + 1) == if exec(n).fatal.Some? then exec(n).fatal else LastFatal(exec, lo, n)
  {
  }

  /** The first batch of a grouping is the maximal run at the front of the calls, or one unsafe call. */
  lemma FirstBatchLength(safe: Safety, p: seq<seq<Call>>)
    requires Grouped(safe, p) && p != []
    ensures |p[0]| <= |Flatten(p)| && p[0] == Flatten(p)[..|p[0]|] && Flatten(p[1..]) == Flatten(p)[|p[0]|..]
    ensures Flatten(p) != [] && forall f :: 0 <= f < |p[0]| ==> BatchEnd(true, safe, Flatten(p), f) == |p[0]|
  {
    hide Flatten, Grouped, AllSafe, SingleUnsafe, SafeRunEnd;
    var first, rest, flat := p[0], p[1..], Flatten(p);
    FlattenHead(p);
    BatchKinds(safe, p);
    assert flat[..|first|] == first && flat[|first|..] == Flatten(rest);
    if AllSafe(safe, first) {
      if |first| < |flat| {
        assert flat[|first|] == Flatten(rest)[0];
        AfterSafeBatch(safe, p);
      }
      RunEndsWithBatch(safe, first, flat);
    }
  }

  lemma BatchKinds(safe: Safety, p: seq<seq<Call>>)
    requires Grouped(safe, p) && p != []
    ensures p[0] != [] && (AllSafe(safe, p[0]) || (|p[0]| == 1 && !safe(p[0][0].name)))
  {
    assert p[0] in p;
  }

  /** What follows a batch of safe calls is unsafe. */
  lemma AfterSafeBatch(safe: Safety, p: seq<seq<Call>>)
    requires Grouped(safe, p) && p != [] && AllSafe(safe, p[0]) && Flatten(p[1..]) != []
    ensures !safe(Flatten(p[1..])[0].name)
  {
    var rest := p[1..];
    EmptyFlatten<Call>();
    FlattenHead(rest);
    assert p[0] in p && p[0][0] in p[0] && rest[0] == p[1];
    assert SingleUnsafe(safe, p[0]) || SingleUnsafe(safe, p[1]);
  }

  lemma RunEndsWithBatch(safe: Safety, first: seq<Call>, flat: seq<Call>)
    requires AllSafe(safe, first) && |first| <= |flat| && flat[..|first|] == first
    requires |first| < |flat| ==> !safe(flat[|first|].name)
    ensures forall f :: 0 <= f < |first| ==> BatchEnd(true, safe, flat, f) == |first|
  {
    hide SafeRunEnd;
    assert forall k :: 0 <= k < |first| ==> flat[k] == first[k] && first[k] in first;
    forall f | 0 <= f < |first| ensures BatchEnd(true, safe, flat, f) == |first| {
      SafeRunEndIs(safe, flat, f, |first|);
    }
  }

  lemma GroupedTail(safe: Safety, p: seq<seq<Call>>)
    requires Grouped(safe, p) && p != []
    ensures Grouped(safe, p[1..])
  {
    hide AllSafe, SingleUnsafe;
    var q := p[1..];
    assert forall b :: b in q ==> b in p;
    forall i | 0 <= i < |q| - 1 ensures SingleUnsafe(safe, q[i]) || SingleUnsafe(safe, q[i + 1]) {
      assert q[i] == p[i + 1] && q[i + 1] == p[i + 1 + 1];
    }
  }

  /** The grouping rule leaves no choice: a call list has one grouped partition only. */
  lemma {:induction false} GroupingIsUnique(safe: Safety, p: seq<seq<Call>>, q: seq<seq<Call>>)
    requires Grouped(safe, p) && Grouped(safe, q) && Flatten(p) == Flatten(q)
    ensures p == q
  {
    hide *;
    EmptyFlatten<Call>();
    if p != [] {
      FirstBatchLength(safe, p);
    }
    if q != [] {
      FirstBatchLength(safe, q);
    }
    if p != [] && q != [] {
      assert |p[0]| == |q[0]| by {
        FirstBatchNonEmpty(safe, p);
        FirstBatchNonEmpty(safe, q);
        assert BatchEnd(true, safe, Flatten(p), 0) == |p[0]| && BatchEnd(true, safe, Flatten(q), 0) == |q[0]|;
      }
      GroupedTail(safe, p);
      GroupedTail(safe, q);
      GroupingIsUnique(safe, p[1..], q[1..]);
      assert p == [p[0]] + p[1..] && q == [q[0]] + q[1..];
    }
  }

  lemma FirstBatchNonEmpty(safe: Safety, p: seq<seq<Call>>)
    requires Grouped(safe, p) && p != []
    ensures p[0] != []
  {
    assert p[0] in p;
  }

  /** The `j`-th batch covers the calls from `pos` on, and ends where each of them says it does. */
  lemma BatchBounds(concurrent: bool, safe: Safety, calls: seq<Call>, batches: seq<seq<Call>>, j: nat, pos: nat)
    requires j < |batches| && pos <= |calls| && Flatten(batches[j..]) == calls[pos..]
    requires if concurrent then Grouped(safe, batches[j..]) else Singletons(batches)
    ensures var end := pos + |batches[j]|;
            && pos < end <= |calls| && Flatten(batches[j + 1..]) == calls[end..]
            && (!(concurrent && |batches[j]| > 1) ==> end == pos + 1)
            && (concurrent ==> Grouped(safe, batches[j + 1..]))
            && forall f :: pos <= f < end ==> BatchEnd(concurrent, safe, calls, f) == end
  {
    hide *;
    var p := batches[j..];
    SplitAt(batches, j);
    FlattenHead(p);
    var end := pos + |batches[j]|;
    SuffixOfSuffix(calls, pos, |batches[j]|);
    assert p[0] == batches[j] && Flatten(p)[|p[0]|..] == Flatten(p[1..]);
    if concurrent {
      FirstBatchNonEmpty(safe, p);
      FirstBatchLength(safe, p);
      GroupedTail(safe, p);
      forall f | pos <= f < end ensures BatchEnd(concurrent, safe, calls, f) == end {
        BatchEndShift(safe, calls, pos, f - pos);
      }
    } else {
      SingletonBounds(safe, calls, batches, j);
    }
  }

  lemma SingletonBounds(safe: Safety, calls: seq<Call>, batches: seq<seq<Call>>, j: nat)
    requires j < |batches| && Singletons(batches)
    ensures |batches[j]| == 1 && forall f :: 0 <= f < |calls| ==> BatchEnd(false, safe, calls, f) == f + 1
  {
    assert batches[j] in batches;
  }

  lemma BatchEndShift(safe: Safety, calls: seq<Call>, pos: nat, f: nat)
    requires pos + f < |calls|
    ensures BatchEnd(true, safe, calls, pos + f) == pos + BatchEnd(true, safe, calls[pos..], f)
  {
    SafeRunEndShift(safe, calls, pos, f);
  }

  lemma {:induction false} SafeRunEndShift(safe: Safety, calls: seq<Call>, pos: nat, i: nat)
    requires pos + i <= |calls|
    ensures SafeRunEnd(safe, calls, pos + i) == pos + SafeRunEnd(safe, calls[pos..], i)
    decreases |calls| - i
  {
    if pos + i < |calls| && safe(calls[pos + i].name) {
      SafeRunEndShift(safe, calls, pos, i + 1);
    }
  }

  lemma {:induction false} SafeRunEndIs(safe: Safety, calls: seq<Call>, i: nat, end: nat)
    requires i <= end <= |calls| && (forall k :: i <= k < end ==> safe(calls[k].name))
    requires end < |calls| ==> !safe(calls[end].name)
    ensures SafeRunEnd(safe, calls, i) == end
    decreases end - i
  {
    if i < end {
      SafeRunEndIs(safe, calls, i + 1, end);
    }
  }

  /** The first fatal call of a batch, if it has one, is the first of the rest of the list. */
  lemma {:induction false} FatalInBatch(exec: nat -> Outcome, n: nat, lo: nat, hi: nat)
    requires lo <= hi <= n
    ensures LastFatal(exec, lo, hi).None? ==> FirstFatal(exec, n, lo) == FirstFatal(exec, n, hi)
    ensures LastFatal(exec, lo, hi).Some? ==> lo <= FirstFatal(exec, n, lo) < hi
    decreases hi - lo
  {
    if lo < hi {
      LastFatalFront(exec, lo, hi);
      if exec(lo).fatal.None? {
        FatalInBatch(exec, n, lo + 1, hi);
      }
    }
  }

  lemma {:induction false} LastFatalFront(exec: nat -> Outcome, lo: nat, hi: nat)
    requires lo < hi
    ensures LastFatal(exec, lo, hi).None? <==> exec(lo).fatal.None? && LastFatal(exec, lo + 1, hi).None?
    decreases hi - lo
  {
    if lo + 1 < hi {
      LastFatalFront(exec, lo, hi - 1);
    }
  }

  lemma {:induction false} LastFatalConcat(exec: nat -> Outcome, lo: nat, hi: nat)
    requires lo <= hi && LastFatal(exec, 0, lo).None?
    ensures LastFatal(exec, 0, hi) == LastFatal(exec, lo, hi)
    decreases hi
  {
    if lo < hi {
      LastFatalConcat(exec, lo, hi - 1);
    }
  }

  lemma FailedBatch(concurrent: bool, safe: Safety, calls: seq<Call>, exec: nat -> Outcome, pos: nat, end: nat, n: nat)
    requires pos < n == end <= |calls|
    requires FirstFatal(exec, |calls|, 0) == FirstFatal(exec, |calls|, pos)
    requires pos <= FirstFatal(exec, |calls|, pos) < n
    requires forall f :: pos <= f < end ==> BatchEnd(concurrent, safe, calls, f) == end
    ensures ExecutedCount(concurrent, safe, calls, exec) == n
    ensures FirstFatal(exec, |calls|, 0) < |calls|
  {
  }
}
