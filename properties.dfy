/**
 * The dispatch gate on one item, and what each of the two dispatch loops does
 * to the items it listed: which items it dispatches, where it stops and with
 * which error, and which writes it makes.
 */
module ControllerProperties {
  import opened Wrappers
  import opened Api
  import opened Strategy
  import opened Cluster
  import opened Controller

  // ---------------------------------------------------------------------------
  // The dispatch gate on one item

  /** A test case passes the gate: its strategy resolves, says it should run, and it is not dispatched yet. */
  ghost predicate CaseEligible<S>(tc: TestCase, providers: Registry<S>, state: S)
  {
    var p := TestCaseFor(tc.spec.strategy, providers);
    p.Ok? && p.value(state) && tc.status.dispatchedAt.None?
  }

  ghost predicate WorkerEligible<S>(tw: TestWorker, providers: Registry<S>, state: S)
  {
    var p := TestWorkerFor(tw.strategy, providers);
    p.Ok? && p.value(state) && tw.status.dispatchedAt.None?
  }

  /** What a pass that examines `tc` makes of it. */
  ghost function CaseAfterGate<S>(tc: TestCase, providers: Registry<S>, state: S, now: string): TestCase
  {
    if CaseEligible(tc, providers, state) then DispatchCase(tc, now) else tc
  }

  ghost function WorkerAfterGate<S>(tw: TestWorker, providers: Registry<S>, state: S, now: string): TestWorker
  {
    if WorkerEligible(tw, providers, state) then DispatchWorker(tw, now) else tw
  }

  /** `after` is `before`, or `before` dispatched because it passed the gate. */
  ghost predicate CaseSettled<S>(before: TestCase, after: TestCase, providers: Registry<S>, state: S, now: string)
  {
    after == before || (CaseEligible(before, providers, state) && after == DispatchCase(before, now))
  }

  ghost predicate WorkerSettled<S>(before: TestWorker, after: TestWorker, providers: Registry<S>, state: S, now: string)
  {
    after == before || (WorkerEligible(before, providers, state) && after == DispatchWorker(before, now))
  }

  // ---------------------------------------------------------------------------
  // The dispatch loops

  /** The status write that dispatches one of `items` that passed the gate. */
  ghost predicate CaseWriteOf<S>(items: seq<TestCase>, e: Write, providers: Registry<S>, state: S, now: string)
  {
    exists j :: 0 <= j < |items| && CaseEligible(items[j], providers, state)
                && e == CaseStatus(items[j].name, DispatchCase(items[j], now).status)
  }

  /**
   * The test case loop, started on `w` and ending in `r`, stopped at item `k`:
   * the items before it resolved and went through the gate, it and the items
   * after it are as listed, and it is where the loop returns: its strategy did
   * not resolve and the loop returns that error, or it passed the gate and its
   * status update, a call of this loop, failed.
   */
  ghost predicate CasesStoppedAt<S>(items: seq<TestCase>, k: nat, providers: Registry<S>, state: S, now: string,
                                    faults: map<nat, string>, w: World, r: (Option<string>, World))
    requires |r.1.testCases| == |items|
  {
    var (err, w') := r;
    && k < |items|
    && (forall j :: 0 <= j < k ==> TestCaseFor(items[j].spec.strategy, providers).Ok?)
    && (forall j :: 0 <= j < k ==> w'.testCases[j] == CaseAfterGate(items[j], providers, state, now))
    && (forall j :: k <= j < |items| ==> w'.testCases[j] == items[j])
    && ((TestCaseFor(items[k].spec.strategy, providers).Err?
         && err == Some(TestCaseFor(items[k].spec.strategy, providers).error))
        || (CaseEligible(items[k], providers, state)
            && err == Some("error dispatching TestCase " + items[k].name)
            && w.calls < w'.calls && w'.calls - 1 in faults))
  }

  /** What the test case loop over the first `n` of `items`, started on world `w`, has done in `r`. */
  ghost predicate CasesLoopDid<S>(items: seq<TestCase>, n: nat, providers: Registry<S>, state: S, now: string,
                                  faults: map<nat, string>, w: World, r: (Option<string>, World))
    requires n <= |items|
  {
    var (err, w') := r;
    && w'.suites == w.suites
    && w'.testWorkers == w.testWorkers
    && w.calls <= w'.calls
    && |w'.testCases| == |items|
    && (forall j :: 0 <= j < |items| ==> CaseSettled(items[j], w'.testCases[j], providers, state, now))
    && (forall j :: n <= j < |items| ==> w'.testCases[j] == items[j])
    && (err.None? ==> forall j :: 0 <= j < n ==> TestCaseFor(items[j].spec.strategy, providers).Ok?)
    && (err.None? ==> forall j :: 0 <= j < n ==> w'.testCases[j] == CaseAfterGate(items[j], providers, state, now))
    && (err.Some? ==> exists k: nat :: k < n && CasesStoppedAt(items, k, providers, state, now, faults, w, r))
    && w.log <= w'.log
    && (forall i :: |w.log| <= i < |w'.log| ==> w'.log[i].CaseStatus?)
    && (forall i :: |w.log| <= i < |w'.log| ==> CaseWriteOf(items, w'.log[i], providers, state, now))
  }

  /** The loop's effect, when run on the world its items were listed from. */
  lemma {:induction false} CasesLoopEffect<S>(items: seq<TestCase>, n: nat, providers: Registry<S>, state: S, now: string,
                                              w: World, faults: map<nat, string>)
    requires n <= |items|
    requires w.testCases == items && DistinctCaseNames(items)
    ensures CasesLoopDid(items, n, providers, state, now, faults, w, CasesLoop(items, n, providers, state, now, w, faults))
    decreases n
  {
    if n > 0 {
      CasesLoopEffect(items, n - 1, providers, state, now, w, faults);
      var r := CasesLoop(items, n - 1, providers, state, now, w, faults);
      if r.0.Some? {
        CasesStoppedStays(items, n, providers, state, now, faults, w, r);
      } else {
        CaseStepEffect(items, n, providers, state, now, w, r.1, faults);
      }
    }
  }

  /** A loop that has stopped has done, over one more item, what it had done. */
  lemma CasesStoppedStays<S>(items: seq<TestCase>, n: nat, providers: Registry<S>, state: S, now: string,
                             faults: map<nat, string>, w: World, r: (Option<string>, World))
    requires 0 < n <= |items|
    requires r.0.Some? && CasesLoopDid(items, n - 1, providers, state, now, faults, w, r)
    ensures CasesLoopDid(items, n, providers, state, now, faults, w, r)
  {
    var k: nat :| k < n - 1 && CasesStoppedAt(items, k, providers, state, now, faults, w, r);
    assert k < n;
  }

  /** One turn of the loop, on item `n - 1`, after a prefix that did not stop. */
  lemma CaseStepEffect<S>(items: seq<TestCase>, n: nat, providers: Registry<S>, state: S, now: string,
                          w: World, w1: World, faults: map<nat, string>)
    requires 0 < n <= |items|
    requires w.testCases == items && DistinctCaseNames(items)
    requires CasesLoopDid(items, n - 1, providers, state, now, faults, w, (None, w1))
    ensures CasesLoopDid(items, n, providers, state, now, faults, w, CaseStep(items[n - 1], providers, state, now, w1, faults))
  {
    var tc := items[n - 1];
    assert w1.testCases[n - 1] == tc;
    var p := TestCaseFor(tc.spec.strategy, providers);
    var r := CaseStep(tc, providers, state, now, w1, faults);
    if p.Err? {
      assert CasesStoppedAt(items, n - 1, providers, state, now, faults, w, r);
    } else if !p.value(state) || tc.status.dispatchedAt.Some? {
      assert !CaseEligible(tc, providers, state);
    } else if w1.calls in faults {
      assert CaseEligible(tc, providers, state);
      assert CasesStoppedAt(items, n - 1, providers, state, now, faults, w, r);
    } else {
      CaseWriteEffect(items, n, providers, state, now, w, w1, faults);
    }
  }

  /** The turn that dispatches item `n - 1` and whose status update succeeds. */
  lemma CaseWriteEffect<S>(items: seq<TestCase>, n: nat, providers: Registry<S>, state: S, now: string,
                           w: World, w1: World, faults: map<nat, string>)
    requires 0 < n <= |items|
    requires w.testCases == items && DistinctCaseNames(items)
    requires CasesLoopDid(items, n - 1, providers, state, now, faults, w, (None, w1))
    requires CaseEligible(items[n - 1], providers, state) && w1.calls !in faults
    ensures CasesLoopDid(items, n, providers, state, now, faults, w, CaseStep(items[n - 1], providers, state, now, w1, faults))
  {
    var tc := items[n - 1];
    var d := DispatchCase(tc, now);
    assert w1.testCases[n - 1] == tc;
    assert HasCase(w1.testCases, d.name);
    var r := CaseStep(tc, providers, state, now, w1, faults);
    assert r == (None, Tick(w1).(testCases := SetCaseStatus(w1.testCases, d.name, d.status),
                                 log := w1.log + [CaseStatus(d.name, d.status)]));
    forall j | 0 <= j < |items|
      ensures r.1.testCases[j] == if j == n - 1 then d else w1.testCases[j]
    {
      assert w1.testCases[j].name == items[j].name;
    }
    assert CaseWriteOf(items, r.1.log[|w1.log|], providers, state, now);
  }

  /** The status write that dispatches one of `items` that passed the gate. */
  ghost predicate WorkerWriteOf<S>(items: seq<TestWorker>, e: Write, providers: Registry<S>, state: S, now: string)
  {
    exists j :: 0 <= j < |items| && WorkerEligible(items[j], providers, state)
                && e == WorkerStatus(items[j].name, DispatchWorker(items[j], now).status)
  }

  /** As `CasesStoppedAt`; the error of a failed update carries the server's message. */
  ghost predicate WorkersStoppedAt<S>(items: seq<TestWorker>, k: nat, providers: Registry<S>, state: S, now: string,
                                      faults: map<nat, string>, w: World, r: (Option<string>, World))
    requires |r.1.testWorkers| == |items|
  {
    var (err, w') := r;
    && k < |items|
    && (forall j :: 0 <= j < k ==> TestWorkerFor(items[j].strategy, providers).Ok?)
    && (forall j :: 0 <= j < k ==> w'.testWorkers[j] == WorkerAfterGate(items[j], providers, state, now))
    && (forall j :: k <= j < |items| ==> w'.testWorkers[j] == items[j])
    && ((TestWorkerFor(items[k].strategy, providers).Err?
         && err == Some(TestWorkerFor(items[k].strategy, providers).error))
        || (WorkerEligible(items[k], providers, state)
            && w.calls < w'.calls && w'.calls - 1 in faults
            && err == Some("error dispatching TestWorker " + items[k].name + ": " + faults[w'.calls - 1])))
  }

  ghost predicate WorkersLoopDid<S>(items: seq<TestWorker>, n: nat, providers: Registry<S>, state: S, now: string,
                                    faults: map<nat, string>, w: World, r: (Option<string>, World))
    requires n <= |items|
  {
    var (err, w') := r;
    && w'.suites == w.suites
    && w'.testCases == w.testCases
    && w.calls <= w'.calls
    && |w'.testWorkers| == |items|
    && (forall j :: 0 <= j < |items| ==> WorkerSettled(items[j], w'.testWorkers[j], providers, state, now))
    && (forall j :: n <= j < |items| ==> w'.testWorkers[j] == items[j])
    && (err.None? ==> forall j :: 0 <= j < n ==> TestWorkerFor(items[j].strategy, providers).Ok?)
    && (err.None? ==> forall j :: 0 <= j < n ==> w'.testWorkers[j] == WorkerAfterGate(items[j], providers, state, now))
    && (err.Some? ==> exists k: nat :: k < n && WorkersStoppedAt(items, k, providers, state, now, faults, w, r))
    && w.log <= w'.log
    && (forall i :: |w.log| <= i < |w'.log| ==> w'.log[i].WorkerStatus?)
    && (forall i :: |w.log| <= i < |w'.log| ==> WorkerWriteOf(items, w'.log[i], providers, state, now))
  }

  lemma {:induction false} WorkersLoopEffect<S>(items: seq<TestWorker>, n: nat, providers: Registry<S>, state: S, now: string,
                                                w: World, faults: map<nat, string>)
    requires n <= |items|
    requires w.testWorkers == items && DistinctWorkerNames(items)
    ensures WorkersLoopDid(items, n, providers, state, now, faults, w, WorkersLoop(items, n, providers, state, now, w, faults))
    decreases n
  {
    if n > 0 {
      WorkersLoopEffect(items, n - 1, providers, state, now, w, faults);
      var r := WorkersLoop(items, n - 1, providers, state, now, w, faults);
      if r.0.Some? {
        WorkersStoppedStays(items, n, providers, state, now, faults, w, r);
      } else {
        WorkerStepEffect(items, n, providers, state, now, w, r.1, faults);
      }
    }
  }

  /** A loop that has stopped has done, over one more item, what it had done. */
  lemma WorkersStoppedStays<S>(items: seq<TestWorker>, n: nat, providers: Registry<S>, state: S, now: string,
                               faults: map<nat, string>, w: World, r: (Option<string>, World))
    requires 0 < n <= |items|
    requires r.0.Some? && WorkersLoopDid(items, n - 1, providers, state, now, faults, w, r)
    ensures WorkersLoopDid(items, n, providers, state, now, faults, w, r)
  {
    var k: nat :| k < n - 1 && WorkersStoppedAt(items, k, providers, state, now, faults, w, r);
    assert k < n;
  }

  /** One turn of the loop, on item `n - 1`, after a prefix that did not stop. */
  lemma WorkerStepEffect<S>(items: seq<TestWorker>, n: nat, providers: Registry<S>, state: S, now: string,
                            w: World, w1: World, faults: map<nat, string>)
    requires 0 < n <= |items|
    requires w.testWorkers == items && DistinctWorkerNames(items)
    requires WorkersLoopDid(items, n - 1, providers, state, now, faults, w, (None, w1))
    ensures WorkersLoopDid(items, n, providers, state, now, faults, w, WorkerStep(items[n - 1], providers, state, now, w1, faults))
  {
    var tw := items[n - 1];
    assert w1.testWorkers[n - 1] == tw;
    var p := TestWorkerFor(tw.strategy, providers);
    var r := WorkerStep(tw, providers, state, now, w1, faults);
    if p.Err? {
      assert WorkersStoppedAt(items, n - 1, providers, state, now, faults, w, r);
    } else if !p.value(state) || tw.status.dispatchedAt.Some? {
      assert !WorkerEligible(tw, providers, state);
    } else if w1.calls in faults {
      assert WorkerEligible(tw, providers, state);
      assert WorkersStoppedAt(items, n - 1, providers, state, now, faults, w, r);
    } else {
      WorkerWriteEffect(items, n, providers, state, now, w, w1, faults);
    }
  }

  /** The turn that dispatches item `n - 1` and whose status update succeeds. */
  lemma WorkerWriteEffect<S>(items: seq<TestWorker>, n: nat, providers: Registry<S>, state: S, now: string,
                             w: World, w1: World, faults: map<nat, string>)
    requires 0 < n <= |items|
    requires w.testWorkers == items && DistinctWorkerNames(items)
    requires WorkersLoopDid(items, n - 1, providers, state, now, faults, w, (None, w1))
    requires WorkerEligible(items[n - 1], providers, state) && w1.calls !in faults
    ensures WorkersLoopDid(items, n, providers, state, now, faults, w, WorkerStep(items[n - 1], providers, state, now, w1, faults))
  {
    var tw := items[n - 1];
    var d := DispatchWorker(tw, now);
    assert w1.testWorkers[n - 1] == tw;
    assert HasWorker(w1.testWorkers, d.name);
    var r := WorkerStep(tw, providers, state, now, w1, faults);
    assert r == (None, Tick(w1).(testWorkers := SetWorkerStatus(w1.testWorkers, d.name, d.status),
                                 log := w1.log + [WorkerStatus(d.name, d.status)]));
    forall j | 0 <= j < |items|
      ensures r.1.testWorkers[j] == if j == n - 1 then d else w1.testWorkers[j]
    {
      assert w1.testWorkers[j].name == items[j].name;
    }
    assert WorkerWriteOf(items, r.1.log[|w1.log|], providers, state, now);
  }

  // ---------------------------------------------------------------------------
  // Where the loops stop

  /**
   * The test case loop stops at the first test case whose strategy does not
   * resolve: that item and every later one are left as listed, even those that
   * pass the gate. The error returned is that resolution error, unless the
   * status update of an earlier item failed first.
   */
  lemma UnresolvedCaseStopsTheLoop<S>(w: World, u: nat, providers: Registry<S>, state: S,
                                      now: string, faults: map<nat, string>)
    requires WellFormed(w) && w.calls !in faults
    requires u < |w.testCases| && TestCaseFor(w.testCases[u].spec.strategy, providers).Err?
    requires forall j :: 0 <= j < u ==> TestCaseFor(w.testCases[j].spec.strategy, providers).Ok?
    ensures var (err, w') := CasesDispatch(w, providers, state, now, faults);
      && err.Some?
      && |w'.testCases| == |w.testCases|
      && (forall j :: u <= j < |w.testCases| ==> w'.testCases[j] == w.testCases[j])
      && (err == Some(TestCaseFor(w.testCases[u].spec.strategy, providers).error)
          || exists c :: w.calls < c < w'.calls && c in faults)
  {
    var items := w.testCases;
    CasesLoopEffect(items, |items|, providers, state, now, Tick(w), faults);
    var r := CasesDispatch(w, providers, state, now, faults);
    assert r == CasesLoop(items, |items|, providers, state, now, Tick(w), faults);
    var k: nat :| k < |items| && CasesStoppedAt(items, k, providers, state, now, faults, Tick(w), r);
    if k < u {
      assert r.1.calls - 1 in faults;
    }
  }

  /** The same for the test worker loop. */
  lemma UnresolvedWorkerStopsTheLoop<S>(w: World, u: nat, providers: Registry<S>, state: S,
                                        now: string, faults: map<nat, string>)
    requires WellFormed(w) && w.calls !in faults
    requires u < |w.testWorkers| && TestWorkerFor(w.testWorkers[u].strategy, providers).Err?
    requires forall j :: 0 <= j < u ==> TestWorkerFor(w.testWorkers[j].strategy, providers).Ok?
    ensures var (err, w') := WorkersDispatch(w, providers, state, now, faults);
      && err.Some?
      && |w'.testWorkers| == |w.testWorkers|
      && (forall j :: u <= j < |w.testWorkers| ==> w'.testWorkers[j] == w.testWorkers[j])
      && (err == Some(TestWorkerFor(w.testWorkers[u].strategy, providers).error)
          || exists c :: w.calls < c < w'.calls && c in faults)
  {
    var items := w.testWorkers;
    WorkersLoopEffect(items, |items|, providers, state, now, Tick(w), faults);
    var r := WorkersDispatch(w, providers, state, now, faults);
    assert r == WorkersLoop(items, |items|, providers, state, now, Tick(w), faults);
    var k: nat :| k < |items| && WorkersStoppedAt(items, k, providers, state, now, faults, Tick(w), r);
    if k < u {
      assert r.1.calls - 1 in faults;
    }
  }
}
