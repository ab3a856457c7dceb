/**
 * The test suite controller (controllers/testsuite_controller.go): one
 * reconciliation pass over a suite, and the two dispatch loops it ends with.
 *
 * The pure functions below give each operation's effect on the world of the
 * `Cluster` module; the methods of `TestSuiteReconciler` carry out the same
 * steps against a `Client` and are proved to have exactly that effect. The
 * properties of the dispatch loops are proved about these functions in
 * `ControllerProperties`, and those of a whole pass in `PassProperties`.
 */
module Controller {
  import opened Wrappers
  import opened Api
  import opened Strategy
  import opened Cluster

  /** ctrl.Result; `requeueAfter` is a duration in nanoseconds. */
  datatype CtrlResult = CtrlResult(requeue: bool, requeueAfter: nat)

  const SECOND: nat := 1_000_000_000

  /** The empty result: no requeue asked for. */
  const DONE: CtrlResult := CtrlResult(false, 0)

  /** Requeue after one second, the result of every pass that does not return an error. */
  const REQUEUE_AFTER_SECOND: CtrlResult := CtrlResult(true, SECOND)

  /** What a pass returns: the result and the error, `None` for nil. */
  datatype Outcome = Outcome(result: CtrlResult, err: Option<string>)

  /** The program state text a pass starts from. */
  function StartingState(s: TestSuite): (r: string)
    ensures r != ""
    ensures r == s.status.currentState || r == s.spec.initialState || r == "{}"
    ensures s.status.currentState != "" ==> r == s.status.currentState
    ensures s.status.currentState == "" && s.spec.initialState != "" ==> r == s.spec.initialState
  {
    if s.status.currentState != "" then s.status.currentState
    else if s.spec.initialState != "" then s.spec.initialState
    else "{}"
  }

  /** The dispatched form of a test case: stamped with `now` and marked Dispatched. */
  function DispatchCase(tc: TestCase, now: string): TestCase
  {
    tc.(status := tc.status.(dispatchedAt := Some(now), status := Some(Dispatched)))
  }

  /** The dispatched form of a test worker: only the stamp changes. */
  function DispatchWorker(tw: TestWorker, now: string): TestWorker
  {
    tw.(status := tw.status.(dispatchedAt := Some(now)))
  }

  /** withErrorStatus: record `message` as the suite's error and write the status. */
  function ErrorStatus(w: World, instance: TestSuite, message: string, faults: map<nat, string>): (Outcome, World)
  {
    var (err, w') := StoreUpdateSuiteStatus(w, instance.(status := instance.status.(error := message)), faults);
    if err.Some? then
      (Outcome(DONE, Some("failed to update to error status \"" + message + "\": " + ApiErrorText(err.value))), w')
    else
      (Outcome(REQUEUE_AFTER_SECOND, None), w')
  }

  /** One turn of the test case loop, on the listed item `tc`. */
  function CaseStep<S>(tc: TestCase, providers: Registry<S>, state: S, now: string, w: World,
                       faults: map<nat, string>): (Option<string>, World)
  {
    match TestCaseFor(tc.spec.strategy, providers)
    case Err(e) => (Some(e), w)
    case Ok(shouldRun) =>
      if !shouldRun(state) then (None, w)
      else if tc.status.dispatchedAt.Some? then (None, w)
      else
        var (err, w') := StoreUpdateTestCaseStatus(w, DispatchCase(tc, now), faults);
        if err.Some? then (Some("error dispatching TestCase " + tc.name), w') else (None, w')
  }

  /** The test case loop over the first `n` listed items, stopping at the first error. */
  function CasesLoop<S>(items: seq<TestCase>, n: nat, providers: Registry<S>, state: S, now: string,
                        w: World, faults: map<nat, string>): (Option<string>, World)
    requires n <= |items|
  {
    if n == 0 then (None, w)
    else
      var (err, w') := CasesLoop(items, n - 1, providers, state, now, w, faults);
      if err.Some? then (err, w') else CaseStep(items[n - 1], providers, state, now, w', faults)
  }

  /** dispatchTestCases. */
  function CasesDispatch<S>(w: World, providers: Registry<S>, state: S, now: string,
                            faults: map<nat, string>): (Option<string>, World)
  {
    var (listed, w') := StoreListTestCases(w, faults);
    match listed
    case Err(e) => (Some(ApiErrorText(e)), w')
    case Ok(items) => CasesLoop(items, |items|, providers, state, now, w', faults)
  }

  /** One turn of the test worker loop, on the listed item `tw`. */
  function WorkerStep<S>(tw: TestWorker, providers: Registry<S>, state: S, now: string, w: World,
                         faults: map<nat, string>): (Option<string>, World)
  {
    match TestWorkerFor(tw.strategy, providers)
    case Err(e) => (Some(e), w)
    case Ok(shouldRun) =>
      if !shouldRun(state) then (None, w)
      else if tw.status.dispatchedAt.Some? then (None, w)
      else
        var (err, w') := StoreUpdateTestWorkerStatus(w, DispatchWorker(tw, now), faults);
        if err.Some? then (Some("error dispatching TestWorker " + tw.name + ": " + ApiErrorText(err.value)), w')
        else (None, w')
  }

  /** The test worker loop over the first `n` listed items, stopping at the first error. */
  function WorkersLoop<S>(items: seq<TestWorker>, n: nat, providers: Registry<S>, state: S, now: string,
                          w: World, faults: map<nat, string>): (Option<string>, World)
    requires n <= |items|
  {
    if n == 0 then (None, w)
    else
      var (err, w') := WorkersLoop(items, n - 1, providers, state, now, w, faults);
      if err.Some? then (err, w') else WorkerStep(items[n - 1], providers, state, now, w', faults)
  }

  /** dispatchTestWorkers. */
  function WorkersDispatch<S>(w: World, providers: Registry<S>, state: S, now: string,
                              faults: map<nat, string>): (Option<string>, World)
  {
    var (listed, w') := StoreListTestWorkers(w, faults);
    match listed
    case Err(e) => (Some(ApiErrorText(e)), w')
    case Ok(items) => WorkersLoop(items, |items|, providers, state, now, w', faults)
  }

  /** The second half of a pass, from the reconciled state `updated` on. */
  function PersistAndDispatch<S>(w: World, instance: TestSuite, updated: S, providers: Registry<S>,
                                 marshal: S -> Result<string, string>, now: string,
                                 faults: map<nat, string>): (Outcome, World)
  {
    match marshal(updated)
    case Err(e) => (Outcome(DONE, Some("error marshalling state: " + e)), w)
    case Ok(text) =>
      var (err, w1) := StoreUpdateSuiteStatus(w, instance.(status := instance.status.(currentState := text)), faults);
      if err.Some? then (Outcome(DONE, Some("error updating state: " + ApiErrorText(err.value))), w1)
      else DispatchPhase(w1, providers, updated, now, faults)
  }

  /** The end of a pass, once the new state is written: test cases, then test workers. */
  function DispatchPhase<S>(w: World, providers: Registry<S>, updated: S, now: string,
                            faults: map<nat, string>): (Outcome, World)
  {
    var (caseErr, w1) := CasesDispatch(w, providers, updated, now, faults);
    if caseErr.Some? then (Outcome(DONE, Some("error dispatching test cases: " + caseErr.value)), w1)
    else
      var (workerErr, w2) := WorkersDispatch(w1, providers, updated, now, faults);
      if workerErr.Some? then (Outcome(DONE, Some("error dispatching test workers: " + workerErr.value)), w2)
      else (Outcome(REQUEUE_AFTER_SECOND, None), w2)
  }

  /**
   * Reconcile: one pass over the suite `name`. `marshal` is the JSON encoder,
   * which may fail; `now` is the time stamp given to the items dispatched.
   */
  function ReconcilePass<S>(w: World, name: string, providers: Registry<S>,
                            marshal: S -> Result<string, string>, now: string,
                            faults: map<nat, string>): (Outcome, World)
  {
    var (got, w1) := StoreGet(w, name, faults);
    match got
    case Err(NotFound(_)) => (Outcome(DONE, None), w1)
    case Err(e) => (Outcome(DONE, Some(ApiErrorText(e))), w1)
    case Ok(instance) =>
      match SuiteReconcilerFor(instance.spec.stateStrategy, providers)
      case Err(e) => ErrorStatus(w1, instance, "error obtaining program reconciler: " + e, faults)
      case Ok(pr) =>
        match pr.parseState(StartingState(instance))
        case Err(e) => ErrorStatus(w1, instance, "failed to parse current state: " + e, faults)
        case Ok(parsed) =>
          match pr.reconcile(parsed)
          case Err(e) => (Outcome(DONE, Some("error reconciling program state: " + e)), w1)
          case Ok(updated) => PersistAndDispatch(w1, instance, updated, providers, marshal, now, faults)
  }

  /** TestSuiteReconciler: the client and the strategy providers it was built with. */
  class TestSuiteReconciler<!S> {
    const client: Client
    const strategyProviders: Registry<S>

    constructor (client: Client, strategyProviders: Registry<S>)
      ensures this.client == client && this.strategyProviders == strategyProviders
    {
      this.client := client;
      this.strategyProviders := strategyProviders;
    }

    method Reconcile(name: string, marshal: S -> Result<string, string>, now: string) returns (out: Outcome)
      modifies client
      ensures (out, client.State()) == ReconcilePass(old(client.State()), name, strategyProviders, marshal, now, client.faults)
    {
      var got := client.Get(name);
      if got.Err? {
        if got.error.NotFound? {
          return Outcome(DONE, None);
        }
        return Outcome(DONE, Some(ApiErrorText(got.error)));
      }
      var instance := got.value;

      var currentState: string;
      if instance.status.currentState != "" {
        currentState := instance.status.currentState;
      } else if instance.spec.initialState != "" {
        currentState := instance.spec.initialState;
      } else {
        currentState := "{}";
      }

      var programReconciler := SuiteReconcilerFor(instance.spec.stateStrategy, strategyProviders);
      if programReconciler.Err? {
        out := WithErrorStatus(instance, "error obtaining program reconciler: " + programReconciler.error);
        return;
      }
      var parsedState := programReconciler.value.parseState(currentState);
      if parsedState.Err? {
        out := WithErrorStatus(instance, "failed to parse current state: " + parsedState.error);
        return;
      }

      var updatedState := programReconciler.value.reconcile(parsedState.value);
      if updatedState.Err? {
        return Outcome(DONE, Some("error reconciling program state: " + updatedState.error));
      }
      var marshalledState := marshal(updatedState.value);
      if marshalledState.Err? {
        return Outcome(DONE, Some("error marshalling state: " + marshalledState.error));
      }

      instance := instance.(status := instance.status.(currentState := marshalledState.value));
      var err := client.UpdateSuiteStatus(instance);
      if err.Some? {
        return Outcome(DONE, Some("error updating state: " + ApiErrorText(err.value)));
      }

      var caseErr := DispatchTestCases(updatedState.value, now);
      if caseErr.Some? {
        return Outcome(DONE, Some("error dispatching test cases: " + caseErr.value));
      }
      var workerErr := DispatchTestWorkers(updatedState.value, now);
      if workerErr.Some? {
        return Outcome(DONE, Some("error dispatching test workers: " + workerErr.value));
      }
      return Outcome(REQUEUE_AFTER_SECOND, None);
    }

    method DispatchTestCases(currentState: S, now: string) returns (err: Option<string>)
      modifies client
      ensures (err, client.State()) == CasesDispatch(old(client.State()), strategyProviders, currentState, now, client.faults)
    {
      var listed := client.ListTestCases();
      if listed.Err? {
        return Some(ApiErrorText(listed.error));
      }
      var items := listed.value;
      ghost var listedAt := client.State();
      var i := 0;
      while i < |items|
        invariant i <= |items|
        invariant (None, client.State()) == CasesLoop(items, i, strategyProviders, currentState, now, listedAt, client.faults)
      {
        var testCase := items[i];
        var shouldRun := TestCaseFor(testCase.spec.strategy, strategyProviders);
        if shouldRun.Err? {
          err := Some(shouldRun.error);
          CasesLoopStops(items, i + 1, |items|, strategyProviders, currentState, now, listedAt, client.faults);
          return;
        }
        if shouldRun.value(currentState) && testCase.status.dispatchedAt.None? {
          var updateErr := client.UpdateTestCaseStatus(DispatchCase(testCase, now));
          if updateErr.Some? {
            err := Some("error dispatching TestCase " + testCase.name);
            CasesLoopStops(items, i + 1, |items|, strategyProviders, currentState, now, listedAt, client.faults);
            return;
          }
        }
        i := i + 1;
      }
      err := None;
    }

    method DispatchTestWorkers(currentState: S, now: string) returns (err: Option<string>)
      modifies client
      ensures (err, client.State()) == WorkersDispatch(old(client.State()), strategyProviders, currentState, now, client.faults)
    {
      var listed := client.ListTestWorkers();
      if listed.Err? {
        return Some(ApiErrorText(listed.error));
      }
      var items := listed.value;
      ghost var listedAt := client.State();
      var i := 0;
      while i < |items|
        invariant i <= |items|
        invariant (None, client.State()) == WorkersLoop(items, i, strategyProviders, currentState, now, listedAt, client.faults)
      {
        var testWorker := items[i];
        var shouldRun := TestWorkerFor(testWorker.strategy, strategyProviders);
        if shouldRun.Err? {
          err := Some(shouldRun.error);
          WorkersLoopStops(items, i + 1, |items|, strategyProviders, currentState, now, listedAt, client.faults);
          return;
        }
        if shouldRun.value(currentState) && testWorker.status.dispatchedAt.None? {
          var updateErr := client.UpdateTestWorkerStatus(DispatchWorker(testWorker, now));
          if updateErr.Some? {
            err := Some("error dispatching TestWorker " + testWorker.name + ": " + ApiErrorText(updateErr.value));
            WorkersLoopStops(items, i + 1, |items|, strategyProviders, currentState, now, listedAt, client.faults);
            return;
          }
        }
        i := i + 1;
      }
      err := None;
    }

    method WithErrorStatus(instance: TestSuite, message: string) returns (out: Outcome)
      modifies client
      ensures (out, client.State()) == ErrorStatus(old(client.State()), instance, message, client.faults)
    {
      var errorInstance := instance.(status := instance.status.(error := message));
      var err := client.UpdateSuiteStatus(errorInstance);
      if err.Some? {
        return Outcome(DONE, Some("failed to update to error status \"" + message + "\": " + ApiErrorText(err.value)));
      }
      return Outcome(REQUEUE_AFTER_SECOND, None);
    }
  }

  /** Once the test case loop has stopped with an error, later items change nothing. */
  lemma {:induction false} CasesLoopStops<S>(items: seq<TestCase>, k: nat, n: nat, providers: Registry<S>, state: S,
                                             now: string, w: World, faults: map<nat, string>)
    requires k <= n <= |items|
    requires CasesLoop(items, k, providers, state, now, w, faults).0.Some?
    ensures CasesLoop(items, n, providers, state, now, w, faults) == CasesLoop(items, k, providers, state, now, w, faults)
    decreases n
  {
    if n > k {
      CasesLoopStops(items, k, n - 1, providers, state, now, w, faults);
    }
  }

  /** Once the test worker loop has stopped with an error, later items change nothing. */
  lemma {:induction false} WorkersLoopStops<S>(items: seq<TestWorker>, k: nat, n: nat, providers: Registry<S>, state: S,
                                               now: string, w: World, faults: map<nat, string>)
    requires k <= n <= |items|
    requires WorkersLoop(items, k, providers, state, now, w, faults).0.Some?
    ensures WorkersLoop(items, n, providers, state, now, w, faults) == WorkersLoop(items, k, providers, state, now, w, faults)
    decreases n
  {
    if n > k {
      WorkersLoopStops(items, k, n - 1, providers, state, now, w, faults);
    }
  }
}
