# thatchd test suite controller, modelled in Dafny

This project models the core of the thatchd test suite controller. That core is one
reconciliation pass over a `TestSuite` resource, and the dispatch gate the pass ends with.
The gate marks `TestCase` and `TestWorker` resources as dispatched once their strategy says
they should run on the new program state. The project also models the sample
pod-annotation strategy.

A pass does the following, in order:

1. It fetches the suite.
2. It picks the starting state text: `Status.CurrentState`, else `Spec.InitialState`, else `{}`.
3. It resolves the suite's state strategy from the registry of strategy providers.
4. It parses that text and reconciles it into a new program state.
5. It marshals the new state and writes it to `Status.CurrentState`.
6. It lists the test cases, then the test workers, and dispatches each item that is eligible.
7. It asks to be requeued after one second.

Each failure point ends the pass in its own way. A missing suite is a silent no-op.
Resolution and parse failures are written to `Status.Error` and the pass requeues.
Every other failure is returned as an error, with nothing more written.

Files and modules:

- `wrappers.dfy` (`Wrappers`): `Option` and `Result`.
- `api.dfy` (`Api`): the resources. This covers the test case status enum and the
  optional `*string` status fields, plus the suite and the test worker. For the worker, only
  the fields the controller touches are modelled.
- `strategy.dfy` (`Strategy`): the strategy registry. A `Provider<S>` builds an
  `Instance<S>` from a configuration. The instance is seen through the three interfaces the
  controller asks for: a program reconciler (`parseState`, `reconcile`), a test case
  predicate, and a test worker predicate. `S` is the program state type.
- `cluster.dfy` (`Cluster`): the API server as a `World`. A world holds the suites by name,
  the listed test cases and test workers, a call counter, and the log of accepted status
  writes. The same module has the client class `Client` that mutates it. Server failures
  follow a fault schedule `faults: map<nat, string>`: call number `k` fails with
  `faults[k]`. Every failing call ends the pass, so a lemma about all schedules covers every
  way the server can answer.
- `controller.dfy` (`Controller`): `ReconcilePass` and its parts as functions on a world.
  The class `TestSuiteReconciler` has the methods `Reconcile`, `DispatchTestCases`,
  `DispatchTestWorkers` and `WithErrorStatus`. Each method runs the source's statements
  against a `Client`, with loop invariants for the two dispatch loops. Each is proved to
  have exactly the effect of the matching function.
- `properties.dfy` (`ControllerProperties`): the dispatch gate on one item, and what each
  dispatch loop does.
- `pass_properties.dfy` (`PassProperties`): lemmas about a whole pass and about two
  passes in a row.
- `example.dfy` (`Example`): `PodAnnotationTestCase`, with `ShouldRun`, `New`, and the
  annotation check of `Run`.
- `example_dispatch.dfy` (`ExampleDispatch`): the sample strategy plugged into the gate.

The code behaves as follows where one might expect otherwise, and the model does the same:

- A test case or test worker whose strategy does not resolve does not just skip that item.
  It ends the loop with an error, so later items are not examined in that pass
  (`UnresolvedCaseStopsTheLoop`, `UnresolvedWorkerStopsTheLoop`). An error in the test case
  loop also means the test workers are not listed at all (`CaseFailureSkipsWorkers`).
- A failure of the strategy's `Reconcile`, or of marshalling, writes nothing. In particular
  it does not write `Status.Error`.
- A successful pass writes the whole status with the new `CurrentState`. It keeps the
  previous `Error` text rather than clearing it.
- The loops evaluate `ShouldRun` before looking at `DispatchedAt`. So an item that is
  already dispatched, but whose strategy no longer resolves, still ends the loop.

## Model

| member | source | states |
|---|---|---|
| `Controller.StartingState` | controllers/testsuite_controller.go:62-69 | The starting text is never empty. It is `CurrentState` when that is set, else `InitialState` when that is set, else `{}`. |
| `Controller.TestSuiteReconciler.Reconcile` | controllers/testsuite_controller.go:49-111 | One pass against the client. Its outcome and the client's new state are exactly `ReconcilePass` of the old state, for every fault schedule. |
| `Controller.TestSuiteReconciler.DispatchTestCases` | controllers/testsuite_controller.go:119-152 | The test case loop over the listed snapshot, with early returns. Its effect is exactly `CasesDispatch`. The loop invariant ties each prefix to `CasesLoop`. |
| `Controller.TestSuiteReconciler.DispatchTestWorkers` | controllers/testsuite_controller.go:154-183 | The same for test workers. Its effect is exactly `WorkersDispatch`. |
| `Controller.TestSuiteReconciler.WithErrorStatus` | controllers/testsuite_controller.go:185-195 | Writes the status with `Error` overwritten by the message. It requeues after one second, or returns the wrapped error when the write fails. |
| `Controller.CasesLoopStops` | controllers/testsuite_controller.go:128-148 | Once the test case loop has returned an error, later items change nothing. |
| `Controller.WorkersLoopStops` | controllers/testsuite_controller.go:163-179 | Once the test worker loop has returned an error, later items change nothing. |
| `ControllerProperties.CasesLoopEffect` | controllers/testsuite_controller.go:125-149 | Each listed test case is left alone, or is dispatched because it passed the gate. Passing the gate means its strategy resolves, `ShouldRun` holds, and `DispatchedAt` is unset. No other resource is touched. Every write the loop logs is the dispatch of a listed test case that passed the gate. A loop that returns no error resolved every item and put every item through the gate. A loop that returns an error stopped at one item, and every item before it resolved and went through the gate, while it and every later item are untouched. At that item, either its strategy did not resolve and the error is the resolution error, or it passed the gate, its update call failed, and the error is `error dispatching TestCase <name>`. |
| `ControllerProperties.WorkersLoopEffect` | controllers/testsuite_controller.go:160-180 | The same for test workers. Dispatch there sets only `DispatchedAt` and leaves every other field of the worker unchanged. A failed update gives `error dispatching TestWorker <name>: <server message>`. |
| `ControllerProperties.UnresolvedCaseStopsTheLoop` | controllers/testsuite_controller.go:125-131 | For any listing, take the first test case whose strategy does not resolve. Dispatch returns an error, and that test case and every later one are left as listed, even those that pass the gate. The error is that resolution error, unless an update call of the loop failed first. |
| `ControllerProperties.UnresolvedWorkerStopsTheLoop` | controllers/testsuite_controller.go:160-166 | The same for the first test worker whose strategy does not resolve. |
| `PassProperties.MissingSuiteIsSilent` | controllers/testsuite_controller.go:54-57 | A suite that is not found ends the pass with no error, no requeue and no write. |
| `PassProperties.FetchErrorIsReturned` | controllers/testsuite_controller.go:54-60 | Any other fetch error is returned unchanged, with no requeue and no write. |
| `PassProperties.SetupFailureRecordsError` | controllers/testsuite_controller.go:71-81 | A resolution or parse failure writes only `Status.Error`, overwritten with the prefixed message. `CurrentState` and every item keep their values. The pass requeues after a second, or returns an error with nothing written if that write fails. |
| `PassProperties.TransitionFailureWritesNothing` | controllers/testsuite_controller.go:83-92 | A reconcile or marshal failure returns the prefixed error. Nothing is written and no item is examined. |
| `PassProperties.StateWriteFailureWritesNothing` | controllers/testsuite_controller.go:94-97 | A failed state write returns `error updating state: ...`. Nothing is dispatched. |
| `PassProperties.StateIsWrittenBeforeDispatch` | controllers/testsuite_controller.go:94-105 | Once the state write succeeds, the pass is that write followed by the dispatch phase. The new `CurrentState` is in the log before any item write. |
| `PassProperties.DispatchPhaseEffect` | controllers/testsuite_controller.go:99-110 | The dispatch phase writes item statuses only. Each write is the dispatch of an item that passed the gate, and every test case write comes before any test worker write. A test worker is written only when the test case listing succeeded and every test case resolved and went through the gate. The result is requeue-after-one-second exactly when no error is returned, and every item went through the gate in that case. |
| `PassProperties.CaseFailureSkipsWorkers` | controllers/testsuite_controller.go:99-101 | When test case dispatch returns an error, the pass returns `error dispatching test cases: ` followed by it. The pass writes no test worker and makes no call after the test case loop. |
| `PassProperties.DispatchIsOneWay` | controllers/testsuite_controller.go:133-148 | In any pass, an item that carries `DispatchedAt` is left unchanged, and no status write of the pass is addressed to it. An item that changes was eligible against the state the same pass persisted. It then gets the time stamp, plus `Status = Dispatched` for test cases. |
| `PassProperties.CompletedPass` | controllers/testsuite_controller.go:99-110 | A pass that returns no error did one of three things. It found no suite and wrote nothing. Or it recorded a setup error and requeues after a second. Or it persisted the new state, put every item through the gate, and requeues after a second. |
| `PassProperties.DispatchIsIdempotent` | controllers/testsuite_controller.go:138-141 | Over two passes in a row, the second leaves every item the first dispatched, or that was already dispatched, as it is. In the second pass the registry, clock and server answers may all differ. |
| `PassProperties.NextPassStartsFromPersisted` | controllers/testsuite_controller.go:62-64 | After a pass persists a non-empty state text, the next pass starts from that text. |
| `Strategy.SuiteReconcilerFor` | controllers/testsuite_controller.go:73 | Resolution succeeds exactly when a provider is registered under the name and its object is a program reconciler. It then returns the program reconciler of the object that provider builds from the configuration. |
| `Strategy.TestCaseFor` | controllers/testsuite_controller.go:128 | Resolution succeeds exactly when a provider is registered under the name and its object is a test case. It then returns the `ShouldRun` predicate of the object that provider builds from the configuration. |
| `Strategy.TestWorkerFor` | controllers/testsuite_controller.go:163 | Resolution succeeds exactly when a provider is registered under the name and its object is a test worker. It then returns the `ShouldRun` predicate of the object that provider builds from the configuration. |
| `Example.ShouldRun` | example/testcase.go:24-31 | True exactly when the state holds the pair (`PodName`, true). |
| `Example.ShouldRunReadsOnlyItsPod` | example/testcase.go:26-30 | Two states that agree on the entry for `PodName` give the same answer. |
| `Example.ShouldRunNeedsReadyPod` | example/testcase.go:26-30 | An absent pod, or one mapped to false, yields false, whatever is added under other keys. |
| `Example.New` | example/testcase.go:58-63 | Copies `podName`, `expectedAnnotation` and `expectedValue` into the matching fields. A missing key gives "". |
| `Example.NewInvertsConfigOf` | example/testcase.go:58-63 | `New` recovers every test case from the configuration that describes it. |
| `Example.NewReadsOnlyItsKeys` | example/testcase.go:58-63 | Keys other than the three do not change the result. The empty configuration gives empty fields. |
| `Example.CheckAnnotations` | example/testcase.go:42-51 | Succeeds exactly when the map is non-nil and holds `ExpectedAnnotation` with value `ExpectedValue`. A nil map gives `Pod has no annotations`. |
| `Example.Run` | example/testcase.go:33-52 | Fetches the pod named `PodName` in the namespace. A failed fetch returns `Failed to obtain pod: ...` without looking at annotations. Otherwise it succeeds exactly when the pod's annotation map holds the expected pair. |
| `Example.CheckReadsOnlyExpectedAnnotation` | example/testcase.go:47-51 | Annotations other than the expected one do not change the verdict. |
| `ExampleDispatch.PodAnnotationCaseEligible` | example/testcase.go:24-31 | A test case whose strategy names the pod annotation provider passes the gate exactly when two things hold. The pod named by its `podName` configuration is ready in the state, and the test case has no `DispatchedAt`. |

## Left out

- Kubernetes client I/O (`Get`, `List`, `Status().Update`) is replaced by the `Cluster`
  world and its fault schedule.
  - Optimistic concurrency, conflicting writers and overlapping passes are not modelled. An
    update succeeds unless the schedule fails it or the object is missing.
  - A status update writes the `status` of the stored object of the same name.
  - Listing returns the stored items, in their stored order, across all namespaces.
  - Kubernetes names are unique only within a namespace. An item's `name` in the model stands for its namespace and name together, and this is what makes names distinct across a listing (`Cluster.WellFormed`).
  - The `namespace` argument of the dispatch functions is unused, as in the source.
- The log of accepted writes and the call counter in `World` are observation devices. They are not state of the source.
- `json.MarshalIndent` is the parameter `marshal`, which may fail. No parse/marshal round
  trip is claimed, because `ParseState` is part of a package that is not part of this model.
- `testsuite.FromStrategy`, `testcase.FromStrategy` and `testworker.FromStrategy`, and the
  strategy interfaces, are not part of this model.
  - They are modelled as a lookup by provider name, then the provider's constructor, then a
    check that the object has the required interface.
  - The texts of their error messages are placeholders.
  - The sample provider is modelled as implementing the test case interface only.
- The cluster reads made by the strategy's `Reconcile(client, namespace, state)` are folded
  into the function `reconcile: S -> Result<S, string>`.
- `time.Now()` and `TimeString` (RFC 822 formatting) are replaced by the opaque stamp `now`.
  Every item dispatched in one pass gets the same stamp, while the source reads the clock
  once per item.
- What controller-runtime does with a returned error (requeue with backoff) is outside the
  model. `ctrl.Result` is modelled with `RequeueAfter` in nanoseconds.
- `SetupWithManager`, logging and the RBAC markers are left out.
- The type assertion `s.(PodSuiteState)` in `ShouldRun`, which panics at run time on a
  state of another type, is left out. The state is typed as `map<string, bool>`.
- The pod fetch in `Run` is the function `get` from object key to pod or error. Only the
  pod's annotation map is modelled.
- For `TestWorker`, only the name, the strategy and `Status.DispatchedAt` are modelled. The
  remaining status fields are opaque, because `api/v1alpha1/testworker_types.go` is not part
  of this model.
