/**
 * The resources the suite controller reads and writes (package v1alpha1).
 * Pointer fields of the Go types (`*string`) are `Option<string>`; plain
 * string fields are `string`, whose empty value "" is Go's zero value.
 */
module Api {
  import opened Wrappers

  /** A strategy reference: the name of a registered provider and its configuration. */
  datatype StrategyDescriptor = StrategyDescriptor(provider: string, config: map<string, string>)

  /** The lifecycle status of a test case; an unset (empty) status is `None` where it is used. */
  datatype TestCaseCurrentStatus = Created | Canceled | Dispatched | Running | Finished | Failed

  datatype TestCaseSpec = TestCaseSpec(timeout: Option<string>, strategy: StrategyDescriptor)

  datatype TestCaseStatus = TestCaseStatus(
    dispatchedAt: Option<string>,
    startedAt: Option<string>,
    finishedAt: Option<string>,
    failureMessage: Option<string>,
    status: Option<TestCaseCurrentStatus>)

  /** A test case; `name` identifies it among all test cases. */
  datatype TestCase = TestCase(name: string, spec: TestCaseSpec, status: TestCaseStatus)

  /**
   * The status of a test worker: the dispatch stamp the controller sets, and the
   * remaining status fields, which the controller never reads, as opaque text.
   */
  datatype TestWorkerStatus = TestWorkerStatus(dispatchedAt: Option<string>, others: map<string, string>)

  datatype TestWorker = TestWorker(name: string, strategy: StrategyDescriptor, status: TestWorkerStatus)

  datatype TestSuiteSpec = TestSuiteSpec(initialState: string, stateStrategy: StrategyDescriptor)

  /** `currentState` is the persisted program state text, `error` the last recorded failure. */
  datatype TestSuiteStatus = TestSuiteStatus(currentState: string, error: string)

  datatype TestSuite = TestSuite(name: string, spec: TestSuiteSpec, status: TestSuiteStatus)
}
