/**
 * The strategy registry: providers registered by name, each building, from a
 * configuration, an object that the controller then views through one of three
 * interfaces (a program reconciler for suites, a readiness predicate for test
 * cases and for test workers). The program state type is the parameter `S`.
 */
module Strategy {
  import opened Wrappers
  import opened Api

  /** The two operations the controller uses of a suite's state strategy. */
  datatype ProgramReconciler<!S> = ProgramReconciler(
    parseState: string -> Result<S, string>,
    reconcile: S -> Result<S, string>)

  /**
   * The object a provider builds, seen through each interface it may implement:
   * `None` where the object does not implement that interface.
   */
  datatype Instance<!S> = Instance(
    programReconciler: Option<ProgramReconciler<S>>,
    testCase: Option<S -> bool>,
    testWorker: Option<S -> bool>)

  /** A provider is a factory from configuration to an object. */
  datatype Provider<!S> = Provider(construct: map<string, string> -> Instance<S>)

  type Registry<!S> = map<string, Provider<S>>

  /** Looks up the provider named by `d` and builds its object from `d`'s configuration. */
  function Resolve<S>(d: StrategyDescriptor, providers: Registry<S>): (r: Result<Instance<S>, string>)
    ensures r.Ok? <==> d.provider in providers
    ensures r.Ok? ==> r.value == providers[d.provider].construct(d.config)
  {
    if d.provider in providers then Ok(providers[d.provider].construct(d.config))
    else Err("no strategy provider registered as " + d.provider)
  }

  /** The suite's program reconciler (testsuite.FromStrategy). */
  function SuiteReconcilerFor<S>(d: StrategyDescriptor, providers: Registry<S>): (r: Result<ProgramReconciler<S>, string>)
    ensures r.Ok? <==> d.provider in providers && providers[d.provider].construct(d.config).programReconciler.Some?
    ensures r.Ok? ==> r.value == providers[d.provider].construct(d.config).programReconciler.value
  {
    match Resolve(d, providers)
    case Err(e) => Err(e)
    case Ok(obj) =>
      if obj.programReconciler.Some? then Ok(obj.programReconciler.value)
      else Err("strategy " + d.provider + " is not a test suite strategy")
  }

  /** A test case's readiness predicate (testcase.FromStrategy). */
  function TestCaseFor<S>(d: StrategyDescriptor, providers: Registry<S>): (r: Result<S -> bool, string>)
    ensures r.Ok? <==> d.provider in providers && providers[d.provider].construct(d.config).testCase.Some?
    ensures r.Ok? ==> r.value == providers[d.provider].construct(d.config).testCase.value
  {
    match Resolve(d, providers)
    case Err(e) => Err(e)
    case Ok(obj) =>
      if obj.testCase.Some? then Ok(obj.testCase.value)
      else Err("strategy " + d.provider + " is not a test case strategy")
  }

  /** A test worker's readiness predicate (testworker.FromStrategy). */
  function TestWorkerFor<S>(d: StrategyDescriptor, providers: Registry<S>): (r: Result<S -> bool, string>)
    ensures r.Ok? <==> d.provider in providers && providers[d.provider].construct(d.config).testWorker.Some?
    ensures r.Ok? ==> r.value == providers[d.provider].construct(d.config).testWorker.value
  {
    match Resolve(d, providers)
    case Err(e) => Err(e)
    case Ok(obj) =>
      if obj.testWorker.Some? then Ok(obj.testWorker.value)
      else Err("strategy " + d.provider + " is not a test worker strategy")
  }
}
