/** The sample strategy plugged into the dispatch gate. */
module ExampleDispatch {
  import opened Wrappers
  import opened Api
  import opened Strategy
  import opened ControllerProperties
  import opened Example

  /**
   * A test case whose strategy names the pod annotation provider passes the
   * gate exactly when the pod its configuration names is ready in the state and
   * the test case carries no dispatch stamp.
   */
  lemma PodAnnotationCaseEligible(tc: TestCase, providers: Registry<PodSuiteState>, state: PodSuiteState)
    requires tc.spec.strategy.provider in providers
    requires providers[tc.spec.strategy.provider] == PodAnnotationProvider()
    ensures CaseEligible(tc, providers, state)
        <==> (ConfigValue(tc.spec.strategy.config, "podName"), true) in state.Items && tc.status.dispatchedAt.None?
  {
    var p := TestCaseFor(tc.spec.strategy, providers);
    assert p == Ok((s: PodSuiteState) => ShouldRun(New(tc.spec.strategy.config), s));
  }
}
