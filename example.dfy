/**
 * The sample strategy (example/testcase.go): a test case that is ready to run
 * once its pod is reported ready in the suite state, and that passes when the
 * pod carries an expected annotation value.
 */
module Example {
  import opened Wrappers
  import opened Strategy

  datatype PodAnnotationTestCase = PodAnnotationTestCase(
    podName: string,
    expectedAnnotation: string,
    expectedValue: string)

  /** The suite state this strategy reads: pod name to readiness. */
  type PodSuiteState = map<string, bool>

  /** ShouldRun: the state reports the test case's pod as ready. */
  function ShouldRun(tc: PodAnnotationTestCase, state: PodSuiteState): (r: bool)
    ensures r <==> (tc.podName, true) in state.Items
  {
    if tc.podName in state && state[tc.podName] then true else false
  }

  /** ShouldRun reads the entry of the test case's pod and nothing else. */
  lemma ShouldRunReadsOnlyItsPod(tc: PodAnnotationTestCase, s1: PodSuiteState, s2: PodSuiteState)
    requires tc.podName in s1 <==> tc.podName in s2
    requires tc.podName in s1 ==> s1[tc.podName] == s2[tc.podName]
    ensures ShouldRun(tc, s1) == ShouldRun(tc, s2)
  {
  }

  /** An absent pod, or one mapped to false, is not ready, whatever the other entries. */
  lemma ShouldRunNeedsReadyPod(tc: PodAnnotationTestCase, state: PodSuiteState)
    requires tc.podName !in state || !state[tc.podName]
    ensures !ShouldRun(tc, state)
    ensures forall other: PodSuiteState :: tc.podName !in other ==> !ShouldRun(tc, state + other)
  {
  }

  /** Go's map index: the value under `key`, or the empty string when there is none. */
  function ConfigValue(config: map<string, string>, key: string): (v: string)
    ensures key in config ==> v == config[key]
    ensures key !in config ==> v == ""
  {
    if key in config then config[key] else ""
  }

  /** PodAnnotationProvider.New: the test case described by a configuration. */
  function New(config: map<string, string>): (tc: PodAnnotationTestCase)
    ensures tc.podName == ConfigValue(config, "podName")
    ensures tc.expectedAnnotation == ConfigValue(config, "expectedAnnotation")
    ensures tc.expectedValue == ConfigValue(config, "expectedValue")
  {
    PodAnnotationTestCase(
      ConfigValue(config, "podName"),
      ConfigValue(config, "expectedAnnotation"),
      ConfigValue(config, "expectedValue"))
  }

  /** The configuration that describes `tc`. */
  function ConfigOf(tc: PodAnnotationTestCase): map<string, string>
  {
    map["podName" := tc.podName, "expectedAnnotation" := tc.expectedAnnotation, "expectedValue" := tc.expectedValue]
  }

  /** New reads back every test case from its configuration. */
  lemma NewInvertsConfigOf(tc: PodAnnotationTestCase)
    ensures New(ConfigOf(tc)) == tc
  {
  }

  /** New reads only its three keys; an empty configuration gives empty fields. */
  lemma NewReadsOnlyItsKeys(config: map<string, string>, extra: map<string, string>)
    requires "podName" !in extra && "expectedAnnotation" !in extra && "expectedValue" !in extra
    ensures New(config + extra) == New(config)
    ensures New(map[]) == PodAnnotationTestCase("", "", "")
  {
  }

  datatype ObjectKey = ObjectKey(name: string, namespace: string)

  /** The part of a pod the test reads; a nil annotation map is `None`. */
  datatype Pod = Pod(annotations: Option<map<string, string>>)

  /** The check Run makes on the fetched pod's annotations; `None` for success. */
  function CheckAnnotations(tc: PodAnnotationTestCase, annotations: Option<map<string, string>>): (err: Option<string>)
    ensures err.None? <==> annotations.Some? && (tc.expectedAnnotation, tc.expectedValue) in annotations.value.Items
    ensures annotations.None? ==> err == Some("Pod has no annotations")
  {
    if annotations.None? then Some("Pod has no annotations")
    else if tc.expectedAnnotation !in annotations.value || annotations.value[tc.expectedAnnotation] != tc.expectedValue then
      Some("Annotation " + tc.expectedAnnotation + ": " + tc.expectedValue + " not found in Pod")
    else None
  }

  /**
   * Run, with the client's Get as the function `get`: fetch the test case's pod
   * in `namespace`, then check its annotations; `None` for success.
   */
  function Run(tc: PodAnnotationTestCase, get: ObjectKey -> Result<Pod, string>, namespace: string): (err: Option<string>)
    ensures get(ObjectKey(tc.podName, namespace)).Err? ==>
              err == Some("Failed to obtain pod: " + get(ObjectKey(tc.podName, namespace)).error)
    ensures err.None? <==>
              var fetched := get(ObjectKey(tc.podName, namespace));
              fetched.Ok? && fetched.value.annotations.Some?
              && (tc.expectedAnnotation, tc.expectedValue) in fetched.value.annotations.value.Items
  {
    match get(ObjectKey(tc.podName, namespace))
    case Err(e) => Some("Failed to obtain pod: " + e)
    case Ok(pod) => CheckAnnotations(tc, pod.annotations)
  }

  /** The check reads only the expected annotation: other annotations do not change the verdict. */
  lemma CheckReadsOnlyExpectedAnnotation(tc: PodAnnotationTestCase, a: map<string, string>, other: map<string, string>)
    requires tc.expectedAnnotation !in other
    ensures CheckAnnotations(tc, Some(a + other)) == CheckAnnotations(tc, Some(a))
  {
  }

  /**
   * The provider: each configuration builds a test case, which implements the
   * test case interface only.
   */
  function PodAnnotationProvider(): Provider<PodSuiteState>
  {
    Provider(config => Instance(None, Some((state: PodSuiteState) => ShouldRun(New(config), state)), None))
  }
}
