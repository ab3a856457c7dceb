/**
 * Properties of one reconciliation pass, and of two passes in a row, stated
 * for every suite, every registry, every encoder and every fault schedule.
 */
module PassProperties {
  import opened Wrappers
  import opened Api
  import opened Strategy
  import opened Cluster
  import opened Controller
  import opened ControllerProperties

  /** How far a fetched suite gets before its state is written. */
  datatype Stage<S> =
    | SetupFailed(message: string)       // the strategy does not resolve, or the state text does not parse
    | TransitionFailed(message: string)  // the strategy's reconcile, or the encoder, fails
    | Transitioned(state: S, text: string)

  ghost function StageOf<S>(s: TestSuite, providers: Registry<S>, marshal: S -> Result<string, string>): Stage<S>
  {
    match SuiteReconcilerFor(s.spec.stateStrategy, providers)
    case Err(e) => SetupFailed("error obtaining program reconciler: " + e)
    case Ok(pr) =>
      match pr.parseState(StartingState(s))
      case Err(e) => SetupFailed("failed to parse current state: " + e)
      case Ok(parsed) =>
        match pr.reconcile(parsed)
        case Err(e) => TransitionFailed("error reconciling program state: " + e)
        case Ok(updated) =>
          match marshal(updated)
          case Err(e) => TransitionFailed("error marshalling state: " + e)
          case Ok(text) => Transitioned(updated, text)
  }

  /** The first call of the pass, the fetch, finds the suite. */
  ghost predicate Fetches(w: World, name: string, faults: map<nat, string>)
  {
    w.calls !in faults && name in w.suites
  }

  ghost predicate NothingWritten(w: World, w': World)
  {
    w'.suites == w.suites && w'.testCases == w.testCases && w'.testWorkers == w.testWorkers && w'.log == w.log
  }

  /** The world right after the pass has written the new state text `text` of suite `name`. */
  ghost function Persisted(w: World, name: string, text: string): World
    requires name in w.suites
  {
    var s := w.suites[name];
    var status := s.status.(currentState := text);
    w.(suites := w.suites[name := s.(status := status)], calls := w.calls + 2,
       log := w.log + [SuiteStatus(name, status)])
  }

  // ---------------------------------------------------------------------------
  // Failure paths

  /** A suite that is not found ends the pass with no error, no requeue and no write. */
  lemma MissingSuiteIsSilent<S>(w: World, name: string, providers: Registry<S>,
                                marshal: S -> Result<string, string>, now: string, faults: map<nat, string>)
    requires w.calls !in faults && name !in w.suites
    ensures ReconcilePass(w, name, providers, marshal, now, faults) == (Outcome(DONE, None), Tick(w))
  {
  }

  /** Any other fetch failure is returned as it is, with nothing written. */
  lemma FetchErrorIsReturned<S>(w: World, name: string, providers: Registry<S>,
                                marshal: S -> Result<string, string>, now: string, faults: map<nat, string>)
    requires w.calls in faults
    ensures ReconcilePass(w, name, providers, marshal, now, faults) == (Outcome(DONE, Some(faults[w.calls])), Tick(w))
  {
  }

  /**
   * When the strategy does not resolve or the state does not parse, the one
   * write of the pass overwrites the suite's error with the message; the state
   * text and every item stay as they were. The pass requeues after a second,
   * or returns an error if that write fails.
   */
  lemma SetupFailureRecordsError<S>(w: World, name: string, providers: Registry<S>,
                                    marshal: S -> Result<string, string>, now: string, faults: map<nat, string>)
    requires WellFormed(w) && Fetches(w, name, faults)
    requires StageOf(w.suites[name], providers, marshal).SetupFailed?
    ensures
      var s := w.suites[name];
      var message := StageOf(s, providers, marshal).message;
      var (out, w') := ReconcilePass(w, name, providers, marshal, now, faults);
      && w'.testCases == w.testCases && w'.testWorkers == w.testWorkers
      && w'.suites[name].status.currentState == s.status.currentState
      && (w.calls + 1 in faults ==>
            && NothingWritten(w, w')
            && out == Outcome(DONE, Some("failed to update to error status \"" + message + "\": " + faults[w.calls + 1])))
      && (w.calls + 1 !in faults ==>
            && w'.suites == w.suites[name := s.(status := s.status.(error := message))]
            && w'.log == w.log + [SuiteStatus(name, s.status.(error := message))]
            && out == Outcome(REQUEUE_AFTER_SECOND, None))
  {
  }

  /** When the strategy's reconcile or the encoder fails, nothing is written and the error is returned. */
  lemma TransitionFailureWritesNothing<S>(w: World, name: string, providers: Registry<S>,
                                          marshal: S -> Result<string, string>, now: string, faults: map<nat, string>)
    requires Fetches(w, name, faults)
    requires StageOf(w.suites[name], providers, marshal).TransitionFailed?
    ensures ReconcilePass(w, name, providers, marshal, now, faults)
         == (Outcome(DONE, Some(StageOf(w.suites[name], providers, marshal).message)), Tick(w))
  {
  }

  /** When the write of the new state fails, nothing is written and no item is examined. */
  lemma StateWriteFailureWritesNothing<S>(w: World, name: string, providers: Registry<S>,
                                          marshal: S -> Result<string, string>, now: string, faults: map<nat, string>)
    requires WellFormed(w) && Fetches(w, name, faults) && w.calls + 1 in faults
    requires StageOf(w.suites[name], providers, marshal).Transitioned?
    ensures ReconcilePass(w, name, providers, marshal, now, faults)
         == (Outcome(DONE, Some("error updating state: " + faults[w.calls + 1])), Tick(Tick(w)))
  {
  }

  // ---------------------------------------------------------------------------
  // The dispatch phase

  /** Items that went through the gate keep their names, so the server still holds one per name. */
  lemma SettledKeepsWellFormed<S>(w: World, w': World, providers: Registry<S>, state: S, now: string)
    requires WellFormed(w) && w'.suites == w.suites
    requires |w'.testCases| == |w.testCases| && |w'.testWorkers| == |w.testWorkers|
    requires forall j :: 0 <= j < |w.testCases| ==> CaseSettled(w.testCases[j], w'.testCases[j], providers, state, now)
    requires forall j :: 0 <= j < |w.testWorkers| ==> WorkerSettled(w.testWorkers[j], w'.testWorkers[j], providers, state, now)
    ensures WellFormed(w')
  {
    forall i, j | 0 <= i < j < |w'.testCases| ensures w'.testCases[i].name != w'.testCases[j].name {
      assert w'.testCases[i].name == w.testCases[i].name;
      assert w'.testCases[j].name == w.testCases[j].name;
    }
    forall i, j | 0 <= i < j < |w'.testWorkers| ensures w'.testWorkers[i].name != w'.testWorkers[j].name {
      assert w'.testWorkers[i].name == w.testWorkers[i].name;
      assert w'.testWorkers[j].name == w.testWorkers[j].name;
    }
  }

  /** dispatchTestCases: a failed list returns its error; otherwise the loop runs over what was listed. */
  lemma CasesDispatchEffect<S>(w: World, providers: Registry<S>, state: S, now: string, faults: map<nat, string>)
    requires WellFormed(w)
    ensures var r := CasesDispatch(w, providers, state, now, faults);
      && (w.calls in faults ==> r == (Some(faults[w.calls]), Tick(w)))
      && (w.calls !in faults ==> CasesLoopDid(w.testCases, |w.testCases|, providers, state, now, faults, Tick(w), r))
  {
    if w.calls !in faults {
      CasesLoopEffect(w.testCases, |w.testCases|, providers, state, now, Tick(w), faults);
    }
  }

  lemma WorkersDispatchEffect<S>(w: World, providers: Registry<S>, state: S, now: string, faults: map<nat, string>)
    requires WellFormed(w)
    ensures var r := WorkersDispatch(w, providers, state, now, faults);
      && (w.calls in faults ==> r == (Some(faults[w.calls]), Tick(w)))
      && (w.calls !in faults ==> WorkersLoopDid(w.testWorkers, |w.testWorkers|, providers, state, now, faults, Tick(w), r))
  {
    if w.calls !in faults {
      WorkersLoopEffect(w.testWorkers, |w.testWorkers|, providers, state, now, Tick(w), faults);
    }
  }

  /** Every test case and every test worker went through the gate against `state`. */
  ghost predicate AllThroughGate<S>(w: World, w': World, providers: Registry<S>, state: S, now: string)
  {
    && |w'.testCases| == |w.testCases| && |w'.testWorkers| == |w.testWorkers|
    && (forall j :: 0 <= j < |w.testCases| ==> w'.testCases[j] == CaseAfterGate(w.testCases[j], providers, state, now))
    && (forall j :: 0 <= j < |w.testWorkers| ==> w'.testWorkers[j] == WorkerAfterGate(w.testWorkers[j], providers, state, now))
  }

  /** The pass wrote the status of an item of some kind: a test worker, or a test case. */
  ghost predicate WroteWorker(w: World, w': World)
  {
    w'.testWorkers != w.testWorkers || exists i :: |w.log| <= i < |w'.log| && w'.log[i].WorkerStatus?
  }

  /** What the dispatch phase of a pass does, whatever the server answers. */
  ghost predicate DispatchPhaseDid<S>(w: World, providers: Registry<S>, state: S, now: string,
                                      faults: map<nat, string>, r: (Outcome, World))
  {
    var (out, w') := r;
    && w'.suites == w.suites
    && WellFormed(w')
    && |w'.testCases| == |w.testCases| && |w'.testWorkers| == |w.testWorkers|
    && (forall j :: 0 <= j < |w.testCases| ==> CaseSettled(w.testCases[j], w'.testCases[j], providers, state, now))
    && (forall j :: 0 <= j < |w.testWorkers| ==> WorkerSettled(w.testWorkers[j], w'.testWorkers[j], providers, state, now))
    // the phase writes item statuses only, each the dispatch of an item that passed the gate,
    // and every test case before any test worker
    && w.log <= w'.log
    && (forall i :: |w.log| <= i < |w'.log| ==> w'.log[i].CaseStatus? || w'.log[i].WorkerStatus?)
    && (forall i :: |w.log| <= i < |w'.log| ==>
          CaseWriteOf(w.testCases, w'.log[i], providers, state, now) || WorkerWriteOf(w.testWorkers, w'.log[i], providers, state, now))
    && (forall i, j :: |w.log| <= i < j < |w'.log| && w'.log[j].CaseStatus? ==> w'.log[i].CaseStatus?)
    // test workers are reached only when the test case listing succeeded and every
    // test case resolved and went through the gate
    && (WroteWorker(w, w') ==>
          && w.calls !in faults
          && (forall j :: 0 <= j < |w.testCases| ==> TestCaseFor(w.testCases[j].spec.strategy, providers).Ok?)
          && (forall j :: 0 <= j < |w.testCases| ==> w'.testCases[j] == CaseAfterGate(w.testCases[j], providers, state, now)))
    && (out.err.None? <==> out.result == REQUEUE_AFTER_SECOND)
    && (out.err.Some? ==> out.result == DONE)
    && (out.err.None? ==> AllThroughGate(w, w', providers, state, now))
  }

  lemma DispatchPhaseEffect<S>(w: World, providers: Registry<S>, state: S, now: string, faults: map<nat, string>)
    requires WellFormed(w)
    ensures DispatchPhaseDid(w, providers, state, now, faults, DispatchPhase(w, providers, state, now, faults))
  {
    CasesDispatchEffect(w, providers, state, now, faults);
    var (caseErr, w1) := CasesDispatch(w, providers, state, now, faults);
    forall j | 0 <= j < |w.testWorkers| ensures WorkerSettled(w.testWorkers[j], w1.testWorkers[j], providers, state, now) {
    }
    SettledKeepsWellFormed(w, w1, providers, state, now);
    if caseErr.None? {
      WorkersDispatchEffect(w1, providers, state, now, faults);
      var (workerErr, w2) := WorkersDispatch(w1, providers, state, now, faults);
      forall j | 0 <= j < |w.testCases| ensures CaseSettled(w.testCases[j], w2.testCases[j], providers, state, now) {
      }
      SettledKeepsWellFormed(w, w2, providers, state, now);
      assert w1.log <= w2.log;
      forall i, j | |w.log| <= i < j < |w2.log| && w2.log[j].CaseStatus? ensures w2.log[i].CaseStatus? {
        if j < |w1.log| {
          assert w2.log[j] == w1.log[j] && w2.log[i] == w1.log[i];
        } else {
          assert false;
        }
      }
      forall i | |w.log| <= i < |w2.log|
        ensures CaseWriteOf(w.testCases, w2.log[i], providers, state, now) || WorkerWriteOf(w.testWorkers, w2.log[i], providers, state, now)
      {
        if i < |w1.log| {
          assert w2.log[i] == w1.log[i];
        }
      }
    } else {
      assert !WroteWorker(w, w1);
    }
  }

  /**
   * When test case dispatch returns an error, the pass returns it, prefixed, and
   * ends there: no test worker is listed, examined or written.
   */
  lemma CaseFailureSkipsWorkers<S>(w: World, providers: Registry<S>, state: S, now: string, faults: map<nat, string>)
    requires WellFormed(w)
    requires CasesDispatch(w, providers, state, now, faults).0.Some?
    ensures
      var (caseErr, w1) := CasesDispatch(w, providers, state, now, faults);
      var (out, w') := DispatchPhase(w, providers, state, now, faults);
      && out == Outcome(DONE, Some("error dispatching test cases: " + caseErr.value))
      && w' == w1
      && w'.testWorkers == w.testWorkers
      && (forall i :: |w.log| <= i < |w'.log| ==> w'.log[i].CaseStatus?)
  {
    CasesDispatchEffect(w, providers, state, now, faults);
  }

  /** A dispatch write names an item that carried no stamp, when names are distinct. */
  lemma CaseWriteNamesUnstamped<S>(items: seq<TestCase>, e: Write, j: nat, providers: Registry<S>, state: S, now: string)
    requires DistinctCaseNames(items) && j < |items|
    requires CaseWriteOf(items, e, providers, state, now) && e.CaseStatus? && e.testCase == items[j].name
    ensures items[j].status.dispatchedAt.None?
  {
    var k :| 0 <= k < |items| && CaseEligible(items[k], providers, state)
             && e == CaseStatus(items[k].name, DispatchCase(items[k], now).status);
  }

  lemma WorkerWriteNamesUnstamped<S>(items: seq<TestWorker>, e: Write, j: nat, providers: Registry<S>, state: S, now: string)
    requires DistinctWorkerNames(items) && j < |items|
    requires WorkerWriteOf(items, e, providers, state, now) && e.WorkerStatus? && e.testWorker == items[j].name
    ensures items[j].status.dispatchedAt.None?
  {
    var k :| 0 <= k < |items| && WorkerEligible(items[k], providers, state)
             && e == WorkerStatus(items[k].name, DispatchWorker(items[k], now).status);
  }

  // ---------------------------------------------------------------------------
  // The success path and dispatch across passes

  /**
   * Once the state is computed and its write succeeds, the pass is that write
   * and then the dispatch phase: the new state text is persisted before any item
   * is examined, and all the pass writes after it are item statuses.
   */
  lemma StateIsWrittenBeforeDispatch<S>(w: World, name: string, providers: Registry<S>,
                                        marshal: S -> Result<string, string>, now: string, faults: map<nat, string>)
    requires WellFormed(w) && Fetches(w, name, faults) && w.calls + 1 !in faults
    requires StageOf(w.suites[name], providers, marshal).Transitioned?
    ensures
      var stage := StageOf(w.suites[name], providers, marshal);
      var w1 := Persisted(w, name, stage.text);
      && WellFormed(w1)
      && ReconcilePass(w, name, providers, marshal, now, faults) == DispatchPhase(w1, providers, stage.state, now, faults)
      && DispatchPhaseDid(w1, providers, stage.state, now, faults, ReconcilePass(w, name, providers, marshal, now, faults))
  {
    var stage := StageOf(w.suites[name], providers, marshal);
    var w1 := Persisted(w, name, stage.text);
    assert WellFormed(w1);
    DispatchPhaseEffect(w1, providers, stage.state, now, faults);
  }

  /** The stage a fetched suite reached, and the state text the pass wrote, when it wrote one. */
  ghost predicate DispatchedBy<S>(w: World, w': World, name: string, providers: Registry<S>,
                                  marshal: S -> Result<string, string>, faults: map<nat, string>)
  {
    && Fetches(w, name, faults)
    && StageOf(w.suites[name], providers, marshal).Transitioned?
    && name in w'.suites
    && w'.suites[name].status.currentState == StageOf(w.suites[name], providers, marshal).text
  }

  /**
   * Dispatch is one way. An item that carries a dispatch stamp is left as it is,
   * whatever its predicate says; an item that changes is dispatched, its strategy
   * said it should run on the state this same pass persisted, and it had no stamp.
   */
  lemma DispatchIsOneWay<S>(w: World, name: string, providers: Registry<S>,
                            marshal: S -> Result<string, string>, now: string, faults: map<nat, string>)
    requires WellFormed(w)
    ensures
      var (out, w') := ReconcilePass(w, name, providers, marshal, now, faults);
      && WellFormed(w')
      && |w'.testCases| == |w.testCases| && |w'.testWorkers| == |w.testWorkers|
      && (forall j :: 0 <= j < |w.testCases| && w.testCases[j].status.dispatchedAt.Some? ==>
            w'.testCases[j] == w.testCases[j])
      && (forall j :: 0 <= j < |w.testWorkers| && w.testWorkers[j].status.dispatchedAt.Some? ==>
            w'.testWorkers[j] == w.testWorkers[j])
      && (forall j :: 0 <= j < |w.testCases| && w'.testCases[j] != w.testCases[j] ==>
            && DispatchedBy(w, w', name, providers, marshal, faults)
            && CaseEligible(w.testCases[j], providers, StageOf(w.suites[name], providers, marshal).state)
            && w'.testCases[j] == DispatchCase(w.testCases[j], now))
      && (forall j :: 0 <= j < |w.testWorkers| && w'.testWorkers[j] != w.testWorkers[j] ==>
            && DispatchedBy(w, w', name, providers, marshal, faults)
            && WorkerEligible(w.testWorkers[j], providers, StageOf(w.suites[name], providers, marshal).state)
            && w'.testWorkers[j] == DispatchWorker(w.testWorkers[j], now))
      // and no status update of the pass is addressed to an item that carried a stamp
      && w.log <= w'.log
      && (forall i, j ::
            |w.log| <= i < |w'.log| && 0 <= j < |w.testCases| && w'.log[i].CaseStatus? && w'.log[i].testCase == w.testCases[j].name
            ==> w.testCases[j].status.dispatchedAt.None?)
      && (forall i, j ::
            |w.log| <= i < |w'.log| && 0 <= j < |w.testWorkers| && w'.log[i].WorkerStatus? && w'.log[i].testWorker == w.testWorkers[j].name
            ==> w.testWorkers[j].status.dispatchedAt.None?)
  {
    var (out, w') := ReconcilePass(w, name, providers, marshal, now, faults);
    if Fetches(w, name, faults) {
      var s := w.suites[name];
      var stage := StageOf(s, providers, marshal);
      if stage.SetupFailed? {
        SetupFailureRecordsError(w, name, providers, marshal, now, faults);
      } else if stage.Transitioned? && w.calls + 1 !in faults {
        StateIsWrittenBeforeDispatch(w, name, providers, marshal, now, faults);
        var w1 := Persisted(w, name, stage.text);
        forall i, j | |w.log| <= i < |w'.log| && 0 <= j < |w.testCases| &&
                      w'.log[i].CaseStatus? && w'.log[i].testCase == w.testCases[j].name
          ensures w.testCases[j].status.dispatchedAt.None?
        {
          assert i != |w.log| by { assert w'.log[|w.log|] == w1.log[|w.log|]; }
          CaseWriteNamesUnstamped(w.testCases, w'.log[i], j, providers, stage.state, now);
        }
        forall i, j | |w.log| <= i < |w'.log| && 0 <= j < |w.testWorkers| &&
                      w'.log[i].WorkerStatus? && w'.log[i].testWorker == w.testWorkers[j].name
          ensures w.testWorkers[j].status.dispatchedAt.None?
        {
          assert i != |w.log| by { assert w'.log[|w.log|] == w1.log[|w.log|]; }
          WorkerWriteNamesUnstamped(w.testWorkers, w'.log[i], j, providers, stage.state, now);
        }
      }
    }
  }

  /**
   * A pass that returns no error either found no suite and wrote nothing,
   * recorded a setup error, or persisted the new state and put every test case
   * and every test worker through the gate; the last two requeue after a second.
   */
  lemma CompletedPass<S>(w: World, name: string, providers: Registry<S>,
                         marshal: S -> Result<string, string>, now: string, faults: map<nat, string>)
    requires WellFormed(w)
    requires ReconcilePass(w, name, providers, marshal, now, faults).0.err.None?
    ensures
      var (out, w') := ReconcilePass(w, name, providers, marshal, now, faults);
      || (name !in w.suites && out.result == DONE && NothingWritten(w, w'))
      || (Fetches(w, name, faults) && StageOf(w.suites[name], providers, marshal).SetupFailed?
          && out.result == REQUEUE_AFTER_SECOND)
      || (DispatchedBy(w, w', name, providers, marshal, faults) && out.result == REQUEUE_AFTER_SECOND
          && AllThroughGate(w, w', providers, StageOf(w.suites[name], providers, marshal).state, now))
  {
    if Fetches(w, name, faults) {
      var stage := StageOf(w.suites[name], providers, marshal);
      if stage.SetupFailed? {
        SetupFailureRecordsError(w, name, providers, marshal, now, faults);
      } else if stage.Transitioned? && w.calls + 1 !in faults {
        StateIsWrittenBeforeDispatch(w, name, providers, marshal, now, faults);
      }
    }
  }

  /**
   * Dispatch happens at most once per item: whatever the second of two passes
   * uses (registry, encoder, clock, server answers), it leaves every item the
   * first pass dispatched, and every item that was dispatched before, as it is.
   */
  lemma DispatchIsIdempotent<S>(w: World, name: string, providers: Registry<S>, marshal: S -> Result<string, string>,
                                now: string, faults: map<nat, string>,
                                name2: string, providers2: Registry<S>, marshal2: S -> Result<string, string>,
                                now2: string, faults2: map<nat, string>)
    requires WellFormed(w)
    ensures
      var w1 := ReconcilePass(w, name, providers, marshal, now, faults).1;
      var w2 := ReconcilePass(w1, name2, providers2, marshal2, now2, faults2).1;
      && |w1.testCases| == |w.testCases| && |w1.testWorkers| == |w.testWorkers|
      && |w2.testCases| == |w.testCases| && |w2.testWorkers| == |w.testWorkers|
      && (forall j :: 0 <= j < |w.testCases| && (w1.testCases[j] != w.testCases[j] || w.testCases[j].status.dispatchedAt.Some?) ==>
            w2.testCases[j] == w1.testCases[j])
      && (forall j :: 0 <= j < |w.testWorkers| && (w1.testWorkers[j] != w.testWorkers[j] || w.testWorkers[j].status.dispatchedAt.Some?) ==>
            w2.testWorkers[j] == w1.testWorkers[j])
  {
    DispatchIsOneWay(w, name, providers, marshal, now, faults);
    var w1 := ReconcilePass(w, name, providers, marshal, now, faults).1;
    DispatchIsOneWay(w1, name2, providers2, marshal2, now2, faults2);
  }

  /** After a pass persists a non-empty state text, the next pass starts from that text. */
  lemma NextPassStartsFromPersisted<S>(w: World, name: string, providers: Registry<S>,
                                       marshal: S -> Result<string, string>, now: string, faults: map<nat, string>)
    requires WellFormed(w) && Fetches(w, name, faults) && w.calls + 1 !in faults
    requires StageOf(w.suites[name], providers, marshal).Transitioned?
    requires StageOf(w.suites[name], providers, marshal).text != ""
    ensures
      var w' := ReconcilePass(w, name, providers, marshal, now, faults).1;
      name in w'.suites && StartingState(w'.suites[name]) == StageOf(w.suites[name], providers, marshal).text
  {
    StateIsWrittenBeforeDispatch(w, name, providers, marshal, now, faults);
  }
}
