/** The life of a url-map test class: registration when the class is
    defined, class set-up (shared GCP resources once, then a client runner
    and a test client of its own), class teardown (runner cleanup, shared
    cleanup after the last class, the restart check), and the rule that
    aborts test methods once the run has a failure or an error.

    The model makes no external calls: whether a call raises is an input of
    the method that makes it, and the calls on the shared GCP resource
    manager are counted in the registry. */
module Lifecycle {
  import opened Strings
  import Naming

  /** Only classes whose name starts with this are tracked as test cases. */
  const TestClassPrefix: string := "Test"

  predicate IsTestCaseName(name: string) {
    StartsWith(name, TestClassPrefix)
  }

  /** Shared GCP resources are set up by the class that starts first. */
  predicate IsFirstToStart(started: set<string>) {
    started == {}
  }

  /** Shared GCP resources are torn down once every tracked class finished. */
  predicate CleanupAllDue(finished: set<string>, names: set<string>) {
    finished == names
  }

  /** The process-wide tracking state the metaclass hands to every class,
      together with the calls made on the shared resource manager. */
  class Registry {
    var testCaseClasses: seq<string>
    var testCaseNames: set<string>
    var startedTestCases: set<string>
    var finishedTestCases: set<string>
    /** `GcpResourceManager().setup(...)` calls, and those that returned. */
    var gcpSetupCalls: nat
    var gcpSetupsDone: nat
    /** The class list the last setup call was given. */
    var provisioned: seq<string>
    /** Teardowns that asked `_cleanup` to remove the shared resources. */
    var gcpCleanupRequests: nat

    ghost predicate Valid()
      reads this
    {
      (forall i :: 0 <= i < |testCaseClasses| ==> testCaseClasses[i] in testCaseNames) &&
      (forall n :: n in testCaseNames ==> n in testCaseClasses) &&
      (forall n :: n in testCaseNames ==> IsTestCaseName(n)) &&
      gcpSetupsDone == (if startedTestCases == {} then 0 else 1) &&
      gcpSetupsDone <= gcpSetupCalls
    }

    constructor ()
      ensures Valid()
      ensures testCaseClasses == [] && testCaseNames == {}
      ensures startedTestCases == {} && finishedTestCases == {}
      ensures gcpSetupCalls == 0 && gcpSetupsDone == 0 && gcpCleanupRequests == 0
      ensures provisioned == []
    {
      testCaseClasses, testCaseNames := [], {};
      startedTestCases, finishedTestCases := {}, {};
      gcpSetupCalls, gcpSetupsDone, gcpCleanupRequests := 0, 0, 0;
      provisioned := [];
    }

    /** The tracking step of the metaclass: a class named `Test...` is
        appended to the class list and its name added to the name set; any
        other class leaves the registry as it is. */
    method Register(name: string)
      requires Valid()
      modifies this`testCaseClasses, this`testCaseNames
      ensures Valid()
      ensures testCaseClasses == if IsTestCaseName(name) then old(testCaseClasses) + [name] else old(testCaseClasses)
      ensures testCaseNames == if IsTestCaseName(name) then old(testCaseNames) + {name} else old(testCaseNames)
    {
      if IsTestCaseName(name) {
        testCaseNames := testCaseNames + {name};
        testCaseClasses := testCaseClasses + [name];
      }
    }
  }

  /** The test client started by class set-up: the server it is pointed at
      (the module and class that name the host, and the xDS port), the RPCs
      and metadata it sends, and its rate. */
  datatype Client = Client(moduleName: string, className: string, serverXdsPort: nat,
                           rpc: string, metadata: string, qps: nat)
  {
    /** `xds:///` followed by the class's hostname. */
    function ServerTarget(): string {
      "xds:///" + Naming.Hostname(moduleName, className, serverXdsPort)
    }
  }

  /** Default RPC configuration handed to the `client_init_config` hook. */
  const DefaultRpc: string := "UnaryCall,EmptyCall"
  const DefaultMetadata: string := ""

  /** The client set-up starts: it targets the class's hostname through the
      xDS resolver and sends what the `client_init_config` hook chose from
      the default RPCs and metadata. */
  function ClientFor(moduleName: string, className: string, serverXdsPort: nat,
                     clientInitConfig: (string, string) -> (string, string), qps: nat): Client
  {
    var (rpc, metadata) := clientInitConfig(DefaultRpc, DefaultMetadata);
    Client(moduleName, className, serverXdsPort, rpc, metadata, qps)
  }

  /** The client's target names the server through the xDS resolver, and the
      host part reads back as module name, kebab-case class name and port. */
  lemma ClientTargetDecodes(moduleName: string, className: string, serverXdsPort: nat,
                            clientInitConfig: (string, string) -> (string, string), qps: nat)
    requires '.' !in moduleName && ':' !in moduleName && ':' !in className
    ensures var target := ClientFor(moduleName, className, serverXdsPort, clientInitConfig, qps).ServerTarget();
      StartsWith(target, "xds:///") &&
      Naming.DecodeHostname(target[7..]) == Some((moduleName, Naming.SplitCamel(className, Naming.Dash), serverXdsPort))
  {
    var h := Naming.Hostname(moduleName, className, serverXdsPort);
    assert ("xds:///" + h)[7..] == h;
    Naming.HostnameDecodes(moduleName, className, serverXdsPort);
  }

  datatype SetUpStage = SharedSetup | RunnerCreation | ClientStart

  /** `Skipped`: unittest.SkipTest before any state changed; `Failed`: the
      exception from that stage is logged and re-raised. */
  datatype SetUpOutcome = Skipped | Failed(stage: SetUpStage) | Ready

  /** How `setUpClass` ends, given the skip decision, whether this class is
      the first to start, and which of the external calls return.  It is
      ready exactly when every call it makes returns; the shared setup can
      only fail the class that starts first. */
  function SetUpOutcomeOf(supported: bool, firstToStart: bool, gcpSetupOk: bool, runnerOk: bool, clientOk: bool): (o: SetUpOutcome)
    ensures o == Skipped <==> !supported
    ensures o == Ready <==> supported && (gcpSetupOk || !firstToStart) && runnerOk && clientOk
    ensures o == Failed(SharedSetup) <==> supported && firstToStart && !gcpSetupOk
    ensures o == Failed(RunnerCreation) ==> !runnerOk
    ensures o == Failed(ClientStart) ==> runnerOk && !clientOk
  {
    if !supported then Skipped
    else if firstToStart && !gcpSetupOk then Failed(SharedSetup)
    else if !runnerOk then Failed(RunnerCreation)
    else if !clientOk then Failed(ClientStart)
    else Ready
  }

  /** What teardown did: whether the shared resources were included in the
      cleanup, whether a cleanup error was logged and swallowed, and the
      restart count captured before cleanup. */
  datatype Teardown = Teardown(cleanupAll: bool, cleanupErrorLogged: bool, clientRestarts: nat) {
    /** The restart assertion fails the class. */
    predicate Fails() {
      clientRestarts != 0
    }
  }

  /** The restart count teardown checks: the runner's answer, or 0 when
      there is no runner or the lookup raised `RetryError` or
      `k8s.NotFound` (`None`). */
  function CapturedRestarts(hasRunner: bool, lookup: Option<nat>): (n: nat)
    ensures n != 0 ==> hasRunner && lookup == Some(n)
    ensures hasRunner && lookup.Some? ==> n == lookup.value
  {
    if hasRunner && lookup.Some? then lookup.value else 0
  }

  /** One url-map test class, created through the metaclass. */
  class TestCase {
    const name: string
    const shortModuleName: string
    const registry: Registry
    /** `test_client_runner` is set. */
    var hasRunner: bool
    var client: Option<Client>
    /** `cleanupAfterTests` is registered as a class cleanup. */
    var cleanupRegistered: bool
    var runnerCleanups: nat

    /** Class creation proper: records the module name and registers the
        class. */
    constructor (name: string, moduleName: string, registry: Registry)
      requires registry.Valid()
      modifies registry`testCaseClasses, registry`testCaseNames
      ensures registry.Valid()
      ensures this.name == name && this.registry == registry
      ensures shortModuleName == moduleName
      ensures !hasRunner && client == None && !cleanupRegistered && runnerCleanups == 0
      ensures registry.testCaseClasses == if IsTestCaseName(name) then old(registry.testCaseClasses) + [name] else old(registry.testCaseClasses)
      ensures registry.testCaseNames == if IsTestCaseName(name) then old(registry.testCaseNames) + {name} else old(registry.testCaseNames)
    {
      this.name := name;
      this.shortModuleName := moduleName;
      this.registry := registry;
      hasRunner, client, cleanupRegistered, runnerCleanups := false, None, false, 0;
      new;
      registry.Register(name);
    }

    /** `setUpClass`.  `supported` is the answer of `is_supported`; the
        three `...Ok` flags say whether the shared setup, the runner creation
        and the client start return instead of raising; `clientInitConfig`
        is the subclass hook. */
    method SetUpClass(supported: bool, gcpSetupOk: bool, runnerOk: bool, clientOk: bool,
                      clientInitConfig: (string, string) -> (string, string), qps: nat, serverXdsPort: nat)
      returns (o: SetUpOutcome)
      requires registry.Valid()
      modifies this`hasRunner, this`client, this`cleanupRegistered
      modifies registry`startedTestCases, registry`gcpSetupCalls, registry`gcpSetupsDone, registry`provisioned
      ensures registry.Valid()
      ensures o == SetUpOutcomeOf(supported, IsFirstToStart(old(registry.startedTestCases)), gcpSetupOk, runnerOk, clientOk)
      // a skipped class does not get its teardown registered
      ensures cleanupRegistered == (old(cleanupRegistered) || supported)
      // the shared setup is called, with the tracked classes, exactly when
      // no class has started yet
      ensures var calls := if supported && IsFirstToStart(old(registry.startedTestCases)) then 1 else 0;
        registry.gcpSetupCalls == old(registry.gcpSetupCalls) + calls &&
        registry.provisioned == if calls == 1 then old(registry.testCaseClasses) else old(registry.provisioned)
      // the class counts as started once the shared setup did not raise
      ensures registry.startedTestCases ==
        if o == Skipped || o == Failed(SharedSetup) then old(registry.startedTestCases)
        else old(registry.startedTestCases) + {name}
      ensures hasRunner == (old(hasRunner) || o == Ready || o == Failed(ClientStart))
      ensures client == if o == Ready then Some(ClientFor(shortModuleName, name, serverXdsPort, clientInitConfig, qps)) else old(client)
    {
      if !supported {
        return Skipped;
      }
      cleanupRegistered := true;
      if IsFirstToStart(registry.startedTestCases) {
        registry.gcpSetupCalls := registry.gcpSetupCalls + 1;
        registry.provisioned := registry.testCaseClasses;
        if !gcpSetupOk {
          return Failed(SharedSetup);
        }
        registry.gcpSetupsDone := registry.gcpSetupsDone + 1;
      }
      registry.startedTestCases := registry.startedTestCases + {name};
      if !runnerOk {
        return Failed(RunnerCreation);
      }
      hasRunner := true;
      if !clientOk {
        return Failed(ClientStart);
      }
      client := Some(ClientFor(shortModuleName, name, serverXdsPort, clientInitConfig, qps));
      return Ready;
    }

    /** `cleanupAfterTests` together with `_cleanup`.  `restartLookup` is
        the runner's restart count, or `None` when the lookup raised
        `RetryError` or `k8s.NotFound`;
        `cleanupOk` says whether the retried cleanup succeeded.  unittest
        runs it only for a class whose set-up registered it. */
    method CleanupAfterTests(restartLookup: Option<nat>, cleanupOk: bool) returns (t: Teardown)
      requires cleanupRegistered
      requires registry.Valid()
      modifies this`runnerCleanups, this`cleanupRegistered, registry`finishedTestCases, registry`gcpCleanupRequests
      ensures registry.Valid()
      // unittest pops the class cleanup as it runs it
      ensures !cleanupRegistered
      ensures registry.finishedTestCases == old(registry.finishedTestCases) + {name}
      ensures t.cleanupAll <==> CleanupAllDue(registry.finishedTestCases, registry.testCaseNames)
      ensures registry.gcpCleanupRequests == old(registry.gcpCleanupRequests) + (if t.cleanupAll then 1 else 0)
      ensures runnerCleanups == old(runnerCleanups) + (if hasRunner then 1 else 0)
      ensures t.cleanupErrorLogged == !cleanupOk
      ensures t.clientRestarts == CapturedRestarts(hasRunner, restartLookup)
      ensures t.Fails() <==> hasRunner && restartLookup.Some? && restartLookup.value != 0
    {
      var clientRestarts := 0;
      if hasRunner {
        match restartLookup
        case Some(n) => clientRestarts := n;
        case None =>
      }
      registry.finishedTestCases := registry.finishedTestCases + {name};
      var cleanupAll := CleanupAllDue(registry.finishedTestCases, registry.testCaseNames);
      if hasRunner {
        runnerCleanups := runnerCleanups + 1;
      }
      if cleanupAll {
        registry.gcpCleanupRequests := registry.gcpCleanupRequests + 1;
      }
      cleanupRegistered := false;
      t := Teardown(cleanupAll, !cleanupOk, clientRestarts);
    }
  }

  /** The metaclass `__new__`: the short module name is computed from the
      file that defines the class, then the class is created and tracked. */
  method DefineTestCase(name: string, modulePath: string, registry: Registry) returns (c: TestCase)
    requires registry.Valid()
    modifies registry`testCaseClasses, registry`testCaseNames
    ensures fresh(c) && registry.Valid()
    ensures c.name == name && c.registry == registry
    ensures c.shortModuleName == Naming.ShortModuleName(modulePath)
    ensures !c.hasRunner && c.client == None && !c.cleanupRegistered && c.runnerCleanups == 0
    ensures registry.testCaseClasses == if IsTestCaseName(name) then old(registry.testCaseClasses) + [name] else old(registry.testCaseClasses)
    ensures registry.testCaseNames == if IsTestCaseName(name) then old(registry.testCaseNames) + {name} else old(registry.testCaseNames)
  {
    var m := Naming.ShortModuleName(modulePath);
    c := new TestCase(name, m, registry);
  }

  /** unittest's record of a run: the number of tests started and the ids of
      the tests that failed or raised. */
  datatype TestResult = TestResult(testsRun: nat, failures: seq<string>, errors: seq<string>)

  datatype MethodOutcome = Pass | Failure | Error

  /** `run`: once the result holds a failure or an error the test method is
      not run at all; otherwise it runs and its outcome is recorded. */
  function Run(result: TestResult, test: string, outcome: MethodOutcome): (r: TestResult)
    ensures result.failures != [] || result.errors != [] ==> r == result
  {
    if result.failures != [] || result.errors != [] then result
    else
      var started := result.(testsRun := result.testsRun + 1);
      match outcome
      case Pass => started
      case Failure => started.(failures := result.failures + [test])
      case Error => started.(errors := result.errors + [test])
  }

  function RunAll(result: TestResult, tests: seq<(string, MethodOutcome)>): TestResult
    decreases |tests|
  {
    if tests == [] then result else RunAll(Run(result, tests[0].0, tests[0].1), tests[1..])
  }

  /** Index of the first test that does not pass, or `|tests|`. */
  function FirstNonPass(tests: seq<(string, MethodOutcome)>): (k: nat)
    ensures k <= |tests|
    ensures forall i :: 0 <= i < k ==> tests[i].1 == Pass
    ensures k < |tests| ==> tests[k].1 != Pass
  {
    if tests == [] then 0 else if tests[0].1 != Pass then 0 else 1 + FirstNonPass(tests[1..])
  }

  /** A result that already records a failure or an error stays as it is. */
  lemma {:induction false} RunAllAborted(result: TestResult, tests: seq<(string, MethodOutcome)>)
    requires result.failures != [] || result.errors != []
    ensures RunAll(result, tests) == result
    decreases |tests|
  {
    if tests != [] {
      RunAllAborted(result, tests[1..]);
    }
  }

  /** Fast fail: starting from a clean result, the tests run up to and
      including the first one that does not pass, and only that one is
      recorded as a failure or an error. */
  lemma {:induction false} RunAllFastFail(result: TestResult, tests: seq<(string, MethodOutcome)>)
    requires result.failures == [] && result.errors == []
    ensures var k := FirstNonPass(tests);
      var r := RunAll(result, tests);
      r.testsRun == result.testsRun + (if k < |tests| then k + 1 else k) &&
      (k == |tests| ==> r.failures == [] && r.errors == []) &&
      (k < |tests| && tests[k].1 == Failure ==> r.failures == [tests[k].0] && r.errors == []) &&
      (k < |tests| && tests[k].1 == Error ==> r.errors == [tests[k].0] && r.failures == [])
    decreases |tests|
  {
    if tests != [] {
      var next := Run(result, tests[0].0, tests[0].1);
      if tests[0].1 == Pass {
        RunAllFastFail(next, tests[1..]);
      } else {
        RunAllAborted(next, tests[1..]);
      }
    }
  }

  /** Shared cleanup fires at most once and exactly when the last class
      finishes: classes finish in `order`, each tracked, none twice and none
      already finished before; the finished set after the `k`-th teardown
      equals the name set exactly for the last teardown. */
  ghost function FinishedAfter(initial: set<string>, order: seq<string>, k: nat): set<string>
    requires k <= |order|
  {
    initial + set i | 0 <= i < k :: order[i]
  }

  lemma CleanupAllOnlyAtLast(names: set<string>, initial: set<string>, order: seq<string>, k: nat)
    requires k < |order|
    requires forall i, j :: 0 <= i < j < |order| ==> order[i] != order[j]
    requires forall i :: 0 <= i < |order| ==> order[i] in names && order[i] !in initial
    requires initial + (set i | 0 <= i < |order| :: order[i]) == names
    ensures CleanupAllDue(FinishedAfter(initial, order, k + 1), names) <==> k == |order| - 1
  {
    var f := FinishedAfter(initial, order, k + 1);
    if k < |order| - 1 {
      var last := order[|order| - 1];
      assert last in names && last !in f;
    } else {
      assert (set i | 0 <= i < k + 1 :: order[i]) == (set i | 0 <= i < |order| :: order[i]);
    }
  }

  /** No default client configuration change: the identity hook. */
  function KeepConfig(rpc: string, metadata: string): (string, string) {
    (rpc, metadata)
  }

  /** The scenarios below take the class names and short module names as
      inputs; every tracked name starts with "Test". */
  predicate DistinctTestNames(a: string, b: string) {
    IsTestCaseName(a) && IsTestCaseName(b) && a != b
  }

  /** A fresh process in which two tracked classes have been defined. */
  method NewPair(nameA: string, moduleA: string, nameB: string, moduleB: string)
    returns (r: Registry, a: TestCase, b: TestCase)
    requires DistinctTestNames(nameA, nameB)
    ensures fresh(r) && fresh(a) && fresh(b) && r.Valid()
    ensures a.registry == r && b.registry == r && a.name == nameA && b.name == nameB
    ensures r.testCaseNames == {nameA, nameB} && r.testCaseClasses == [nameA, nameB]
    ensures r.startedTestCases == {} && r.finishedTestCases == {}
    ensures r.gcpSetupCalls == 0 && r.gcpSetupsDone == 0 && r.gcpCleanupRequests == 0
    ensures !a.hasRunner && !b.hasRunner && a.client == None && b.client == None
    ensures !a.cleanupRegistered && !b.cleanupRegistered
  {
    r := new Registry();
    a := new TestCase(nameA, moduleA, r);
    b := new TestCase(nameB, moduleB, r);
  }

  /** Two tracked classes run one after the other in one process: the
      first to start sets up the shared resources, the second does not; the
      first to finish leaves them, the second removes them. */
  method TwoClassScenario(nameA: string, moduleA: string, nameB: string, moduleB: string, port: nat)
    returns (setupCalls: nat, cleanupRequests: nat, firstTeardown: Teardown, secondTeardown: Teardown)
    requires DistinctTestNames(nameA, nameB)
    ensures setupCalls == 1 && cleanupRequests == 1
    ensures !firstTeardown.cleanupAll && secondTeardown.cleanupAll
    ensures !firstTeardown.Fails() && !secondTeardown.Fails()
  {
    var r, a, b := NewPair(nameA, moduleA, nameB, moduleB);
    var oa := a.SetUpClass(true, true, true, true, KeepConfig, 25, port);
    var ob := b.SetUpClass(true, true, true, true, KeepConfig, 25, port);
    firstTeardown := a.CleanupAfterTests(Some(0), true);
    secondTeardown := b.CleanupAfterTests(Some(0), true);
    setupCalls, cleanupRequests := r.gcpSetupCalls, r.gcpCleanupRequests;
  }

  /** The first class's shared setup raises: its teardown still runs, so the
      class is finished without ever having started, and the next class to
      start calls the shared setup again. */
  method SetupFailureScenario(nameA: string, moduleA: string, nameB: string, moduleB: string, port: nat)
    returns (started: set<string>, finished: set<string>, setupCalls: nat, outcome: SetUpOutcome)
    requires DistinctTestNames(nameA, nameB)
    ensures outcome == Failed(SharedSetup)
    ensures started == {nameB} && finished == {nameA}
    ensures setupCalls == 2
  {
    var r, a, b := NewPair(nameA, moduleA, nameB, moduleB);
    outcome := a.SetUpClass(true, false, true, true, KeepConfig, 25, port);
    var ta := a.CleanupAfterTests(None, true);
    var ob := b.SetUpClass(true, true, true, true, KeepConfig, 25, port);
    started, finished, setupCalls := r.startedTestCases, r.finishedTestCases, r.gcpSetupCalls;
  }

  /** A tracked class that `is_supported` turns down never registers its
      teardown, so it cannot finish and the shared resources are never
      requested to be removed, even after every other class finished. */
  method SkippedClassScenario(nameA: string, moduleA: string, nameB: string, moduleB: string, port: nat)
    returns (cleanupRequests: nat, outcome: SetUpOutcome, skippedTeardownRegistered: bool,
             finished: set<string>, names: set<string>)
    requires DistinctTestNames(nameA, nameB)
    ensures outcome == Skipped && !skippedTeardownRegistered
    ensures finished == {nameB} && names == {nameA, nameB} && !CleanupAllDue(finished, names)
    ensures cleanupRequests == 0
  {
    var r, a, b := NewPair(nameA, moduleA, nameB, moduleB);
    outcome := a.SetUpClass(false, true, true, true, KeepConfig, 25, port);
    var ob := b.SetUpClass(true, true, true, true, KeepConfig, 25, port);
    var tb := b.CleanupAfterTests(Some(0), true);
    cleanupRequests, skippedTeardownRegistered := r.gcpCleanupRequests, a.cleanupRegistered;
    finished, names := r.finishedTestCases, r.testCaseNames;
  }

  /** A client that restarted fails the class in teardown even though the
      cleanup succeeded; the client started is the one set-up describes. */
  method RestartScenario(name: string, moduleName: string, port: nat, restarts: nat)
    returns (t: Teardown, client: Client)
    requires IsTestCaseName(name) && restarts > 0
    ensures t.Fails() && t.clientRestarts == restarts && !t.cleanupErrorLogged && t.cleanupAll
    ensures client == ClientFor(moduleName, name, port, KeepConfig, 25)
    ensures client.rpc == DefaultRpc && client.metadata == DefaultMetadata
  {
    var r := new Registry();
    var a := new TestCase(name, moduleName, r);
    var o := a.SetUpClass(true, true, true, true, KeepConfig, 25, port);
    client := a.client.value;
    t := a.CleanupAfterTests(Some(restarts), true);
  }
}
