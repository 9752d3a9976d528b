# URL-map test case framework, modelled in Dafny

This project models the core of the xDS URL-map test case base class (`XdsUrlMapTestCase`), which is used by the proxyless gRPC interop tests on GCP. Each URL-map test is a class whose name starts with `Test`. Its metaclass tracks every such class in one process-wide list of classes and three sets: the registered names, the classes that have started and the classes that have finished.

- The first class to start asks the shared GCP resource manager to set up its resources, handing it the list of tracked classes.
- Every class starts its own client runner and test client. The client is pointed at `xds:///<hostname>`, where the hostname is built from the test's module name and class name.
- The class whose teardown finishes the set also removes the shared resources.
- A test method is not run once the run already has a failure or an error.
- Tests judge routing with `assertRpcStatusCode`. It compares two snapshots of the client's accumulated per-method, per-status RPC counters against expected ratios, within a tolerance.

The model has four modules:

- `Strings` holds the parts of Python's `str` and `os.path` the framework uses: `endswith`, `startswith`, `replace`, the last path component and `str(int)`. It also has `Before`/`After`, which split at the first occurrence of a character. The framework does not split strings; these exist only for the model's own hostname decoder, `Naming.DecodeHostname`.
- `Naming` covers the name derivation:
  - `_split_camel`, for CamelCase to kebab-case;
  - `short_module_name`, from the file that defines the test;
  - `path_matcher_name` and `hostname`.
- `Distribution` covers `assertRpcStatusCode` once both snapshots are in hand. A snapshot is a `map<(string, int), nat>` from (method, status value) to count, and a missing key reads as 0, as in the protobuf maps. `ratio`, `tolerance` and `diff_ratio` are `real`.
- `Lifecycle` covers the rest:
  - the shared tracking state, as class `Registry`;
  - one test class, as class `TestCase`, with its `setUpClass`, `cleanupAfterTests` and `_cleanup`;
  - the `run` abort rule, as a function over unittest's result record;
  - scenario methods that run whole class lifecycles on fresh objects.

The model makes no external calls. Each call's outcome is an input of the method that makes it:
- whether `is_supported` accepts the class;
- whether the shared GCP setup, the runner creation or the client start raises;
- what the pod-restart lookup answers, and whether it raises `RetryError` or `k8s.NotFound`;
- whether the retried cleanup ends in `RetryError`.

The calls on the shared resource manager are counted in `Registry`: setup calls, setups that returned, and requests for the full cleanup.

Five behaviours of the code are modelled as written, though they are easy to misread:

- A class whose shared setup raises still has its teardown run, because the teardown is registered before the setup. It therefore ends up finished without ever having started: the finished set need not be a subset of the started set (`Lifecycle.SetupFailureScenario`). The next class to start calls the shared setup again.
- A class that `is_supported` turns down raises `SkipTest` before its teardown is registered. `CleanupAfterTests` requires a registered teardown, so that class can never finish, and the full cleanup is never requested (`Lifecycle.SkippedClassScenario`).
- `run` checks the `TestResult` it is given. unittest shares one result object across a whole run, so a failure in one class also stops the test methods of every later class.
- When a method's total does not change during the window, `abs(seen - want) / total` raises `ZeroDivisionError`. This is modelled as the verdict `ZeroTotal`, not as a precondition.
- A negative total passes the check for every non-negative tolerance (`Distribution.NegativeTotalPasses`). Only a client whose counters go down can produce one; `Distribution.SeenWithinTotal` shows that a consistent client never does.

## Model

| member | source | states |
|---|---|---|
| Naming.LStrip | framework/xds_url_map_testcase.py:67-69 | `lstrip(delimiter)` returns a suffix of its input; everything it removed is the delimiter; the result does not start with the delimiter |
| Naming.SplitCamelIsKebab | framework/xds_url_map_testcase.py:65-69 | `_split_camel` never returns a name that starts with the delimiter, and the result has no ASCII upper-case letter |
| Naming.DecamelNoUpper | framework/xds_url_map_testcase.py:67-68 | after the comprehension, no upper-case letter is left, unless the delimiter itself is one |
| Naming.SplitCamelIdempotent | framework/xds_url_map_testcase.py:65-69 | splitting a name that is already split returns it unchanged |
| Naming.SplitCamelRoundTrip | framework/xds_url_map_testcase.py:65-69 | for a class name that starts with an upper-case letter and does not contain the delimiter, re-capitalising after each delimiter gives back the class name; no information is lost |
| Naming.SplitCamelTwoWords | framework/xds_url_map_testcase.py:65-69 | two capitalised words, as in `TestRouting`, become the two words in lower case joined by `-` |
| Naming.DecamelKeepsLowercase | framework/xds_url_map_testcase.py:67-68 | a name with no upper-case letter passes through the comprehension unchanged |
| Strings.Basename | framework/xds_url_map_testcase.py:101-103 | the last path component has no `/`, is a suffix of the path, and is either the whole path or preceded by `/` |
| Strings.BasenameAfterSlash | framework/xds_url_map_testcase.py:101-103 | the last component of `dir/` + name is exactly that name |
| Strings.ReplaceFinalOccurrence | framework/xds_url_map_testcase.py:104-105 | when the pattern occurs only at the end, `replace(pattern, "")` removes exactly that final occurrence |
| Strings.ReplaceChar | framework/xds_url_map_testcase.py:106 | replacing one character by another keeps the length, changes exactly that character, and keeps every other character |
| Naming.ShortModuleNameTokens | framework/xds_url_map_testcase.py:101-106 | a short module name never contains `_`; for a file not ending in `_test.py`, it is the file name with every `_` turned into `-` |
| Naming.ShortModuleNameOfTestFile | framework/xds_url_map_testcase.py:101-106 | for `dir/` + stem + `_test.py`, where the stem has no `/` and no `_test.py`, the short module name is the stem with `_` turned into `-` |
| Naming.PathMatcherNameIsGcpName | framework/xds_url_map_testcase.py:213-216 | `<module>-<split class>-pm` matches `[a-z](?:[-a-z0-9]{0,61}[a-z0-9])?` whenever the module name is a GCP-style name starting with a letter, the class name is ASCII alphanumeric, and the result fits in 63 characters |
| Strings.DecimalString | framework/xds_url_map_testcase.py:207-211 | the port is written as a non-empty string of digits with no leading zero |
| Strings.DecimalRoundTrip | framework/xds_url_map_testcase.py:207-211 | reading the port's decimal string back gives the port |
| Naming.HostnameDecodes | framework/xds_url_map_testcase.py:205-211 | `<module>.<split class>:<port>` reads back uniquely into module name, split class name and port, when the module name has no `.` or `:` and the class name has no `:` |
| Lifecycle.Registry.constructor | framework/xds_url_map_testcase.py:84-90 | the process starts with an empty class list, empty name, started and finished sets, and no calls on the resource manager |
| Lifecycle.Registry.Register | framework/xds_url_map_testcase.py:107-114 | a class named `Test...` is appended to the class list and added to the name set; any other class leaves both unchanged; nothing else changes; the registry invariant is kept (list and set agree, every name starts with `Test`, the shared setup has succeeded exactly when some class has started) |
| Lifecycle.TestCase.constructor | framework/xds_url_map_testcase.py:92-114 | class creation records the module name and registers the class exactly as `Register` does; the new class has no runner, no client and no teardown registered |
| Lifecycle.DefineTestCase | framework/xds_url_map_testcase.py:100-111 | the metaclass gives the new class the short module name of its defining file, and registers it |
| Lifecycle.SetUpOutcomeOf | framework/xds_url_map_testcase.py:225-259 | set-up is skipped exactly when the class is unsupported; it is ready exactly when every external call it makes returns; the shared setup can fail only the class that starts first |
| Lifecycle.TestCase.SetUpClass | framework/xds_url_map_testcase.py:219-259 | teardown is registered unless the class is skipped. The shared setup is called, with the tracked class list, exactly when the started set is empty. The class joins the started set exactly when the shared setup was not needed or returned. The runner is set once runner creation returns, and the client is started against `xds:///` + hostname with the hook's RPCs and metadata. The registry invariant is kept |
| Lifecycle.ClientTargetDecodes | framework/xds_url_map_testcase.py:245-256 | the client's target starts with `xds:///`, and its host part reads back as module name, split class name and port |
| Lifecycle.CapturedRestarts | framework/xds_url_map_testcase.py:264-272 | the restart count checked in teardown is the runner's answer; it is 0 when there is no runner or the lookup raised `RetryError` or `k8s.NotFound` |
| Lifecycle.TestCase.CleanupAfterTests | framework/xds_url_map_testcase.py:261-308 | runs only for a class whose set-up registered the teardown (line 231), and uses that registration up, so a class is torn down at most once. The class is always added to the finished set. The full cleanup is requested exactly when the finished set then equals the name set. The runner is cleaned when there is one. A cleanup error is logged, not raised. Teardown fails exactly when the runner reported a non-zero restart count |
| Lifecycle.CleanupAllOnlyAtLast | framework/xds_url_map_testcase.py:274-277 | when tracked classes finish one after another, each once, the full cleanup is due after the k-th teardown exactly when it is the last one |
| Lifecycle.Run | framework/xds_url_map_testcase.py:326-335 | a result that already has a failure or an error is returned unchanged; the test is not run |
| Lifecycle.RunAllAborted | framework/xds_url_map_testcase.py:332-335 | once a failure or an error is recorded, no later test changes the result |
| Lifecycle.RunAllFastFail | framework/xds_url_map_testcase.py:326-335 | from a clean result, the tests run up to and including the first one that does not pass; only that test is recorded, as a failure or as an error, and nothing is recorded if all pass |
| Lifecycle.FirstNonPass | framework/xds_url_map_testcase.py:332-335 | the index it returns is the first test that does not pass; every test before it passes |
| Lifecycle.TwoClassScenario | framework/xds_url_map_testcase.py:234-277 | with two tracked classes started and finished in turn, the shared setup is called once; the first teardown keeps the shared resources, the second requests their removal; neither fails |
| Lifecycle.SetupFailureScenario | framework/xds_url_map_testcase.py:229-238 | when the first class's shared setup raises, that class ends finished but not started, and the next class calls the shared setup again |
| Lifecycle.SkippedClassScenario | framework/xds_url_map_testcase.py:225-231 | a class skipped by `is_supported` has no teardown registered, so it cannot finish: after the other class finishes the finished set is only that class, the full cleanup is not due, and it is never requested |
| Lifecycle.RestartScenario | framework/xds_url_map_testcase.py:295-301 | a client that restarted fails the class in teardown even though the cleanup succeeded; the client got the default RPCs and metadata |
| Distribution.DefaultExpectedPasses | framework/xds_url_map_testcase.py:72-78 | with the dataclass defaults (unary calls, status OK, ratio 1), a consistent client with a positive total passes at tolerance `t` exactly when the unary calls that did not end OK are at most `t` times the total |
| Distribution.SumMethod | framework/xds_url_map_testcase.py:441-452 | the loop over a method's counters computes the sum of its counts over all statuses |
| Distribution.Observe | framework/xds_url_map_testcase.py:437-453 | `seen` is the status count gained between the snapshots, and `total` is the method total gained |
| Distribution.AssertRpcStatusCode | framework/xds_url_map_testcase.py:429-467 | items are checked in order. The check passes exactly when every item has a non-zero total and a diff ratio within tolerance. Otherwise it reports the first failing item: either its total is zero (division by zero), or it breaks the tolerance, with the `seen`, `want`, `total` and `diff_ratio` the message prints |
| Distribution.TotalsOverCommonKeys | framework/xds_url_map_testcase.py:441-452 | for a consistent client, both totals can be summed over the keys of the later snapshot, because absent keys count 0 |
| Distribution.SeenWithinTotal | framework/xds_url_map_testcase.py:437-453 | for a client whose counters never go down, 0 <= seen <= total |
| Distribution.PassesIffWithinScaledTolerance | framework/xds_url_map_testcase.py:455-459 | with a positive total, an item passes exactly when the distance between seen and want is at most tolerance times total |
| Distribution.DiffRatioAtMostOne | framework/xds_url_map_testcase.py:455-456 | for a consistent client and a ratio in [0, 1], the diff ratio lies in [0, 1] |
| Distribution.NegativeTotalPasses | framework/xds_url_map_testcase.py:453-459 | a negative total passes for every non-negative tolerance, because the quotient is never positive |
| Distribution.WorkedExamples | framework/xds_url_map_testcase.py:453-467 | 250 of 1000 RPCs at ratio 0.25 gives diff ratio 0; 260 gives 0.01, which passes exactly for tolerances of at least 0.01 |

## Left out

- `bin/lib/common.py` is not part of this model. It is glue code: flag-driven factories for the Kubernetes and GCP managers, cached singletons, and exit handlers.
- The retry mechanics (10-second fixed wait, three attempts) are left out. A retried cleanup either succeeds or ends in `RetryError`, and that is an input of `CleanupAfterTests`.
- Remote and blocking calls are left out: `time.sleep`, CSDS fetches, `wait_for_active_xds_channel`, client reconfiguration, the stats requests, the logs-explorer links and all logging. `AssertRpcStatusCode` starts from the two snapshots.
- `test_client_config` with its polling of `_fetch_and_check_xds_config`, `test_rpc_distribution`, `configure_and_send`, `assertNumEndpoints` and the other assertion helpers are left out. They only call remote services and the abstract hooks. The polling policy of `test_client_config` (a 15-second fixed wait, a 600-second timeout; lines 341-348) is not modelled, because the `retryers` implementation is not part of this model.
- The internals of `GcpResourceManager` and the abstract hooks (`url_map_change`, `xds_config_validate`, `rpc_distribution_validate`) are left out. The `client_init_config` hook is a function value passed to `SetUpClass`, and `is_supported` is a boolean input.
- The metaclass mechanism, the lookup through `sys.modules[...].__file__` and unittest's plumbing are left out. `DefineTestCase` takes the file path, and only the resulting state changes are modelled. Class attributes are fields of `TestCase`.
- Exceptions other than the ones named above are left out. One example: a `_cleanup` error that is not `RetryError`, which would propagate after the restart check.
- Lifecycle.CapturedRestarts: an exception from the restart lookup other than `RetryError` or `k8s.NotFound` (line 271) is not modelled. In the code it leaves `cleanupAfterTests` before line 274, so the class never joins the finished set and the full cleanup is never requested in that process.
- Lifecycle.Run: `run` is modelled with a result always given. Called with the default `result=None` (line 326), line 332 raises `AttributeError` instead of running the test; unittest always passes a result.
- Lifecycle.TestCase.CleanupAfterTests: the runner cleanup and the full-cleanup request are counted once per teardown. The model does not say how many retry attempts reached them, nor whether a failed runner cleanup kept the shared cleanup from running.
- Distribution.AssertRpcStatusCode: `ratio`, `tolerance` and the diff ratio are exact reals, so float rounding is not modelled.
- Distribution.UnaryCall: `grpc_testing` is not part of this model, so the value of `RPC_TYPE_UNARY_CALL` is not known here. The constant is an opaque method name, and no proof depends on its string.
- Distribution.Value: a status code is its integer value; the rest of the `grpc.StatusCode` tuple (its name) is left out.
- Naming.SplitCamel: the delimiter is one character, which covers the only value the framework passes (`-`). `lstrip` with a longer argument strips any character of a set, and that is not modelled.
- Naming.IsUpper: `isupper` and `lower` are ASCII only; Unicode case mapping is not modelled.
- Strings.ReplaceAll: the pattern must be non-empty; every call in the framework passes a non-empty literal.
- Lifecycle.Registry.Register: names only are tracked. The class list holds class names rather than class objects.
