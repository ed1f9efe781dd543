# IoT.js test driver: classification and tally

This project models the decision logic of IoT.js's test driver,
`tools/run_tests.py`. The driver reads a manifest of testsets. It runs the
IoT.js executable once for each test that is not skipped; a skipped test
starts no child. At the end it prints a pass/fail/skip tally. The
model covers the following rules:

- **Skip rule.** A test is skipped when its `skip` list holds `"all"` or the
  id of the current platform. A missing list counts as empty.
- **Timeout.** The test's own `timeout` in minutes is used if present,
  otherwise the run-wide `--timeout` (default 5). The child runs under
  `timeout -k 30 <minutes*60> <iotjs> <name>`.
- **Pass/fail rule.** A test passes exactly when two things hold. First, the
  child's exit code is non-zero exactly when the test declares `fail: true`.
  Second, the expected-output check succeeds. The check is only reached when
  the exit code already agrees.
- **Expected-output check.** A missing or empty `expected` accepts any
  output. A named fixture that cannot be read rejects. A readable fixture
  accepts exactly the output equal to its contents.
- **Ledger.** The ledger is a `{pass, fail, skip}` record that starts at
  zero. Each test adds one to exactly one counter. It is threaded through
  the testsets and their tests in manifest order.

The child process and the fixture files are the outside world, so they
become parameters. `Executor.Host` holds two total functions. `run` gives
the exit code and the combined output of a child started with a given
`Invocation`. `read` gives the contents of a fixture, or `None` where Python
raises `IOError`. The platform id, the run-wide timeout and the absolute
path of the executable are fields of `Executor.Config`.

Modules: `Wrappers` (Option), `Manifest` (tests, testsets, field
defaults), `Ledger` (verdicts, counters, tallies), `Decimal` (the `"%d"`
rendering of the child's duration and its parser), `Expectation`
(`check_expected`), `Executor` (one test), `Runner` (`run_testset` and
`run_tests`).

The model follows the code where it is specific: `check_expected` treats
an empty `expected` string like a missing one, and so does the model.

## Model

| member | source | states |
|---|---|---|
| Manifest.SkipList | tools/run_tests.py:63 | a missing skip list reads as empty; a present one is used as it is |
| Manifest.ShouldFail | tools/run_tests.py:72 | a test expects failure exactly when its `fail` field is present and true |
| Executor.IsSkipped | tools/run_tests.py:63-64 | a test without a skip list is never skipped; with one, it is skipped exactly when the list holds "all" or the platform id |
| Executor.PolarityAgrees | tools/run_tests.py:72-73 | on exit code 0 the exit-code test agrees exactly when the test is not declared to fail; on a non-zero exit code, exactly when it is |
| Executor.EffectiveTimeout | tools/run_tests.py:68 | the test's own timeout wins; without one the run-wide default applies |
| Executor.InvocationFor | tools/run_tests.py:68-69 | the child runs for the effective timeout times 60 seconds, with a 30-second kill-after, the configured executable and the test name as its only argument, in the testset's directory |
| Executor.Argv | tools/run_tests.py:69 | the command line has six words: `timeout -k <grace> <seconds> <executable> <name>`; the grace and duration words parse back to the invocation's numbers |
| Decimal.Format | tools/run_tests.py:69 | the `%d` rendering starts with '-' exactly for negative numbers |
| Decimal.FormatRoundTrip | tools/run_tests.py:69 | parsing the `%d` rendering of any integer gives that integer back |
| Expectation.CheckExpected | tools/run_tests.py:39-51 | a missing or empty `expected` accepts; an unreadable fixture rejects; otherwise it accepts exactly when the fixture's contents equal the output |
| Expectation.NoFixtureIgnoresReader | tools/run_tests.py:40-41 | without a named fixture the check succeeds for every fixture reader, so no file is read |
| Executor.Classify | tools/run_tests.py:62-76 | the verdict is Skip exactly when the skip list holds "all" or the platform; otherwise it is Pass exactly when the exit code's polarity matches `fail` and the expected-output check succeeds, else Fail |
| Executor.SkipAllIgnoresHost | tools/run_tests.py:63-66 | a test skipped on "all" is Skip, and any two configurations and hosts give it the same verdict |
| Executor.PolarityMismatchIgnoresFixture | tools/run_tests.py:72-76 | when the exit code's polarity disagrees with `fail` the verdict is Fail whatever the fixture reader returns |
| Executor.ExpectedFailurePasses | tools/run_tests.py:69-76 | a test declared to fail, with no fixture, passes when the child exits non-zero (as a child killed on timeout does) |
| Executor.ZeroExitPassesOnMatchingOutput | tools/run_tests.py:72-76 | a test not declared to fail, whose child exits 0 and which names a fixture, passes exactly when the fixture reads back as the output |
| Ledger.Record | tools/run_tests.py:15-28 | reporting a verdict raises its counter by one, leaves the other two unchanged, and lowers no counter |
| Ledger.RecordTotal | tools/run_tests.py:15-28 | reporting one verdict adds exactly one test to the ledger's total |
| Ledger.TallyCounts | tools/run_tests.py:94-96 | in the ledger built by recording a verdict sequence from zero, each counter equals the number of times its verdict occurs in the sequence |
| Ledger.TallyTotal | tools/run_tests.py:94-96 | the ledger built by recording a verdict sequence from zero has a total equal to the sequence's length |
| Ledger.TallyConcat | tools/run_tests.py:95-96 | recording two verdict sequences one after the other gives the counter-wise sum of their separate ledgers |
| Runner.TestsetVerdicts | tools/run_tests.py:62-76 | a testset yields one verdict per test, in order, each the test's classification in the testset's directory |
| Runner.ManifestVerdicts | tools/run_tests.py:95-96 | the manifest yields exactly as many verdicts as it has tests |
| Runner.RunTestset | tools/run_tests.py:54-78 | running a testset adds the tally of its tests' verdicts to the ledger it was given: the total grows by the number of tests and no counter decreases |
| Runner.RunAll | tools/run_tests.py:88-98 | from the zero ledger, the final ledger counts, per verdict, the tests that received it, and its total equals the number of tests in the manifest |
| Runner.HelloScenario | tools/run_tests.py:94-96 | one testset with one test whose child exits 0 with no fixture ends with the tally pass 1, fail 0, skip 0 |
| Runner.SkipAllScenario | tools/run_tests.py:63-66 | the same test marked to skip on "all" ends with pass 0, fail 0, skip 1, whatever the child would do |

## Left out

- Starting the child, the `timeout` utility's signals and `communicate()` (tools/run_tests.py:69-70). This is process I/O; `Host.run` stands in for it.
- Opening and reading the fixture (tools/run_tests.py:44-45). This is file I/O; `Host.read` stands in for it, with `None` for `IOError`.
- The joined fixture path `expected/<name>` and its diagnostic (tools/run_tests.py:42, 48). The reader takes the testset directory and the fixture name instead.
- Saving, changing and restoring the working directory, and `fs.abspath` (tools/run_tests.py:58-60, 78). This is ambient filesystem state. The testset's path is passed to the reader and to the invocation, and `Config.executable` is taken to be absolute already. The source restores the working directory only when `run_testset` returns normally; an exception mid-testset leaves it changed. The model has no working directory, so this does not arise.
- Platform detection (tools/run_tests.py:12). The platform id is `Config.platform`.
- Argument parsing and loading `tests.json` (tools/run_tests.py:81-92). This is library plumbing. The model starts from parsed records, and `Executor.DefaultTimeoutMinutes` records argparse's default of 5. A manifest that fails to load aborts before any test runs, so it has no ledger to model.
- The console output, including the skip `reason` (tools/run_tests.py:17-18, 23, 28, 31-36, 55-56). It is output only, so `Test` has no `reason` field.
- The driver's exit status and early termination. A completed run exits with status 0 whatever the tally. An uncaught exception ends the run early with status 1 and no final tally. Examples are `Popen` raising `OSError` when `timeout` is not on the path (tools/run_tests.py:69), and `KeyError` for a test without `name` (tools/run_tests.py:18, 69). In the model every run completes and returns its ledger.
- JSON values of the wrong type: a `null` timeout or skip list, a non-boolean `fail`, or a `skip` given as a string. Python would raise or use truthiness or substring tests on these. Each field is modelled with its intended type, and `null` is treated like a missing field.
- Expectation.CheckExpected: compares the output with the fixture as text. Under Python 3 the captured output is bytes and the fixture is read as text, so they never compare equal. The `python` interpreter the script names is taken to be Python 2, where both are byte strings.
- Executor.Classify: the child's outcome and each fixture's contents are functions of their arguments. Two identical invocations in one run, or two reads of the same fixture, therefore always agree. The source starts a fresh child for every test (tools/run_tests.py:62, 69), so a flaky child, or one affected by files an earlier test left behind, can differ between repeats. The model does not cover such a run.
- Executor.InvocationFor: `Host.run` is total because the `timeout` wrapper is relied on to end every child. That fails for an effective timeout of 0, from `"timeout": 0` on a test or `--timeout 0` (tools/run_tests.py:68, 84). The wrapper then gets a duration of 0, which it reads as no limit, and `-k` only acts after a first signal. A child that never exits blocks the driver at `communicate()` (tools/run_tests.py:70), and the final tally is never printed. The model does not cover such a hung run: it still returns a ledger.
