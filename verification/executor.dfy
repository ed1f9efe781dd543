/** Running one test: the skip rule, the timeout the child runs under, and
    the pass/fail rule that combines the exit code with the expected output. */
module Executor {
  import opened Wrappers
  import opened Manifest
  import opened Ledger
  import opened Expectation
  import Decimal

  /** The run-wide timeout, in minutes, when none is given on the command line. */
  const DefaultTimeoutMinutes: int := 5

  /** Seconds the timeout utility waits after its termination signal before it
      kills the child outright. */
  const KillAfterSeconds: nat := 30

  /** What the run knows before any test: the executable under test (already
      an absolute path), the run-wide timeout in minutes and the id of the
      platform the run is on. */
  datatype Config = Config(executable: string, defaultTimeout: int, platform: string)

  /** The child the driver starts: the timeout utility wrapped around the
      executable, with the test's name as the executable's only argument,
      running in the testset's directory. */
  datatype Invocation = Invocation(
    killAfter: nat,
    seconds: int,
    executable: string,
    argument: string,
    workdir: string
  )

  /** The child's exit code and its combined stdout and stderr. */
  datatype ProcessResult = ProcessResult(returnCode: int, output: string)

  /** The outside world as the driver sees it: what a child started with a
      given invocation reports, and what reading a fixture yields. */
  datatype Host = Host(run: Invocation -> ProcessResult, read: FixtureReader)

  /** A test is skipped when its skip list holds "all" or the platform's id.
      A test without a skip list runs everywhere. */
  predicate IsSkipped(t: Test, platform: string)
    ensures t.skip.None? ==> !IsSkipped(t, platform)
    ensures t.skip.Some? && "all" in t.skip.value ==> IsSkipped(t, platform)
    ensures t.skip.Some? && platform in t.skip.value ==> IsSkipped(t, platform)
    ensures t.skip.Some? && "all" !in t.skip.value && platform !in t.skip.value ==> !IsSkipped(t, platform)
  {
    "all" in SkipList(t) || platform in SkipList(t)
  }

  /** The test's own timeout if it has one, else the run-wide default. */
  function EffectiveTimeout(t: Test, default: int): (minutes: int)
    ensures t.timeout.Some? ==> minutes == t.timeout.value
    ensures t.timeout.None? ==> minutes == default
  {
    t.timeout.GetOr(default)
  }

  /** The child started for a test that is not skipped. */
  function InvocationFor(cfg: Config, dir: string, t: Test): (inv: Invocation)
    ensures inv.seconds == EffectiveTimeout(t, cfg.defaultTimeout) * 60
    ensures inv.killAfter == KillAfterSeconds
    ensures inv.executable == cfg.executable && inv.argument == t.name && inv.workdir == dir
  {
    Invocation(KillAfterSeconds, EffectiveTimeout(t, cfg.defaultTimeout) * 60, cfg.executable, t.name, dir)
  }

  /** The command line of the child. The grace period and the duration are
      rendered with `Decimal.Format`, so `Decimal.Parse` recovers both; the
      executable gets the test name. */
  function Argv(inv: Invocation): (argv: seq<string>)
    ensures |argv| == 6 && argv[0] == "timeout" && argv[1] == "-k"
    ensures Decimal.Parse(argv[2]) == Some(inv.killAfter as int)
    ensures Decimal.Parse(argv[3]) == Some(inv.seconds)
    ensures argv[4] == inv.executable && argv[5] == inv.argument
  {
    Decimal.FormatRoundTrip(inv.killAfter);
    Decimal.FormatRoundTrip(inv.seconds);
    ["timeout", "-k", Decimal.Format(inv.killAfter), Decimal.Format(inv.seconds), inv.executable, inv.argument]
  }

  /** The exit-code half of the pass rule: the child failed exactly when the
      test says it should. */
  predicate PolarityAgrees(p: ProcessResult, t: Test)
    ensures p.returnCode == 0 ==> (PolarityAgrees(p, t) <==> t.fail != Some(true))
    ensures p.returnCode != 0 ==> (PolarityAgrees(p, t) <==> t.fail == Some(true))
  {
    (p.returnCode != 0) == ShouldFail(t)
  }

  /** The verdict on one test of the testset in directory `dir`. */
  function Classify(cfg: Config, host: Host, dir: string, t: Test): (v: Verdict)
    ensures v == Skip <==> IsSkipped(t, cfg.platform)
    ensures !IsSkipped(t, cfg.platform) ==>
              var p := host.run(InvocationFor(cfg, dir, t));
              (v == Pass <==> PolarityAgrees(p, t) && CheckExpected(t.expected, p.output, dir, host.read))
  {
    if IsSkipped(t, cfg.platform) then Skip
    else
      var p := host.run(InvocationFor(cfg, dir, t));
      if PolarityAgrees(p, t) && CheckExpected(t.expected, p.output, dir, host.read) then Pass else Fail
  }

  /** A test skipped on "all" is skipped on every platform, whatever the child
      or the fixtures would have done: no two configurations or hosts can
      tell it apart. */
  lemma SkipAllIgnoresHost(t: Test, cfg1: Config, host1: Host, cfg2: Config, host2: Host, dir: string)
    requires "all" in SkipList(t)
    ensures Classify(cfg1, host1, dir, t) == Skip
    ensures Classify(cfg1, host1, dir, t) == Classify(cfg2, host2, dir, t)
  {
  }

  /** A child whose exit code disagrees with the test's expectation fails the
      test before any fixture is read: any reader gives the same verdict. */
  lemma PolarityMismatchIgnoresFixture(cfg: Config, host: Host, dir: string, t: Test, other: FixtureReader)
    requires !IsSkipped(t, cfg.platform)
    requires !PolarityAgrees(host.run(InvocationFor(cfg, dir, t)), t)
    ensures Classify(cfg, host, dir, t) == Fail
    ensures Classify(cfg, host.(read := other), dir, t) == Fail
  {
  }

  /** A test declared to fail passes when the child exits non-zero and no
      fixture is named: the usual case of a child killed on timeout. */
  lemma ExpectedFailurePasses(cfg: Config, host: Host, dir: string, t: Test)
    requires !IsSkipped(t, cfg.platform)
    requires t.fail == Some(true) && t.expected.None?
    requires host.run(InvocationFor(cfg, dir, t)).returnCode != 0
    ensures Classify(cfg, host, dir, t) == Pass
  {
  }

  /** A test not declared to fail passes on exit code zero exactly when its
      fixture, if any, reads back as the output. */
  lemma ZeroExitPassesOnMatchingOutput(cfg: Config, host: Host, dir: string, t: Test, name: string)
    requires !IsSkipped(t, cfg.platform)
    requires t.fail != Some(true) && t.expected == Some(name) && name != ""
    requires host.run(InvocationFor(cfg, dir, t)).returnCode == 0
    ensures Classify(cfg, host, dir, t) == Pass
        <==> host.read(dir, name) == Some(host.run(InvocationFor(cfg, dir, t)).output)
  {
  }
}
