/** The run: every testset in manifest order, every test of a testset in
    order, one ledger threaded through all of them from zero. */
module Runner {
  import opened Wrappers
  import opened Manifest
  import opened Ledger
  import opened Executor

  /** The verdicts of a testset's tests, in order. */
  function TestsetVerdicts(cfg: Config, host: Host, ts: Testset): (vs: seq<Verdict>)
    ensures |vs| == |ts.tests|
    ensures forall i :: 0 <= i < |vs| ==> vs[i] == Classify(cfg, host, ts.path, ts.tests[i])
  {
    seq(|ts.tests|, i requires 0 <= i < |ts.tests| => Classify(cfg, host, ts.path, ts.tests[i]))
  }

  /** The verdicts of every test of the manifest, testset after testset. */
  function ManifestVerdicts(cfg: Config, host: Host, m: Manifest): (vs: seq<Verdict>)
    ensures |vs| == TotalTests(m)
  {
    if |m| == 0 then []
    else ManifestVerdicts(cfg, host, m[..|m| - 1]) + TestsetVerdicts(cfg, host, m[|m| - 1])
  }

  /** Runs one testset on top of the ledger `start`: each test adds its one
      verdict, so the ledger grows by the testset's tally and by nothing else. */
  method RunTestset(cfg: Config, host: Host, ts: Testset, start: Results) returns (results: Results)
    ensures results == Plus(start, TallyOf(TestsetVerdicts(cfg, host, ts)))
    ensures Total(results) == Total(start) + |ts.tests|
    ensures AtMost(start, results)
  {
    ghost var vs := TestsetVerdicts(cfg, host, ts);
    results := start;
    var i := 0;
    while i < |ts.tests|
      invariant 0 <= i <= |ts.tests|
      invariant results == Plus(start, TallyOf(vs[..i]))
    {
      var v := Classify(cfg, host, ts.path, ts.tests[i]);
      assert v == vs[i];
      assert vs[..i + 1][..i] == vs[..i];
      PlusRecord(start, TallyOf(vs[..i]), v);
      results := Record(results, v);
      i := i + 1;
    }
    assert vs[..i] == vs;
    TallyTotal(vs);
  }

  /** Runs the whole manifest from the zero ledger. The final ledger counts, per
      verdict, the tests that received it, and so sums to the number of tests. */
  method RunAll(cfg: Config, host: Host, m: Manifest) returns (results: Results)
    ensures results == TallyOf(ManifestVerdicts(cfg, host, m))
    ensures forall v :: Count(results, v) == Occurrences(ManifestVerdicts(cfg, host, m), v)
    ensures Total(results) == TotalTests(m)
  {
    results := Zero;
    var k := 0;
    while k < |m|
      invariant 0 <= k <= |m|
      invariant results == TallyOf(ManifestVerdicts(cfg, host, m[..k]))
    {
      results := RunTestset(cfg, host, m[k], results);
      assert m[..k + 1][..k] == m[..k];
      TallyConcat(ManifestVerdicts(cfg, host, m[..k]), TestsetVerdicts(cfg, host, m[k]));
      k := k + 1;
    }
    assert m[..k] == m;
    TallyTotal(ManifestVerdicts(cfg, host, m));
    TallyCounts(ManifestVerdicts(cfg, host, m));
  }

  /** A manifest of one testset with one test tallies that test's verdict alone. */
  lemma SingleTestTally(cfg: Config, host: Host, ts: Testset)
    requires |ts.tests| == 1
    ensures TallyOf(ManifestVerdicts(cfg, host, [ts])) == Record(Zero, Classify(cfg, host, ts.path, ts.tests[0]))
  {
    var v := Classify(cfg, host, ts.path, ts.tests[0]);
    assert [ts][..0] == [];
    assert ManifestVerdicts(cfg, host, [ts]) == TestsetVerdicts(cfg, host, ts);
    assert TestsetVerdicts(cfg, host, ts) == [v];
    assert [v][..0] == [];
  }

  /** A manifest with one testset "basic" holding one test "hello.js", no
      fixture, run under the default timeout: when the child exits 0 the run
      ends with one pass and nothing else. */
  lemma HelloScenario(platform: string, host: Host)
    requires host.run(Invocation(30, 300, "/bin/iotjs", "hello.js", "basic")).returnCode == 0
    ensures var hello := Test("hello.js", None, None, None, None);
            var cfg := Config("/bin/iotjs", DefaultTimeoutMinutes, platform);
            TallyOf(ManifestVerdicts(cfg, host, [Testset("basic", [hello])])) == Results(1, 0, 0)
  {
    var hello := Test("hello.js", None, None, None, None);
    var cfg := Config("/bin/iotjs", DefaultTimeoutMinutes, platform);
    assert InvocationFor(cfg, "basic", hello) == Invocation(30, 300, "/bin/iotjs", "hello.js", "basic");
    assert Classify(cfg, host, "basic", hello) == Pass;
    SingleTestTally(cfg, host, Testset("basic", [hello]));
  }

  /** The same test marked to skip on "all": one skip, whatever the child does. */
  lemma SkipAllScenario(platform: string, host: Host)
    ensures var hello := Test("hello.js", None, None, Some(["all"]), None);
            var cfg := Config("/bin/iotjs", DefaultTimeoutMinutes, platform);
            TallyOf(ManifestVerdicts(cfg, host, [Testset("basic", [hello])])) == Results(0, 0, 1)
  {
    var hello := Test("hello.js", None, None, Some(["all"]), None);
    var cfg := Config("/bin/iotjs", DefaultTimeoutMinutes, platform);
    assert "all" in SkipList(hello);
    assert Classify(cfg, host, "basic", hello) == Skip;
    SingleTestTally(cfg, host, Testset("basic", [hello]));
  }
}
