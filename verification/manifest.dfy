/** The test manifest: testsets of tests, each test a record whose optional
    fields carry the defaults the test driver applies when it reads them. */
module Manifest {
  import opened Wrappers

  /** One entry of a testset's "tests" array. Every field but `name` may be
      missing from the manifest; None stands for a missing field. */
  datatype Test = Test(
    name: string,                  // the single argument handed to the executable
    expected: Option<string>,      // file name under the testset's "expected" directory
    fail: Option<bool>,            // the test expects a non-zero exit code
    skip: Option<seq<string>>,     // "all" or platform ids on which the test is skipped
    timeout: Option<int>           // per-test timeout, in minutes
  )

  /** One entry of the manifest's "testsets" array: a directory relative to the
      test root, and its tests in manifest order. */
  datatype Testset = Testset(path: string, tests: seq<Test>)

  type Manifest = seq<Testset>

  /** The skip list, a missing one read as empty. */
  function SkipList(t: Test): (l: seq<string>)
    ensures t.skip.None? ==> l == []
    ensures t.skip.Some? ==> l == t.skip.value
  {
    t.skip.GetOr([])
  }

  /** Whether the test expects the executable to fail, false when unstated. */
  function ShouldFail(t: Test): (b: bool)
    ensures b <==> t.fail == Some(true)
  {
    t.fail.GetOr(false)
  }

  /** The number of tests across all testsets. */
  function TotalTests(m: Manifest): nat
  {
    if |m| == 0 then 0 else TotalTests(m[..|m| - 1]) + |m[|m| - 1].tests|
  }
}
