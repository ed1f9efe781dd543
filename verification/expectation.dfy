/** The expected-output check: a test that names a fixture passes it only when
    the captured output equals the fixture's contents exactly. */
module Expectation {
  import opened Wrappers

  /** Reads the fixture `name` from the "expected" directory of testset
      directory `dir`; None when the file cannot be opened or read. */
  type FixtureReader = (string, string) -> Option<string>

  /** Whether `output` agrees with the test's `expected` field. A missing or
      empty field accepts any output without reading anything; otherwise an
      unreadable fixture rejects, and a readable one accepts exactly the
      output equal to its contents. */
  function CheckExpected(expected: Option<string>, output: string, dir: string,
                         read: FixtureReader): (ok: bool)
    ensures expected.None? ==> ok
    ensures expected == Some("") ==> ok
    ensures expected.Some? && expected.value != "" && read(dir, expected.value).None? ==> !ok
    ensures expected.Some? && expected.value != "" ==> (ok <==> read(dir, expected.value) == Some(output))
  {
    match expected
    case None => true
    case Some(name) =>
      if name == "" then true
      else
        match read(dir, name)
        case None => false
        case Some(contents) => output == contents
  }

  /** When no fixture is named the reader is never consulted: any two readers
      give the same answer. */
  lemma NoFixtureIgnoresReader(expected: Option<string>, output: string, dir: string,
                               read1: FixtureReader, read2: FixtureReader)
    requires expected.None? || expected == Some("")
    ensures CheckExpected(expected, output, dir, read1)
    ensures CheckExpected(expected, output, dir, read1) == CheckExpected(expected, output, dir, read2)
  {
  }
}
