/** The result ledger: one counter per verdict, starting at zero and bumped by
    exactly one for every test the run visits. */
module Ledger {

  datatype Verdict = Pass | Fail | Skip

  datatype Results = Results(pass: nat, fail: nat, skip: nat)

  /** The ledger a run starts from. */
  const Zero := Results(0, 0, 0)

  /** The counter that records verdict `v`. */
  function Count(r: Results, v: Verdict): nat
  {
    match v
    case Pass => r.pass
    case Fail => r.fail
    case Skip => r.skip
  }

  /** Number of tests the ledger has recorded. */
  function Total(r: Results): nat
  {
    r.pass + r.fail + r.skip
  }

  /** No counter of `a` exceeds the matching counter of `b`. */
  predicate AtMost(a: Results, b: Results)
  {
    a.pass <= b.pass && a.fail <= b.fail && a.skip <= b.skip
  }

  /** Counter-wise sum of two ledgers. */
  function Plus(a: Results, b: Results): Results
  {
    Results(a.pass + b.pass, a.fail + b.fail, a.skip + b.skip)
  }

  /** Records one verdict: its counter goes up by one, the other two stay. */
  function Record(r: Results, v: Verdict): (r': Results)
    ensures Count(r', v) == Count(r, v) + 1
    ensures forall w :: w != v ==> Count(r', w) == Count(r, w)
    ensures AtMost(r, r')
  {
    match v
    case Pass => r.(pass := r.pass + 1)
    case Fail => r.(fail := r.fail + 1)
    case Skip => r.(skip := r.skip + 1)
  }

  /** Recording a verdict adds one test to the ledger's total. */
  lemma RecordTotal(r: Results, v: Verdict)
    ensures Total(Record(r, v)) == Total(r) + 1
  {
  }

  /** The ledger obtained by recording `vs` one verdict at a time from zero. */
  function TallyOf(vs: seq<Verdict>): Results
  {
    if |vs| == 0 then Zero else Record(TallyOf(vs[..|vs| - 1]), vs[|vs| - 1])
  }

  /** How many entries of `vs` are `v`. */
  function Occurrences(vs: seq<Verdict>, v: Verdict): nat
  {
    if |vs| == 0 then 0
    else Occurrences(vs[..|vs| - 1], v) + (if vs[|vs| - 1] == v then 1 else 0)
  }

  /** Each counter of a tally is the number of times its verdict was recorded. */
  lemma {:induction false} TallyCounts(vs: seq<Verdict>)
    ensures forall v :: Count(TallyOf(vs), v) == Occurrences(vs, v)
  {
    if |vs| > 0 {
      TallyCounts(vs[..|vs| - 1]);
    }
  }

  /** A tally's counters add up to the number of verdicts recorded. */
  lemma {:induction false} TallyTotal(vs: seq<Verdict>)
    ensures Total(TallyOf(vs)) == |vs|
  {
    if |vs| > 0 {
      TallyTotal(vs[..|vs| - 1]);
      RecordTotal(TallyOf(vs[..|vs| - 1]), vs[|vs| - 1]);
    }
  }

  /** Recording after a sum is recording into the second summand. */
  lemma PlusRecord(a: Results, b: Results, v: Verdict)
    ensures Plus(a, Record(b, v)) == Record(Plus(a, b), v)
  {
  }

  /** Tallying two runs one after the other is adding their tallies. */
  lemma {:induction false} TallyConcat(a: seq<Verdict>, b: seq<Verdict>)
    ensures TallyOf(a + b) == Plus(TallyOf(a), TallyOf(b))
    decreases |b|
  {
    if |b| == 0 {
      assert a + b == a;
      assert TallyOf(b) == Zero;
    } else {
      var front, last := b[..|b| - 1], b[|b| - 1];
      assert (a + b)[..|a + b| - 1] == a + front;
      assert (a + b)[|a + b| - 1] == last;
      assert TallyOf(a + b) == Record(TallyOf(a + front), last);
      TallyConcat(a, front);
      PlusRecord(TallyOf(a), TallyOf(front), last);
      assert TallyOf(b) == Record(TallyOf(front), last);
    }
  }
}
