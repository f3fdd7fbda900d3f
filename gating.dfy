/** The shape both risk engines share: a fixed list of checks, each of which passes
    (possibly with a warning) or fails with a message. Evaluation stops at the first
    failure and reports the warnings gathered from the checks that passed before it. */
module Gating {
  import opened Wrappers

  datatype Check<M, W> = Passed(warning: Option<W>) | Failed(message: M)

  datatype Outcome<M, W> = Cleared(warnings: seq<W>) | Rejected(message: M, warnings: seq<W>)

  /** The checks in the order they run. */
  datatype Checks<M, W> = Done | Then(check: Check<M, W>, rest: Checks<M, W>) {

    function Length(): nat
    {
      if Done? then 0 else 1 + rest.Length()
    }

    /** The check at position `j`, counting from 0. */
    function At(j: nat): Check<M, W>
      requires j < Length()
    {
      if j == 0 then check else rest.At(j - 1)
    }

    /** Every check before position `j` passes. */
    predicate PassedBefore(j: nat)
      requires j <= Length()
    {
      forall k :: 0 <= k < j ==> At(k).Passed?
    }

    /** The warnings of the checks before position `j`, in order. */
    function WarningsBefore(j: nat): seq<W>
      requires j <= Length()
    {
      if j == 0 then [] else WarningOf(check) + rest.WarningsBefore(j - 1)
    }
  }

  /** What one check adds to the warnings list: its warning when it passed with one. */
  function WarningOf<M, W>(c: Check<M, W>): seq<W>
  {
    if c.Passed? then c.warning.ToSeq() else []
  }

  /** Warnings gathered before `o` was reached go in front of its own. */
  function After<M, W>(earlier: seq<W>, o: Outcome<M, W>): Outcome<M, W>
  {
    match o
    case Cleared(ws) => Cleared(earlier + ws)
    case Rejected(m, ws) => Rejected(m, earlier + ws)
  }

  /** Runs the checks in order and stops at the first one that fails. */
  function Chain<M, W>(cs: Checks<M, W>): Outcome<M, W>
  {
    match cs
    case Done => Cleared([])
    case Then(c, rest) =>
      match c
      case Failed(m) => Rejected(m, [])
      case Passed(w) => After(w.ToSeq(), Chain(rest))
  }

  lemma PassedBeforeTail<M, W>(cs: Checks<M, W>, j: nat)
    requires cs.Then? && 1 <= j <= cs.Length() && cs.PassedBefore(j)
    ensures cs.rest.PassedBefore(j - 1)
  {
    forall k | 0 <= k < j - 1
      ensures cs.rest.At(k).Passed?
    {
      assert cs.At(k + 1) == cs.rest.At(k);
    }
  }

  /** The first failing check decides the outcome; the warnings reported are those of the
      checks before it. */
  lemma {:induction false} ChainFirstFailure<M, W>(cs: Checks<M, W>, j: nat)
    requires j < cs.Length() && cs.At(j).Failed? && cs.PassedBefore(j)
    ensures Chain(cs) == Rejected(cs.At(j).message, cs.WarningsBefore(j))
    decreases j
  {
    if j > 0 {
      assert cs.At(0).Passed?;
      PassedBeforeTail(cs, j);
      ChainFirstFailure(cs.rest, j - 1);
    }
  }

  /** When every check passes, the outcome clears with all their warnings. */
  lemma {:induction false} ChainAllPassed<M, W>(cs: Checks<M, W>)
    requires cs.PassedBefore(cs.Length())
    ensures Chain(cs) == Cleared(cs.WarningsBefore(cs.Length()))
  {
    if cs.Then? {
      assert cs.At(0).Passed?;
      PassedBeforeTail(cs, cs.Length());
      ChainAllPassed(cs.rest);
    }
  }

  /** The outcome clears exactly when no check fails. */
  lemma {:induction false} ChainClearedIffAllPassed<M, W>(cs: Checks<M, W>)
    ensures Chain(cs).Cleared? <==> cs.PassedBefore(cs.Length())
  {
    if cs.Then? {
      ChainClearedIffAllPassed(cs.rest);
      if cs.PassedBefore(cs.Length()) {
        assert cs.At(0).Passed?;
        PassedBeforeTail(cs, cs.Length());
      } else if cs.check.Passed? {
        var k :| 0 <= k < cs.Length() && cs.At(k).Failed?;
        assert cs.rest.At(k - 1) == cs.At(k);
      }
    }
  }

  /** A rejection always carries the message of one of the checks. */
  lemma {:induction false} ChainRejectedByACheck<M, W>(cs: Checks<M, W>)
    ensures Chain(cs).Rejected? ==>
      exists j :: 0 <= j < cs.Length() && cs.At(j) == Failed(Chain(cs).message)
  {
    if cs.Then? && cs.check.Passed? && Chain(cs).Rejected? {
      ChainRejectedByACheck(cs.rest);
      var j :| 0 <= j < cs.rest.Length() && cs.rest.At(j) == Failed(Chain(cs.rest).message);
      assert cs.At(j + 1) == cs.rest.At(j);
    } else if cs.Then? && cs.check.Failed? {
      assert cs.At(0) == cs.check;
    }
  }

  /** Checks after the first failure have no influence: two check lists that agree up to
      and including a first failure have the same outcome. */
  lemma ChainIgnoresLaterChecks<M, W>(cs: Checks<M, W>, other: Checks<M, W>, j: nat)
    requires j < cs.Length() && j < other.Length()
    requires forall k :: 0 <= k <= j ==> cs.At(k) == other.At(k)
    requires cs.At(j).Failed? && cs.PassedBefore(j)
    ensures Chain(cs) == Chain(other)
  {
    ChainFirstFailure(cs, j);
    ChainFirstFailure(other, j);
    WarningsBeforeAgree(cs, other, j);
  }

  lemma {:induction false} WarningsBeforeAgree<M, W>(cs: Checks<M, W>, other: Checks<M, W>, j: nat)
    requires j <= cs.Length() && j <= other.Length()
    requires forall k :: 0 <= k < j ==> cs.At(k) == other.At(k)
    ensures cs.WarningsBefore(j) == other.WarningsBefore(j)
    decreases j
  {
    if j > 0 {
      assert cs.At(0) == other.At(0);
      forall k | 0 <= k < j - 1
        ensures cs.rest.At(k) == other.rest.At(k)
      {
        assert cs.At(k + 1) == other.At(k + 1);
      }
      WarningsBeforeAgree(cs.rest, other.rest, j - 1);
    }
  }

  /** The warnings before position `j + 1` are those before `j` followed by check `j`'s. */
  lemma {:induction false} WarningsBeforeNext<M, W>(cs: Checks<M, W>, j: nat)
    requires j < cs.Length()
    ensures cs.WarningsBefore(j + 1) == cs.WarningsBefore(j) + WarningOf(cs.At(j))
    decreases j
  {
    if j > 0 {
      WarningsBeforeNext(cs.rest, j - 1);
      assert WarningOf(cs.check) + (cs.rest.WarningsBefore(j - 1) + WarningOf(cs.At(j)))
        == (WarningOf(cs.check) + cs.rest.WarningsBefore(j - 1)) + WarningOf(cs.At(j));
    }
  }

  /** One step of an imperative walk through the checks `all`: with the warnings `done`
      gathered before the remaining checks `cs`, a failure of the next check is the
      outcome, and a pass moves the walk on with the check's warning appended. */
  lemma ChainStep<M, W>(all: Checks<M, W>, cs: Checks<M, W>, done: seq<W>)
    requires cs.Then?
    requires Chain(all) == After(done, Chain(cs))
    ensures cs.check.Failed? ==> Chain(all) == Rejected(cs.check.message, done)
    ensures cs.check.Passed? ==> Chain(all) == After(done + cs.check.warning.ToSeq(), Chain(cs.rest))
    ensures cs.check == Passed(None) ==> Chain(all) == After(done, Chain(cs.rest))
  {
    if cs.check.Failed? {
      assert done + [] == done;
    } else {
      AfterAfter(done, cs.check.warning.ToSeq(), Chain(cs.rest));
      assert done + [] == done;
    }
  }

  lemma AfterAfter<M, W>(a: seq<W>, b: seq<W>, o: Outcome<M, W>)
    ensures After(a, After(b, o)) == After(a + b, o)
  {
    assert a + (b + o.warnings) == (a + b) + o.warnings;
  }

  /** The start and the end of such a walk. */
  lemma ChainWalkEnds<M, W>(all: Checks<M, W>, done: seq<W>)
    ensures Chain(all) == After([], Chain(all))
    ensures Chain(all) == After(done, Chain(Done)) ==> Chain(all) == Cleared(done)
  {
    match Chain(all) {
      case Cleared(ws) => assert [] + ws == ws;
      case Rejected(m, ws) => assert [] + ws == ws;
    }
    assert done + [] == done;
  }
}
