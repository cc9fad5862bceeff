/**
 A place in an ordered log that a verdict moves only contiguously: from where
 it stands to the next record, as that record is accepted or refused.

 README.md line 19 has a refused record read again; line 9 has the place move
 past it, as the code does and this model with it.
 */
module Contiguous {

  import opened Acknowledgements

  /** Where the place stands once the record read after `from`, at `to`, has its verdict. */
  function Moved<P(==)>(at: P, from: P, to: P, verdict: Verdict): P {
    if verdict != Failed && at == from then to else at
  }

  class Place<P(==,!new)> {
    var at: P

    constructor (at: P)
      ensures this.at == at
    {
      this.at := at;
    }

    /** Where a Location starts reading, whatever was accepted. */
    method Set(at: P)
      modifies this
      ensures this.at == at
    {
      this.at := at;
    }

    /** Moved from `from` to `to` only where the place stands at `from`. */
    method Advance(from: P, to: P) returns (moves: bool)
      modifies this
      ensures moves == (old(at) == from)
      ensures at == if moves then to else old(at)
    {
      moves := at == from;
      if moves { at := to; }
    }

    /** The acknowledgement of the record read after `from`, given its verdict. */
    method Acknowledge(from: P, to: P, verdict: Verdict)
      modifies this
      ensures at == Moved(old(at), from, to, verdict)
    {
      if verdict != Failed {
        var _ := Advance(from, to);
      }
    }

    /** One read's records given their verdicts in order: the place ends after the
        longest run of them that none failed, wherever their positions lie. */
    method SettleInOrder(log: seq<P>, start: nat, verdicts: seq<Verdict>)
      requires Distinct(log) && start + |verdicts| < |log| && at == log[start]
      modifies this
      ensures at == log[start + |Settled(verdicts)|]
    {
      for i := 0 to |verdicts|
        invariant at == log[start + |Settled(verdicts[..i])|]
      {
        SettledNext(verdicts, i);
        Acknowledge(log[start + i], log[start + i + 1], verdicts[i]);
      }
      assert verdicts[..|verdicts|] == verdicts;
    }
  }

  /** Where reading stands: each record of a log at a position of its own, the
      first of them where reading starts. */
  ghost predicate Distinct<P(!new)>(log: seq<P>) {
    forall i, j | 0 <= i < j < |log| :: log[i] != log[j]
  }

  /** The longest prefix no verdict of which is a failure. */
  function Settled(verdicts: seq<Verdict>): (r: seq<Verdict>)
    ensures |r| <= |verdicts| && forall k | 0 <= k < |r| :: r[k] == verdicts[k] != Failed
    ensures |r| < |verdicts| ==> verdicts[|r|] == Failed
  {
    if verdicts == [] || verdicts[0] == Failed then [] else [verdicts[0]] + Settled(verdicts[1..])
  }

  lemma SettledNext(verdicts: seq<Verdict>, i: nat)
    requires i < |verdicts|
    ensures |Settled(verdicts[..i + 1])| == |Settled(verdicts[..i])|
            + if |Settled(verdicts[..i])| == i && verdicts[i] != Failed then 1 else 0
  {
    var front := verdicts[..i];
    var was := |Settled(front)|;
    assert forall k | 0 <= k < i :: front[k] == verdicts[k] == verdicts[..i + 1][k];
    SettledIs(verdicts[..i + 1], if was == i && verdicts[i] != Failed then i + 1 else was);
  }

  lemma SettledIs(verdicts: seq<Verdict>, n: nat)
    requires n <= |verdicts| && (forall k | 0 <= k < n :: verdicts[k] != Failed) && (n < |verdicts| ==> verdicts[n] == Failed)
    ensures |Settled(verdicts)| == n
  {
    var settled := Settled(verdicts);
    assert forall k | 0 <= k < |settled| && k < |verdicts| :: verdicts[k] != Failed;
  }

  // ----------------------------- any verdicts, stale, repeated and out of order

  /** A verdict given on the record `record` of a log, read after the one before it. */
  datatype Told = Told(record: nat, verdict: Verdict)

  ghost predicate Of<P>(log: seq<P>, run: seq<Told>) {
    forall e | e in run :: 0 < e.record < |log|
  }

  /** Where a place ends that stood at `at`, once the run's verdicts are given. */
  function After<P(==)>(log: seq<P>, at: P, run: seq<Told>): P
    requires Of(log, run)
  {
    if run == [] then at
    else
      var e := run[|run| - 1];
      Moved(After(log, at, run[..|run| - 1]), log[e.record - 1], log[e.record], e.verdict)
  }

  /** How far along its log. */
  function Reached(start: nat, run: seq<Told>): nat {
    if run == [] then start
    else
      var at, e := Reached(start, run[..|run| - 1]), run[|run| - 1];
      if e.verdict != Failed && e.record == at + 1 then at + 1 else at
  }

  lemma {:induction false} StandsAtReached<P(!new)>(log: seq<P>, start: nat, run: seq<Told>)
    requires Distinct(log) && start < |log| && Of(log, run)
    ensures Reached(start, run) < |log| && After(log, log[start], run) == log[Reached(start, run)]
  {
    if run != [] {
      StandsAtReached(log, start, run[..|run| - 1]);
    }
  }

  /** Verdicts at the indices `told` of the run that let by one record after
      another, in order, from the one after `start`. */
  ghost predicate InOrder(run: seq<Told>, start: nat, told: seq<nat>) {
    && (forall j | 0 <= j < |told| ::
          told[j] < |run| && run[told[j]].record == start + 1 + j && run[told[j]].verdict != Failed)
    && (forall i, j | 0 <= i < j < |told| :: told[i] < told[j])
  }

  ghost predicate LetBy(run: seq<Told>, start: nat, count: nat) {
    exists told: seq<nat> :: |told| == count && InOrder(run, start, told)
  }

  /** The place goes exactly as far as the run's verdicts, accepting or refusing
      each record after the one before it, let it: no further, and no less. */
  lemma {:induction false} GoesExactly(start: nat, run: seq<Told>, count: nat)
    ensures LetBy(run, start, count) <==> start + count <= Reached(start, run)
  {
    if run == [] {
      NothingLetsBy(start, count);
    } else {
      var front := run[..|run| - 1];
      LetByLast(start, run, count);
      hide LetBy;
      GoesExactly(start, front, count);
      if count > 0 { GoesExactly(start, front, count - 1); }
    }
  }

  lemma FirstTold(run: seq<Told>, start: nat, told: seq<nat>)
    requires InOrder(run, start, told) && told != []
    ensures run != []
  {
    assert told[0] < |run|;
  }

  lemma NothingLetsBy(start: nat, count: nat)
    ensures LetBy([], start, count) <==> count == 0
  {
    var none: seq<nat> := [];
    assert InOrder([], start, none);
    forall told: seq<nat> | InOrder([], start, told) ensures |told| == 0 {
      if told != [] { FirstTold([], start, told); }
    }
  }

  /** One verdict more lets by one record more exactly where it is the next one's. */
  lemma LetByLast(start: nat, run: seq<Told>, count: nat)
    requires run != []
    ensures var front, e := run[..|run| - 1], run[|run| - 1];
            LetBy(run, start, count) <==>
              || LetBy(front, start, count)
              || (count > 0 && LetBy(front, start, count - 1) && e.record == start + count && e.verdict != Failed)
  {
    var last := |run| - 1;
    var front, e := run[..last], run[last];
    if LetBy(run, start, count) {
      var told: seq<nat> :| |told| == count && InOrder(run, start, told);
      if count == 0 || told[count - 1] < last {
        assert forall j | 0 <= j < count :: told[j] <= told[count - 1];
        assert InOrder(front, start, told);
      } else {
        assert forall j | 0 <= j < count - 1 :: told[j] < told[count - 1];
        assert InOrder(front, start, told[..count - 1]);
      }
    }
    if LetBy(front, start, count) {
      var told: seq<nat> :| |told| == count && InOrder(front, start, told);
      assert InOrder(run, start, told);
    }
    if count > 0 && LetBy(front, start, count - 1) && e.record == start + count && e.verdict != Failed {
      var told: seq<nat> :| |told| == count - 1 && InOrder(front, start, told);
      assert InOrder(run, start, told + [last]);
    }
  }

  /** Over any run the place never moves back, and never passes a record no
      verdict accepted or refused. */
  lemma NeverBackNeverSkipped<P(!new)>(log: seq<P>, start: nat, run: seq<Told>, more: seq<Told>)
    requires Distinct(log) && start < |log| && Of(log, run + more) && Of(log, run)
    ensures Reached(start, run) <= Reached(start, run + more) < |log|
    ensures After(log, log[start], run + more) == log[Reached(start, run + more)]
    ensures forall r | start < r <= Reached(start, run + more) :: LetThrough(run + more, r)
  {
    StandsAtReached(log, start, run + more);
    ReachedOn(start, run, more);
    GoesExactly(start, run + more, Reached(start, run + more) - start);
    var told: seq<nat> :| |told| == Reached(start, run + more) - start && InOrder(run + more, start, told);
    forall r | start < r <= Reached(start, run + more) ensures LetThrough(run + more, r) {
      assert (run + more)[told[r - start - 1]].record == r;
    }
  }

  ghost predicate LetThrough(run: seq<Told>, record: nat) {
    exists i :: 0 <= i < |run| && run[i].record == record && run[i].verdict != Failed
  }

  lemma {:induction false} ReachedOn(start: nat, run: seq<Told>, more: seq<Told>)
    ensures start <= Reached(start, run) <= Reached(start, run + more)
    ensures Reached(start, run + more) == Reached(Reached(start, run), more)
  {
    if more == [] {
      assert run + more == run;
      if run != [] { ReachedOn(start, run[..|run| - 1], []); assert run[..|run| - 1] + [] == run[..|run| - 1]; }
    } else {
      assert (run + more)[..|run + more| - 1] == run + more[..|more| - 1];
      ReachedOn(start, run, more[..|more| - 1]);
    }
  }

  // ------------------------------------------ one read's records, in any order

  /** The verdicts of one read told in the order `order`. */
  function Batch(start: nat, verdicts: seq<Verdict>, order: seq<nat>): (run: seq<Told>)
    requires forall i | 0 <= i < |order| :: order[i] < |verdicts|
    ensures |run| == |order| && forall i | 0 <= i < |run| :: run[i] == Told(start + 1 + order[i], verdicts[order[i]])
  {
    seq(|order|, i requires 0 <= i < |order| => Told(start + 1 + order[i], verdicts[order[i]]))
  }

  /** Each verdict of the read told once. */
  ghost predicate EachOnce(order: seq<nat>, count: nat) {
    && (forall i | 0 <= i < |order| :: order[i] < count)
    && (forall i, j | 0 <= i < j < |order| :: order[i] != order[j])
    && (forall k | 0 <= k < count :: k in order)
  }

  /** The verdicts of the records before the first failed one are told in order. */
  ghost predicate SettledInOrder(verdicts: seq<Verdict>, order: seq<nat>) {
    forall i, j | 0 <= i < j < |order| && order[i] < |Settled(verdicts)| && order[j] < |Settled(verdicts)| :: order[i] < order[j]
  }

  /** Whatever the order, a read's verdicts never move the place past its first
      failed record; and they move it up to there exactly where those before it
      are told in order: the next read then begins with the failed one. */
  lemma AnyOrder(start: nat, verdicts: seq<Verdict>, order: seq<nat>)
    requires EachOnce(order, |verdicts|)
    ensures Reached(start, Batch(start, verdicts, order)) <= start + |Settled(verdicts)|
    ensures Reached(start, Batch(start, verdicts, order)) == start + |Settled(verdicts)| <==> SettledInOrder(verdicts, order)
  {
    var run, n := Batch(start, verdicts, order), |Settled(verdicts)|;
    NotPastFailed(start, verdicts, order);
    InOrderLets(start, verdicts, order);
    GoesExactly(start, run, n + 1);
    GoesExactly(start, run, n);
  }

  lemma NotPastFailed(start: nat, verdicts: seq<Verdict>, order: seq<nat>)
    requires EachOnce(order, |verdicts|)
    ensures !LetBy(Batch(start, verdicts, order), start, |Settled(verdicts)| + 1)
  {
    var run, n := Batch(start, verdicts, order), |Settled(verdicts)|;
    forall told: seq<nat> | InOrder(run, start, told) ensures |told| <= n {
      LetByUnfailed(start, verdicts, order, told);
      SettledAtLeast(verdicts, |told|);
    }
  }

  /** What is let by in order is a prefix of the read's verdicts none of which failed. */
  lemma LetByUnfailed(start: nat, verdicts: seq<Verdict>, order: seq<nat>, told: seq<nat>)
    requires EachOnce(order, |verdicts|) && InOrder(Batch(start, verdicts, order), start, told)
    ensures |told| <= |verdicts| && forall j | 0 <= j < |told| :: verdicts[j] != Failed
  {
    forall j | 0 <= j < |told| ensures j < |verdicts| && verdicts[j] != Failed {
      assert order[told[j]] == j;
    }
    if |told| > 0 { assert order[told[|told| - 1]] == |told| - 1; }
  }

  lemma {:induction false} SettledAtLeast(verdicts: seq<Verdict>, n: nat)
    requires n <= |verdicts| && forall j | 0 <= j < n :: verdicts[j] != Failed
    ensures |Settled(verdicts)| >= n
  {
    if n > 0 {
      assert verdicts[0] != Failed;
      SettledAtLeast(verdicts[1..], n - 1);
    }
  }

  lemma InOrderLets(start: nat, verdicts: seq<Verdict>, order: seq<nat>)
    requires EachOnce(order, |verdicts|)
    ensures LetBy(Batch(start, verdicts, order), start, |Settled(verdicts)|) <==> SettledInOrder(verdicts, order)
  {
    var run, n := Batch(start, verdicts, order), |Settled(verdicts)|;
    hide Settled, InOrder;
    if LetBy(run, start, n) {
      var told: seq<nat> :| |told| == n && InOrder(run, start, told);
      forall i, j | 0 <= i < j < |order| && order[i] < n && order[j] < n ensures order[i] < order[j] {
        ToldBefore(start, verdicts, order, told, i, j);
      }
    }
    if SettledInOrder(verdicts, order) { LetByInOrder(start, verdicts, order); }
  }

  lemma LetByInOrder(start: nat, verdicts: seq<Verdict>, order: seq<nat>)
    requires EachOnce(order, |verdicts|) && SettledInOrder(verdicts, order)
    ensures LetBy(Batch(start, verdicts, order), start, |Settled(verdicts)|)
  {
    var n := |Settled(verdicts)|;
    var told := seq(n, k requires 0 <= k < n => ToldAt(order, |verdicts|, k));
    InOrderIs(start, verdicts, order, told);
  }

  lemma InOrderIs(start: nat, verdicts: seq<Verdict>, order: seq<nat>, told: seq<nat>)
    requires forall i | 0 <= i < |order| :: order[i] < |verdicts|
    requires |told| == |Settled(verdicts)| && SettledInOrder(verdicts, order)
    requires forall k | 0 <= k < |told| :: told[k] < |order| && order[told[k]] == k
    ensures InOrder(Batch(start, verdicts, order), start, told)
  {
    forall i, j | 0 <= i < j < |told| ensures told[i] < told[j] {
      assert order[told[i]] == i && order[told[j]] == j;
    }
  }

  lemma ToldBefore(start: nat, verdicts: seq<Verdict>, order: seq<nat>, told: seq<nat>, i: nat, j: nat)
    requires EachOnce(order, |verdicts|) && InOrder(Batch(start, verdicts, order), start, told)
    requires i < j < |order| && order[i] < |told| && order[j] < |told|
    ensures order[i] < order[j]
  {
    ToldWhere(start, verdicts, order, told, i);
    ToldWhere(start, verdicts, order, told, j);
  }

  lemma ToldWhere(start: nat, verdicts: seq<Verdict>, order: seq<nat>, told: seq<nat>, i: nat)
    requires EachOnce(order, |verdicts|) && InOrder(Batch(start, verdicts, order), start, told)
    requires i < |order| && order[i] < |told|
    ensures told[order[i]] == i
  {
    assert order[told[order[i]]] == order[i];
  }

  ghost function ToldAt(order: seq<nat>, count: nat, k: nat): (i: nat)
    requires EachOnce(order, count) && k < count
    ensures i < |order| && order[i] == k
  {
    assert k in order;
    var i: nat :| i < |order| && order[i] == k;
    i
  }
}
