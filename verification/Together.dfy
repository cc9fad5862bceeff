/**
 Arrivals whose far end settles them together: each has an acknowledgement of
 its own, and the far end is told once, after the last of them has its verdict
 or was let go without one.
 */
module Together {

  import opened Acknowledgements
  import opened Wrappers

  /** Each arrival's verdict by its place; none where it was let go without one. */
  type Verdicts = seq<Option<Verdict>>

  class Tally {
    const count: nat
    const each: (nat, Verdict) -> Result<()>  // run for an arrival as its verdict is given
    const settle: Verdicts -> Result<()>      // run once, with them all
    var verdicts: Verdicts
    var left: nat
    var uncounted: set<nat>                   // the acknowledgements neither given nor let go yet
    var settled: seq<Verdicts>                // what `settle` was run with

    ghost predicate Valid()
      reads this
    {
      && |uncounted| == left && (left > 0 ==> |verdicts| == count)
      && forall i | i in uncounted :: i < count
    }

    constructor (count: nat, each: (nat, Verdict) -> Result<()>, settle: Verdicts -> Result<()>)
      ensures Valid() && this.count == count && this.each == each && this.settle == settle
      ensures Now() == Begun(count)
    {
      this.count, this.each, this.settle := count, each, settle;
      verdicts, left, settled := seq(count, _ => None), count, [];
      uncounted := Places(count);
    }

    ghost function Now(): State
      reads this
    {
      State(verdicts, left, uncounted, settled)
    }

    /** An acknowledgement counted, the last of them settling: the settling's
        result. One counted already counts no more. */
    method Counted(at: nat, verdict: Option<Verdict>) returns (r: Result<()>)
      requires Valid()
      modifies this
      ensures Valid() && Now() == CountedIn(old(Now()), at, verdict)
      ensures r == if settled == old(settled) then Ok(()) else settle(settled[|settled| - 1])
    {
      if at !in uncounted { return Ok(()); }
      uncounted := uncounted - {at};
      verdicts := verdicts[at := verdict];
      left := left - 1;
      if left > 0 { return Ok(()); }
      var all := verdicts;
      settled, verdicts := settled + [all], [];
      r := settle(all);
    }

    /** The arrival at `at` given its verdict. A failed `each` still counts it. */
    method Acknowledge(at: nat, verdict: Verdict) returns (r: Result<()>)
      requires Valid() && at in uncounted
      modifies this
      ensures Valid() && Now() == CountedIn(old(Now()), at, Some(verdict))
      ensures r == if each(at, verdict).Err? then each(at, verdict)
                   else if settled == old(settled) then Ok(()) else settle(settled[|settled| - 1])
    {
      var told := each(at, verdict);
      var done := Counted(at, Some(verdict));
      r := if told.Err? then told else done;
    }

    /** The arrival at `at` let go without a verdict: a failed settling has nobody to tell. */
    method Drop(at: nat)
      requires Valid()
      modifies this
      ensures Valid() && Now() == CountedIn(old(Now()), at, None)
    {
      var _ := Counted(at, None);
    }
  }

  datatype State = State(verdicts: Verdicts, left: int, uncounted: set<nat>, settled: seq<Verdicts>)

  function Begun(count: nat): State {
    State(seq(count, _ => None), count, Places(count), [])
  }

  function CountedIn(s: State, at: nat, verdict: Option<Verdict>): State {
    if at !in s.uncounted || at >= |s.verdicts| then s
    else
      var all := s.verdicts[at := verdict];
      if s.left - 1 > 0 then State(all, s.left - 1, s.uncounted - {at}, s.settled)
      else State([], s.left - 1, s.uncounted - {at}, s.settled + [all])
  }

  function Places(count: nat): (r: set<nat>)
    ensures |r| == count && forall i :: i in r <==> 0 <= i < count
  {
    if count == 0 then {} else Places(count - 1) + {count - 1}
  }

  // --------------------------------------------- over any order of the verdicts

  /** One acknowledgement ended: given its verdict, or let go without one. */
  datatype Ended = Ended(at: nat, verdict: Option<Verdict>)

  function After(count: nat, run: seq<Ended>): State {
    if run == [] then Begun(count)
    else
      var last := run[|run| - 1];
      CountedIn(After(count, run[..|run| - 1]), last.at, last.verdict)
  }

  /** An acknowledgement is given or let go once. */
  ghost predicate EachOnce(count: nat, run: seq<Ended>) {
    && (forall i | 0 <= i < |run| :: run[i].at < count)
    && (forall i, j | 0 <= i < j < |run| :: run[i].at != run[j].at)
  }

  /** The verdict the run gave the arrival at `at`. */
  function GivenTo(run: seq<Ended>, at: nat): Option<Verdict> {
    if run == [] then None
    else if run[|run| - 1].at == at then run[|run| - 1].verdict
    else GivenTo(run[..|run| - 1], at)
  }

  function AllGiven(count: nat, run: seq<Ended>): Verdicts {
    seq(count, at requires 0 <= at < count => GivenTo(run, at))
  }

  function EndedIn(run: seq<Ended>): set<nat> {
    set i | 0 <= i < |run| :: run[i].at
  }

  /** What the tally holds before it settles, and what it settled: `ended` of its
      acknowledgements ended so far, and `given` what each arrival was given. */
  ghost predicate Tallied(count: nat, ended: set<nat>, given: Verdicts, s: State) {
    && |given| == count && ended <= Places(count)
    && s.uncounted == Places(count) - ended && s.left == |s.uncounted|
    && (s.left > 0 ==> s.verdicts == given)
    && s.settled == if s.left == 0 < count then [given] else []
  }

  /** The far end is told once, after the last of them and never before, with
      exactly what each was given; of no arrivals at all it is told nothing. */
  lemma {:induction false} SettlesOnce(count: nat, run: seq<Ended>)
    requires EachOnce(count, run)
    ensures |run| <= count && Tallied(count, EndedIn(run), AllGiven(count, run), After(count, run))
    ensures After(count, run).left == count - |run|
    ensures After(count, run).settled == if 0 < count == |run| then [AllGiven(count, run)] else []
  {
    if run == [] {
      assert AllGiven(count, []) == seq(count, _ => None);
    } else {
      var front, last := run[..|run| - 1], run[|run| - 1];
      SettlesOnce(count, front);
      EndedNext(count, run);
      hide EndedIn, AllGiven, EachOnce;
      TalliedNext(count, EndedIn(front), AllGiven(count, front), After(count, front), last);
    }
  }

  lemma TalliedNext(count: nat, ended: set<nat>, given: Verdicts, s: State, last: Ended)
    requires Tallied(count, ended, given, s) && last.at in Places(count) - ended
    ensures Tallied(count, ended + {last.at}, given[last.at := last.verdict], CountedIn(s, last.at, last.verdict))
    ensures CountedIn(s, last.at, last.verdict).left == s.left - 1
  {
    assert s.uncounted - {last.at} == Places(count) - (ended + {last.at});
  }

  lemma EndedNext(count: nat, run: seq<Ended>)
    requires EachOnce(count, run) && run != []
    ensures var front, last := run[..|run| - 1], run[|run| - 1];
            && EndedIn(run) == EndedIn(front) + {last.at} && last.at in Places(count) - EndedIn(front)
            && last.at < |AllGiven(count, front)| == count
            && AllGiven(count, run) == AllGiven(count, front)[last.at := last.verdict]
  {
    hide EndedIn, EachOnce, AllGiven, Places;
    EndedInNext(run);
    EndedAnew(count, run);
    AllGivenNext(count, run);
  }

  lemma AllGivenNext(count: nat, run: seq<Ended>)
    requires EachOnce(count, run) && run != []
    ensures var front, last := run[..|run| - 1], run[|run| - 1];
            last.at < |AllGiven(count, front)| == count
            && AllGiven(count, run) == AllGiven(count, front)[last.at := last.verdict]
  {}

  lemma EndedInNext(run: seq<Ended>)
    requires run != []
    ensures EndedIn(run) == EndedIn(run[..|run| - 1]) + {run[|run| - 1].at}
  {
    var front, last := run[..|run| - 1], run[|run| - 1];
    forall at | at in EndedIn(run) ensures at in EndedIn(front) + {last.at} {
      var i :| 0 <= i < |run| && run[i].at == at;
      if i < |front| { assert front[i].at == at; }
    }
    forall at | at in EndedIn(front) ensures at in EndedIn(run) {
      var i :| 0 <= i < |front| && front[i].at == at;
      assert run[i].at == at;
    }
    assert last.at in EndedIn(run);
  }

  lemma EndedAnew(count: nat, run: seq<Ended>)
    requires EachOnce(count, run) && run != []
    ensures run[|run| - 1].at in Places(count) && run[|run| - 1].at !in EndedIn(run[..|run| - 1])
  {}

  /** What a settling consumes at the far end: the accepted arrivals. */
  function Consumed(all: Verdicts): set<nat> {
    set at | 0 <= at < |all| && all[at] == Some(Accepted)
  }

  function ConsumedBy(settled: seq<Verdicts>): set<nat> {
    if settled == [] then {} else ConsumedBy(settled[..|settled| - 1]) + Consumed(settled[|settled| - 1])
  }

  /** Consumed is precisely what was accepted, once every arrival's verdict is in:
      one refused, failed or let go consumes nothing. */
  lemma ConsumesAccepted(count: nat, run: seq<Ended>, at: nat)
    requires EachOnce(count, run)
    ensures at in ConsumedBy(After(count, run).settled) <==> |run| == count && Ended(at, Some(Accepted)) in run
  {
    SettlesOnce(count, run);
    GivenExactly(count, run, at, Some(Accepted));
    if 0 < count == |run| {
      assert [AllGiven(count, run)][..0] == [];
      assert at in ConsumedBy([AllGiven(count, run)]) <==> at in Consumed(AllGiven(count, run));
    }
  }

  lemma {:induction false} GivenExactly(count: nat, run: seq<Ended>, at: nat, verdict: Option<Verdict>)
    requires EachOnce(count, run) && verdict.Some?
    ensures GivenTo(run, at) == verdict <==> Ended(at, verdict) in run
    ensures Ended(at, verdict) in run ==> at < count
  {
    if run != [] {
      var front, last := run[..|run| - 1], run[|run| - 1];
      GivenExactly(count, front, at, verdict);
      assert run == front + [last];
    }
  }

  /** The order the verdicts come in makes no difference to what is settled. */
  lemma OrderMakesNoDifference(count: nat, run: seq<Ended>, other: seq<Ended>)
    requires EachOnce(count, run) && EachOnce(count, other) && |run| == |other|
    requires forall e :: e in run <==> e in other
    ensures After(count, run).settled == After(count, other).settled
  {
    SettlesOnce(count, run);
    SettlesOnce(count, other);
    forall at: nat | at < count ensures GivenTo(run, at) == GivenTo(other, at) {
      forall v: Option<Verdict> | v.Some? ensures GivenTo(run, at) == v <==> GivenTo(other, at) == v {
        GivenExactly(count, run, at, v);
        GivenExactly(count, other, at, v);
      }
    }
    assert AllGiven(count, run) == AllGiven(count, other);
  }
}
