/** Whole runs: what holds at every moment of every one. */
module ClaimRuns {

  import opened Wrappers
  import opened Names
  import opened Directory
  import opened ClaimProtocol
  import opened ClaimConservation
  import opened ClaimOwners
  import opened ClaimWinner

  /** The states of a run from an empty location, and the steps between them. */
  ghost predicate Run(states: seq<State>, steps: seq<Step>) {
    && |states| == |steps| + 1
    && states[0] == INIT
    && forall i | 0 <= i < |steps| :: Enabled(states[i], steps[i]) && states[i + 1] == Apply(states[i], steps[i])
  }

  /** A run in which a recovery lists only where its node owns nothing. */
  ghost predicate StartingRun(states: seq<State>, steps: seq<Step>) {
    Run(states, steps) && forall i | 0 <= i < |steps| :: Starting(states[i], steps[i])
  }

  lemma {:induction false} EveryRunConserves(states: seq<State>, steps: seq<Step>, i: nat)
    requires Run(states, steps) && i < |states|
    ensures Conserved(states[i])
  {
    hide Apply, Enabled, MayArrive, ClaimOf, SenderOf;
    if i > 0 {
      EveryRunConserves(states, steps, i - 1);
      StepConserved(states[i - 1], steps[i - 1]);
    }
  }

  lemma InitOwns()
    ensures RenamesOwn(INIT) && LiesAsWon(INIT)
  {}

  lemma {:induction false} EveryRunOwns(states: seq<State>, steps: seq<Step>, i: nat)
    requires Run(states, steps) && i < |states|
    ensures Conserved(states[i]) && RenamesOwn(states[i]) && LiesAsWon(states[i])
  {
    hide Apply, Enabled, Conserved, RenamesOwn, LiesAsWon, MayArrive, ClaimOf, SenderOf;
    EveryRunConserves(states, steps, i);
    InitOwns();
    if i > 0 {
      EveryRunOwns(states, steps, i - 1);
      StepKeepsRenamesOwn(states[i - 1], steps[i - 1]);
      StepKeepsLiesAsWon(states[i - 1], steps[i - 1]);
    }
  }

  lemma {:induction false} EveryStartingRunHasWinners(states: seq<State>, steps: seq<Step>, i: nat)
    requires StartingRun(states, steps) && i < |states|
    ensures Conserved(states[i]) && Winner(states[i])
  {
    hide Apply, Enabled, Conserved, RenamesOwn, LiesAsWon, MayArrive, ClaimOf, SenderOf;
    EveryRunConserves(states, steps, i);
    if i > 0 {
      EveryStartingRunHasWinners(states, steps, i - 1);
      EveryRunOwns(states, steps, i - 1);
      StepKeepsWinner(states[i - 1], steps[i - 1]);
    }
  }

  // ------------------------------------------------------------ one winner

  /** In every run, a claim whose rename has not succeeded owns nothing. */
  lemma RenameOwns(states: seq<State>, steps: seq<Step>, i: nat, c: string)
    requires Run(states, steps) && i < |states| && c in states[i].attempts
    ensures if states[i].attempts[c].renamed then c in states[i].owners && states[i].owners[c].node == states[i].attempts[c].node
            else c !in states[i].owners
  {
    hide Run, Conserved, LiesAsWon;
    EveryRunOwns(states, steps, i);
  }

  /** In every run, of an artifact's owners at most one has it lying under its name,
      and then it lies under no other. */
  lemma OneHasIt(states: seq<State>, steps: seq<Step>, i: nat, c: string)
    requires Run(states, steps) && i < |states| && c in states[i].owners && c in states[i].dir.files
    ensures ClaimedBy(c, states[i].owners[c].node)
    ensures forall n | n in states[i].dir.files :: states[i].dir.files[n].artifact == states[i].owners[c].artifact <==> n == c
    ensures forall c' | c' in states[i].owners && c' in states[i].dir.files ::
              states[i].owners[c'].artifact == states[i].owners[c].artifact ==> c' == c
  {
    hide Run, MayArrive, ClaimOf, SenderOf, Named, SendsSpared;
    EveryRunOwns(states, steps, i);
  }

  /** No artifact has two owners at once, and each owner's artifact lies under
      the one name that records that owner, and under no other. */
  lemma OneWinner(states: seq<State>, steps: seq<Step>, i: nat, c: string, c': string)
    requires StartingRun(states, steps) && i < |states|
    requires c in states[i].owners && c' in states[i].owners
    ensures states[i].owners[c].artifact == states[i].owners[c'].artifact ==> c == c'
    ensures c in states[i].dir.files && ClaimedBy(c, states[i].owners[c].node)
    ensures forall n | n in states[i].dir.files :: states[i].dir.files[n].artifact == states[i].owners[c].artifact <==> n == c
  {
    hide Run, Apply, Enabled, MayArrive, ClaimOf, SenderOf;
    EveryStartingRunHasWinners(states, steps, i);
  }

  /** Where no node claims while it recovers, two claims of one name are never
      under way at once. */
  lemma {:induction false} OneTurn(states: seq<State>, steps: seq<Step>, i: nat)
    requires Run(states, steps) && i < |states| && forall j | 0 <= j < i :: Alone(states[j], steps[j])
    ensures TurnsHeld(states[i])
    ensures forall c, c' | c in states[i].attempts && c' in states[i].attempts ::
              states[i].attempts[c].dropped == states[i].attempts[c'].dropped ==> c == c'
  {
    hide Apply, Enabled, MayArrive, ClaimOf, SenderOf;
    if i > 0 {
      OneTurn(states, steps, i - 1);
      StepKeepsTurns(states[i - 1], steps[i - 1]);
    }
  }

  // ---------------------------------------------------------- conservation

  ghost predicate LiesUnder(s: State, a: nat, n: string) {
    n in s.dir.files && s.dir.files[n].artifact == a
  }

  /** Whoever claims, refuses, crashes and recovers, every artifact written is
      under exactly one name, or gone for exactly one reason. */
  lemma EveryArtifactOnce(states: seq<State>, steps: seq<Step>, i: nat, a: nat)
    requires Run(states, steps) && i < |states| && a in states[i].produced
    ensures a in states[i].gone <==> !exists n :: LiesUnder(states[i], a, n)
    ensures forall n, m | LiesUnder(states[i], a, n) && LiesUnder(states[i], a, m) :: n == m
  {
    hide Run, Apply, Enabled, Named, Spelt, SendsSpared;
    EveryRunConserves(states, steps, i);
    if a !in states[i].gone {
      var n :| n in states[i].dir.files && states[i].dir.files[n].artifact == a;
      assert LiesUnder(states[i], a, n);
    }
  }

  /** What a step makes of the artifact under `n`: consumed by an acceptance of
      it, replaced by a write to its name, removed as a send given up. */
  function Ends(s: State, step: Step, n: string): Option<Fate>
    requires Enabled(s, step)
  {
    match step
    case Produce(name, _) => if n == name then Some(Replaced) else None
    case Accept(claimed, deleted) => if n == claimed && deleted then Some(Consumed(s.owners[claimed].node)) else None
    case RecoverRemove(_, name) => if n == name then Some(Removed) else None
    case SendPlace(name) => if n == s.sending[name] then Some(Replaced) else None
    case SendEnd(name, removed) => if n == name && removed then Some(Removed) else None
    case _ => None
  }

  /** An artifact leaves the location by one of those, and by no other step:
      never by a refusal, a failure, a crash, a return or a claim. */
  lemma OnlyItsOwnEnds(s: State, step: Step, n: string)
    requires Conserved(s) && Enabled(s, step) && n in s.dir.files
    ensures var a := s.dir.files[n].artifact;
            var s' := Apply(s, step);
            match Ends(s, step, n)
            case Some(fate) => a in s'.gone && s'.gone[a] == fate
            case None => a !in s'.gone && exists m :: LiesUnder(s', a, m)
  {
    hide MayArrive, ClaimOf, SenderOf, Named, Spelt, SendsSpared;
    var a, s' := s.dir.files[n].artifact, Apply(s, step);
    hide Accounted;
    StepConserved(s, step);
    EndsGone(s, step, n);
    if Ends(s, step, n).None? { NotGoneLies(s', a); }
  }

  lemma NotGoneLies(s: State, a: nat)
    requires Conserved(s) && a in s.produced && a !in s.gone
    ensures exists m :: LiesUnder(s, a, m)
  {
    hide Named, Spelt, SendsSpared;
    var n :| n in s.dir.files && s.dir.files[n].artifact == a;
    assert LiesUnder(s, a, n);
  }

  lemma EndsGone(s: State, step: Step, n: string)
    requires Conserved(s) && Enabled(s, step) && n in s.dir.files
    ensures EndsSo(s, step, n)
  {
    hide MayArrive, ClaimOf, SenderOf, Conserved, Enabled, Apply, EndsSo;
    if step.RecoverRemove? || step.SendPlace? || step.SendEnd? || step.SendWrite? || step.SendBegin? {
      SendEndsGone(s, step, n);
    } else {
      ClaimEndsGone(s, step, n);
    }
  }

  /** What `Ends` says of an artifact is what the step makes of it. */
  ghost predicate EndsSo(s: State, step: Step, n: string)
    requires Enabled(s, step) && n in s.dir.files
  {
    var a, s' := s.dir.files[n].artifact, Apply(s, step);
    && a in s'.produced
    && match Ends(s, step, n)
       case Some(fate) => a in s'.gone && s'.gone[a] == fate
       case None => a !in s'.gone
  }

  lemma SendEndsGone(s: State, step: Step, n: string)
    requires Conserved(s) && Enabled(s, step) && n in s.dir.files
    requires step.RecoverRemove? || step.SendPlace? || step.SendEnd? || step.SendWrite? || step.SendBegin?
    ensures EndsSo(s, step, n)
  {
    hide MayArrive, ClaimOf, SenderOf, Conserved, Enabled, Apply, EndsSo;
    if step.SendPlace? || step.SendWrite? {
      PlacedEndsGone(s, step, n);
    } else {
      RemovedEndsGone(s, step, n);
    }
  }

  lemma PlacedEndsGone(s: State, step: Step, n: string)
    requires Conserved(s) && Enabled(s, step) && n in s.dir.files && (step.SendPlace? || step.SendWrite?)
    ensures EndsSo(s, step, n)
  {
    hide MayArrive, ClaimOf, SenderOf, Named, Spelt, SendsSpared;
  }

  lemma RemovedEndsGone(s: State, step: Step, n: string)
    requires Conserved(s) && Enabled(s, step) && n in s.dir.files && (step.RecoverRemove? || step.SendEnd? || step.SendBegin?)
    ensures EndsSo(s, step, n)
  {
    hide MayArrive, ClaimOf, SenderOf, Named, Spelt, SendsSpared;
  }

  lemma ClaimEndsGone(s: State, step: Step, n: string)
    requires Conserved(s) && Enabled(s, step) && n in s.dir.files
    requires !step.RecoverRemove? && !step.SendPlace? && !step.SendEnd? && !step.SendWrite? && !step.SendBegin?
    ensures EndsSo(s, step, n)
  {
    hide MayArrive, ClaimOf, SenderOf, Conserved, Enabled, Apply, EndsSo;
    if step.Accept? || step.GiveBack? || step.Settle? || step.RecoverReturn? || step.Produce? {
      VerdictEndsGone(s, step, n);
    } else {
      NoneEndsGone(s, step, n);
    }
  }

  lemma VerdictEndsGone(s: State, step: Step, n: string)
    requires Conserved(s) && Enabled(s, step) && n in s.dir.files
    requires step.Accept? || step.GiveBack? || step.Settle? || step.RecoverReturn? || step.Produce?
    ensures EndsSo(s, step, n)
  {
    hide MayArrive, ClaimOf, SenderOf, Named, Spelt, SendsSpared;
  }

  lemma NoneEndsGone(s: State, step: Step, n: string)
    requires Conserved(s) && Enabled(s, step) && n in s.dir.files
    requires || step.TakeTurn? || step.Rename? || step.EndClaim? || step.Crash? || step.RecoverList? || step.RecoverSift?
             || step.RecoverTurn? || step.RecoverEnd?
    ensures EndsSo(s, step, n)
  {
    hide MayArrive, ClaimOf, SenderOf, Named, Spelt, SendsSpared;
  }

  lemma GoneStays(s: State, step: Step, a: nat)
    requires Conserved(s) && Enabled(s, step) && a in s.gone
    ensures a in Apply(s, step).gone && Apply(s, step).gone[a] == s.gone[a]
  {
    hide MayArrive, ClaimOf, SenderOf, Named, Spelt, SendsSpared;
  }

  lemma {:induction false} GoneForGood(states: seq<State>, steps: seq<Step>, i: nat, j: nat, a: nat)
    requires Run(states, steps) && i <= j < |states| && a in states[i].gone
    ensures a in states[j].gone && states[j].gone[a] == states[i].gone[a]
  {
    hide Apply, Enabled, Conserved, MayArrive, ClaimOf, SenderOf;
    if i < j {
      GoneForGood(states, steps, i, j - 1, a);
      EveryRunConserves(states, steps, j - 1);
      GoneStays(states[j - 1], steps[j - 1], a);
    }
  }

  /** What an acceptance takes away, if anything: what its owner's rename won. */
  function Taken(s: State, step: Step): set<nat>
    requires step.Accept? && step.claimed in s.owners
  {
    if step.deleted && step.claimed in s.dir.files then {s.owners[step.claimed].artifact} else {}
  }

  /** In every run, an acceptance takes away what its owner's rename won where that
      lies under its name, and otherwise nothing; no two take away the same. */
  lemma TakenOnce(states: seq<State>, steps: seq<Step>, i: nat, j: nat)
    requires Run(states, steps) && i < j < |steps| && steps[i].Accept? && steps[j].Accept?
    ensures steps[i].claimed in states[i].owners && steps[j].claimed in states[j].owners
    ensures states[i + 1].gone.Keys - states[i].gone.Keys == Taken(states[i], steps[i])
    ensures forall a | a in Taken(states[i], steps[i]) :: states[i + 1].gone[a] == Consumed(states[i].owners[steps[i].claimed].node)
    ensures Taken(states[i], steps[i]) !! Taken(states[j], steps[j])
  {
    hide Conserved, LiesAsWon, Apply, Enabled, Taken;
    AcceptTakes(states, steps, i);
    AcceptTakes(states, steps, j);
    forall a | a in Taken(states[i], steps[i]) ensures a in states[j].gone { GoneForGood(states, steps, i + 1, j, a); }
  }

  lemma AcceptTakes(states: seq<State>, steps: seq<Step>, i: nat)
    requires Run(states, steps) && i < |steps| && steps[i].Accept?
    ensures steps[i].claimed in states[i].owners
    ensures states[i + 1].gone.Keys - states[i].gone.Keys == Taken(states[i], steps[i])
    ensures forall a | a in Taken(states[i], steps[i]) ::
              a in states[i + 1].gone && states[i + 1].gone[a] == Consumed(states[i].owners[steps[i].claimed].node)
  {
    hide Conserved, RenamesOwn, LiesAsWon, Taken;
    EveryRunOwns(states, steps, i);
    TakesAway(states[i], steps[i]);
  }

  lemma TakesAway(s: State, step: Step)
    requires Conserved(s) && LiesAsWon(s) && Enabled(s, step) && step.Accept?
    ensures Apply(s, step).gone.Keys - s.gone.Keys == Taken(s, step)
    ensures forall a | a in Taken(s, step) ::
              a in Apply(s, step).gone && Apply(s, step).gone[a] == Consumed(s.owners[step.claimed].node)
  {
    hide MayArrive, ClaimOf, SenderOf, Named, Spelt, SendsSpared;
  }

  /** Where recoveries list only what their nodes do not own, an acceptance whose
      delete is made always consumes what its owner's rename won. */
  lemma ConsumedOnce(states: seq<State>, steps: seq<Step>, i: nat, j: nat)
    requires StartingRun(states, steps) && i < j < |steps|
    requires steps[i].Accept? && steps[i].deleted && steps[j].Accept? && steps[j].deleted
    ensures var one, other := states[i].owners[steps[i].claimed], states[j].owners[steps[j].claimed];
            && states[i + 1].gone.Keys - states[i].gone.Keys == {one.artifact}
            && states[i + 1].gone[one.artifact] == Consumed(one.node)
            && one.artifact != other.artifact
  {
    hide Conserved, ReturnsFree, Apply, Enabled;
    EveryStartingRunHasWinners(states, steps, i);
    EveryStartingRunHasWinners(states, steps, j);
    TakenOnce(states, steps, i, j);
  }

  // ---------------------------------------------------- never over a newer

  predicate Returning(step: Step) {
    step.Settle? || ((step.GiveBack? || step.RecoverReturn?) && step.asked)
  }

  function ReturnOf(step: Step): string
    requires Returning(step)
  {
    match step
    case GiveBack(claimed, _) => claimed
    case Settle(claimed) => claimed
    case RecoverReturn(_, claimed, _) => claimed
  }

  /** A return changes no file but its own, which goes to a free name; where a
      newer one lies there it stays claimed, and waits. */
  lemma NeverOverANewer(states: seq<State>, steps: seq<Step>, i: nat)
    requires Run(states, steps) && i < |steps| && Returning(steps[i])
    ensures ReturnsOver(states[i], states[i + 1], ReturnOf(steps[i]))
  {
    hide Conserved, Apply, Enabled, ReturnsOver;
    EveryRunConserves(states, steps, i);
    OverNone(states[i], steps[i]);
  }

  ghost predicate ReturnsOver(s: State, s': State, c: string) {
    var dropped := DroppedName(c);
    && ClaimOf(c).Some? && c != dropped
    && (forall n | n in s.dir.files && n != c :: n in s'.dir.files && s'.dir.files[n] == s.dir.files[n])
    && (dropped in s.dir.files ==> s'.dir == s.dir && c in s'.held)
    && (dropped !in s.dir.files && c in s.dir.files ==>
          s'.dir.files == Moved(s.dir.files, c, dropped) && c !in s'.dir.files)
  }

  lemma OverNone(s: State, step: Step)
    requires Conserved(s) && Enabled(s, step) && Returning(step)
    ensures ReturnsOver(s, Apply(s, step), ReturnOf(step))
  {
    hide MayArrive, ClaimOf, SenderOf, Accounted, AttemptsSpelt, SendsSpelt, SendsSpared;
  }

  // -------------------------------------------------------------- recovery

  /** Where the steps lead, each enabled as it is made. */
  function After(s: State, steps: seq<Step>): Option<State>
    decreases |steps|
  {
    if steps == [] then Some(s)
    else if Enabled(s, steps[0]) then After(Apply(s, steps[0]), steps[1..])
    else None
  }

  lemma AfterOne(s: State, step: Step, rest: seq<Step>)
    requires Enabled(s, step)
    ensures After(s, [step] + rest) == After(Apply(s, step), rest)
  {
    hide Enabled, Apply;
    assert ([step] + rest)[1..] == rest;
  }

  /** A node crashed and starting, its location listed: every file stays, and
      what is claimed or left by it is found. */
  lemma Restarted(s: State, node: string)
    requires Readable(node)
    ensures var crashed := Apply(s, Crash(node));
            && Enabled(crashed, RecoverList(node))
            && crashed.dir == s.dir && crashed.recovering.Keys !! {node}
  {
    hide MayArrive, ClaimOf, SenderOf;
  }

  lemma Relisted(s: State, node: string)
    requires Enabled(s, RecoverList(node))
    ensures var listed := Apply(s, RecoverList(node));
            && listed.dir == s.dir && node in listed.recovering && !listed.recovering[node]
            && (forall n | n in s.dir.files && ClaimedBy(n, node) :: n in listed.returning)
            && (forall n | n in s.dir.files && SentBy(n, node) :: n in listed.removing)
            && listed.sending == s.sending
  {
    hide MayArrive, ClaimOf, SenderOf;
  }

  /** Wherever a run stands, an artifact left claimed, held or not, is its
      node's to return when it starts again: back where the name is free, and
      otherwise held once more. */
  lemma AlwaysReturnable(s: State, node: string, c: string)
    requires Conserved(s) && Readable(node)
    requires c in s.dir.files && ClaimedBy(c, node)
    ensures match After(s, [Crash(node), RecoverList(node), RecoverReturn(node, c, true)])
            case None => false
            case Some(t) =>
              var dropped := DroppedName(c);
              if dropped in s.dir.files then c in t.dir.files && c in t.held
              else dropped in t.dir.files && t.dir.files[dropped] == s.dir.files[c]
  {
    hide MayArrive, ClaimOf, SenderOf, Conserved, After;
    Restarted(s, node);
    var crashed := Apply(s, Crash(node));
    Relisted(crashed, node);
    var listed := Apply(crashed, RecoverList(node));
    ThreeAfter(s, Crash(node), RecoverList(node), RecoverReturn(node, c, true));
  }

  lemma ThreeAfter(s: State, a: Step, b: Step, c: Step)
    requires Enabled(s, a) && Enabled(Apply(s, a), b) && Enabled(Apply(Apply(s, a), b), c)
    ensures After(s, [a, b, c]) == Some(Apply(Apply(Apply(s, a), b), c))
  {
    hide Enabled, Apply;
    assert [a, b, c] == [a] + [b, c] && [b, c] == [b] + [c] && [c] == [c] + [];
    AfterOne(s, a, [b, c]);
    AfterOne(Apply(s, a), b, [c]);
    AfterOne(Apply(Apply(s, a), b), c, []);
  }

  /** A send given up is removed by its own node's next start. */
  lemma LeftSendRemovable(s: State, node: string, n: string)
    requires Conserved(s) && Readable(node)
    requires n in s.dir.files && SenderOf(n) == Some(node)
    ensures match After(s, [Crash(node), RecoverList(node)])
            case None => false
            case Some(listed) =>
              match After(listed, [RecoverSift(node), RecoverRemove(node, n)])
              case None => false
              case Some(t) => n !in t.dir.files && forall m | m in s.dir.files && m != n :: m in t.dir.files
  {
    FamiliesApart(n);
    hide MayArrive, ClaimOf, SenderOf, Conserved, After;
    Restarted(s, node);
    var crashed := Apply(s, Crash(node));
    Relisted(crashed, node);
    TwoAfter(s, Crash(node), RecoverList(node));
    NotInFlight(s, node, n);
    Sifted(Apply(crashed, RecoverList(node)), node, n);
  }

  /** A send that ended without its file being removed is in flight no more: its node's
      next recovery, without a crash between, removes what it left. */
  lemma EndedSendRemovable(s: State, node: string, n: string)
    requires Conserved(s) && Readable(node) && node !in s.recovering
    requires n in s.sending && n in s.dir.files && SenderOf(n) == Some(node)
    ensures match After(s, [SendEnd(n, false), RecoverList(node)])
            case None => false
            case Some(listed) =>
              match After(listed, [RecoverSift(node), RecoverRemove(node, n)])
              case None => false
              case Some(t) => n !in t.dir.files && forall m | m in s.dir.files && m != n :: m in t.dir.files
  {
    FamiliesApart(n);
    hide MayArrive, ClaimOf, SenderOf, Conserved, After;
    var ended := Apply(s, SendEnd(n, false));
    Relisted(ended, node);
    TwoAfter(s, SendEnd(n, false), RecoverList(node));
    Sifted(Apply(ended, RecoverList(node)), node, n);
  }

  lemma TwoAfter(s: State, a: Step, b: Step)
    requires Enabled(s, a) && Enabled(Apply(s, a), b)
    ensures After(s, [a, b]) == Some(Apply(Apply(s, a), b))
  {
    hide Enabled, Apply;
    assert [a, b] == [a] + [b] && [b] == [b] + [];
    AfterOne(s, a, [b]);
    AfterOne(Apply(s, a), b, []);
  }

  /** A process's sends are no longer in flight once it is gone. */
  lemma NotInFlight(s: State, node: string, n: string)
    requires SenderOf(n) == Some(node)
    ensures n !in Apply(s, Crash(node)).sending
  {
    hide MayArrive, ClaimOf, SenderOf;
  }

  lemma Sifted(s: State, node: string, n: string)
    requires node in s.recovering && n in s.removing && SentBy(n, node) && n !in s.sending
    ensures match After(s, [RecoverSift(node), RecoverRemove(node, n)])
            case None => false
            case Some(t) => n !in t.dir.files && forall m | m in s.dir.files && m != n :: m in t.dir.files
  {
    hide MayArrive, ClaimOf, SenderOf, After;
    TwoAfter(s, RecoverSift(node), RecoverRemove(node, n));
  }

  /** In every run, what a recovery removes is its own node's send, and never
      one that is still writing. */
  lemma SendsInFlightSpared(states: seq<State>, steps: seq<Step>, i: nat)
    requires Run(states, steps) && i < |steps| && steps[i].RecoverRemove?
    ensures steps[i].name !in states[i].sending && SenderOf(steps[i].name) == Some(steps[i].node)
    ensures forall n | n in states[i].sending && n in states[i].dir.files :: n in states[i + 1].dir.files
  {
    hide MayArrive, ClaimOf, SenderOf, Accounted, Named, AttemptsSpelt, HoldsSpelt;
    EveryRunConserves(states, steps, i);
  }

  // ------------------------------------------ exactly when an owner is lost

  /** A return of what is still owned, to a free name. */
  predicate Loses(s: State, step: Step) {
    Returning(step) && !step.GiveBack? && ReturnOf(step) in s.owners && DroppedName(ReturnOf(step)) !in s.dir.files
  }

  /** Of all steps, ownership is lost by one kind: a return of what is still
      owned to a free name. */
  lemma OwnerLostExactly(s: State, step: Step)
    requires Conserved(s) && OwnersLie(s) && Enabled(s, step)
    ensures OwnersLie(Apply(s, step)) <==>
            !Loses(s, step)
  {
    if Loses(s, step) {
      ReturnLoses(s, step);
    } else {
      forall c | c in Apply(s, step).owners
        ensures c in Apply(s, step).dir.files && Apply(s, step).dir.files[c].artifact == Apply(s, step).owners[c].artifact
      {
        OwnerStays(s, step, c);
      }
    }
  }

  /** In every state of a run each owner's artifact lies under its name exactly
      where no step of it is such a return. */
  lemma OwnersLieExactly(states: seq<State>, steps: seq<Step>)
    requires Run(states, steps)
    ensures (forall i | 0 <= i < |states| :: OwnersLie(states[i])) <==> forall i | 0 <= i < |steps| :: !Loses(states[i], steps[i])
  {
    hide Apply, Enabled, Conserved, Loses, OwnersLie;
    if forall i | 0 <= i < |states| :: OwnersLie(states[i]) {
      forall i | 0 <= i < |steps| ensures !Loses(states[i], steps[i]) {
        EveryRunConserves(states, steps, i);
        assert OwnersLie(states[i + 1]);
        OwnerLostExactly(states[i], steps[i]);
      }
    }
    if forall i | 0 <= i < |steps| :: !Loses(states[i], steps[i]) {
      forall i | 0 <= i < |states| ensures OwnersLie(states[i]) { LieWhileNoneLoses(states, steps, i); }
    }
  }

  lemma {:induction false} LieWhileNoneLoses(states: seq<State>, steps: seq<Step>, i: nat)
    requires Run(states, steps) && i < |states| && forall j | 0 <= j < i :: !Loses(states[j], steps[j])
    ensures OwnersLie(states[i])
  {
    if i > 0 {
      hide Apply, Enabled, Conserved, Loses, OwnersLie;
      LieWhileNoneLoses(states, steps, i - 1);
      EveryRunConserves(states, steps, i - 1);
      OwnerLostExactly(states[i - 1], steps[i - 1]);
    }
  }

  lemma ReturnLoses(s: State, step: Step)
    requires Conserved(s) && OwnersLie(s) && Enabled(s, step) && Returning(step) && !step.GiveBack?
    requires ReturnOf(step) in s.owners && DroppedName(ReturnOf(step)) !in s.dir.files
    ensures !OwnersLie(Apply(s, step))
  {
    hide MayArrive, ClaimOf, SenderOf, Accounted, AttemptsSpelt, SendsSpelt, RecoveriesSpelt, SendsSpared;
    var s' := Apply(s, step);
    assert ReturnOf(step) in s'.owners && ReturnOf(step) !in s'.dir.files;
  }

  lemma OwnerStays(s: State, step: Step, c: string)
    requires Conserved(s) && OwnersLie(s) && Enabled(s, step) && c in Apply(s, step).owners
    requires !Loses(s, step)
    ensures c in Apply(s, step).dir.files && Apply(s, step).dir.files[c].artifact == Apply(s, step).owners[c].artifact
  {
    hide Conserved, OwnersLie, MayArrive, ClaimOf, SenderOf, Enabled, Apply;
    if Untouching(step) {
      OwnersStay(s, step);
      OwnersFileStays(s, step, c);
      OwnersIs(s, c);
    } else if step.GiveBack? || step.Settle? || step.RecoverReturn? {
      OwnerOutlivesReturn(s, step, c);
    } else {
      OwnerOutlivesClaim(s, step, c);
    }
  }

  lemma OwnersStay(s: State, step: Step)
    requires Enabled(s, step) && Untouching(step)
    ensures Apply(s, step).owners == s.owners
  {
    hide MayArrive, ClaimOf, SenderOf;
  }

  lemma OwnersIs(s: State, c: string)
    requires OwnersLie(s) && c in s.owners
    ensures c in s.dir.files && s.dir.files[c].artifact == s.owners[c].artifact
  {}

  lemma OwnerOutlivesReturn(s: State, step: Step, c: string)
    requires Conserved(s) && OwnersLie(s) && Enabled(s, step) && c in Apply(s, step).owners
    requires step.GiveBack? || step.Settle? || step.RecoverReturn?
    requires !Loses(s, step)
    ensures c in Apply(s, step).dir.files && Apply(s, step).dir.files[c].artifact == Apply(s, step).owners[c].artifact
  {
    hide MayArrive, ClaimOf, SenderOf, Apply, Enabled, Conserved, OwnersLie;
    if step.GiveBack? {
      OwnerOutlivesGivingBack(s, step, c);
    } else {
      OwnerOutlivesSettling(s, step, c);
    }
  }

  lemma OwnerOutlivesGivingBack(s: State, step: Step, c: string)
    requires Conserved(s) && OwnersLie(s) && Enabled(s, step) && c in Apply(s, step).owners && step.GiveBack?
    ensures c in Apply(s, step).dir.files && Apply(s, step).dir.files[c].artifact == Apply(s, step).owners[c].artifact
  {
    hide MayArrive, ClaimOf, SenderOf, Accounted, AttemptsSpelt, SendsSpelt, SendsSpared;
  }

  lemma OwnerOutlivesSettling(s: State, step: Step, c: string)
    requires Conserved(s) && OwnersLie(s) && Enabled(s, step) && c in Apply(s, step).owners
    requires step.Settle? || step.RecoverReturn?
    requires !(Returning(step) && ReturnOf(step) in s.owners && DroppedName(ReturnOf(step)) !in s.dir.files)
    ensures c in Apply(s, step).dir.files && Apply(s, step).dir.files[c].artifact == Apply(s, step).owners[c].artifact
  {
    hide MayArrive, ClaimOf, SenderOf, Accounted, AttemptsSpelt, SendsSpelt, SendsSpared;
  }

  lemma OwnerOutlivesClaim(s: State, step: Step, c: string)
    requires Conserved(s) && OwnersLie(s) && Enabled(s, step) && c in Apply(s, step).owners
    requires !Untouching(step) && !step.GiveBack? && !step.Settle? && !step.RecoverReturn?
    ensures c in Apply(s, step).dir.files && Apply(s, step).dir.files[c].artifact == Apply(s, step).owners[c].artifact
  {
    hide MayArrive, ClaimOf, SenderOf, Accounted, SendsSpelt, RecoveriesSpelt, SendsSpared;
  }

  /** A turn is taken exactly where nothing of its name lies, a file or a turn. */
  lemma TurnTakenExactly(s: State, node: string, dropped: string, nanos: nat)
    requires Conserved(s) && Enabled(s, TakeTurn(node, dropped, nanos))
    ensures var c, t := Spelled(TakeTurn(node, dropped, nanos)), Apply(s, TakeTurn(node, dropped, nanos));
            if TurnOf(dropped) in s.dir.files || TurnOf(dropped) in s.dir.turns then t == s
            else c in t.attempts && t.dir.files == s.dir.files && t.dir.turns == s.dir.turns[TurnOf(dropped) := node]
  {
    hide MayArrive, ClaimOf, SenderOf, Spelled, Conserved, TurnOf;
  }

  /** A crash loses all its node knew and no file: it claims, owns, holds, sends and
      recovers nothing. */
  lemma CrashForgets(s: State, node: string)
    requires Conserved(s)
    ensures var t := Apply(s, Crash(node));
            && t.dir == s.dir && node !in t.recovering
            && (forall c | c in t.attempts :: t.attempts[c].node != node) && (forall c | c in t.owners :: t.owners[c].node != node)
            && (forall c | c in t.held + t.returning :: !ClaimedBy(c, node))
            && (forall n | n in t.sending :: SenderOf(n) != Some(node)) && (forall n | n in t.removing :: !SentBy(n, node))
    ensures forall c | c in s.owners && s.owners[c].node != node :: c in Apply(s, Crash(node)).owners
    ensures forall c | c in s.held && !ClaimedBy(c, node) :: c in Apply(s, Crash(node)).held
  {
    hide MayArrive, ClaimOf, SenderOf, Conserved;
  }

  /** A recovery that ended, completed or not, acts on nothing it listed any more; what
      others' listings found stays. */
  lemma EndedRecoveryForgets(s: State, node: string, c: string)
    requires Conserved(s) && Enabled(s, RecoverEnd(node))
    ensures var t := Apply(s, RecoverEnd(node));
            && t.dir == s.dir && t.held == s.held && node !in t.recovering
            && (c in t.returning <==> c in s.returning && !ClaimedBy(c, node))
            && (c in t.removing <==> c in s.removing && !SentBy(c, node))
  {
    hide MayArrive, ClaimOf, SenderOf, Conserved;
  }

  /** A claim nobody contends is won, and owns the artifact it moved. */
  lemma Uncontended(s: State, node: string, dropped: string, nanos: nat)
    requires Enabled(s, TakeTurn(node, dropped, nanos))
    requires dropped in s.dir.files && TurnOf(dropped) !in s.dir.turns && TurnOf(dropped) !in s.dir.files
    ensures var c := Spelled(TakeTurn(node, dropped, nanos));
            match After(s, [TakeTurn(node, dropped, nanos), Rename(c)])
            case None => false
            case Some(t) =>
              && t.dir.files == Moved(s.dir.files, dropped, c)
              && t.owners == s.owners[c := Owner(node, s.dir.files[dropped].artifact)]
  {
    hide MayArrive, ClaimOf, SenderOf, Spelled, After;
    TwoAfter(s, TakeTurn(node, dropped, nanos), Rename(Spelled(TakeTurn(node, dropped, nanos))));
  }

  lemma AfterJoined(s: State, one: seq<Step>, other: seq<Step>)
    requires After(s, one).Some?
    ensures After(s, one + other) == After(After(s, one).value, other)
    decreases |one|
  {
    hide Enabled, Apply;
    if one == [] {
      assert one + other == other;
    } else {
      assert (one + other)[1..] == one[1..] + other;
      AfterJoined(Apply(s, one[0]), one[1..], other);
    }
  }

  /** Where a recovery lists what its node owns, and the artifact's name and turn
      are free, its return and any other node's claim make a second owner of it. */
  lemma ListingAnOwnerMakesTwo(s: State, node: string, c: string, other: string, nanos: nat)
    requires Conserved(s) && OwnersLie(s) && Readable(node) && Readable(other)
    requires c in s.owners && s.owners[c].node == node && node !in s.recovering
    requires DroppedName(c) != "" && DroppedName(c) !in s.dir.files && TurnOf(DroppedName(c)) !in s.dir.files
    requires TurnOf(DroppedName(c)) !in s.dir.turns
    requires Spelled(TakeTurn(other, DroppedName(c), nanos)) !in s.minted
    ensures var c' := Spelled(TakeTurn(other, DroppedName(c), nanos));
            match After(s, [RecoverList(node), RecoverReturn(node, c, true)] + [TakeTurn(other, DroppedName(c), nanos), Rename(c')])
            case None => false
            case Some(t) =>
              c != c' && c in t.owners && c' in t.owners && t.owners[c].artifact == t.owners[c'].artifact
  {
    hide MayArrive, ClaimOf, SenderOf, Spelled, After, Accounted, AttemptsSpelt, SendsSpelt, SendsSpared, RecoveriesSpelt, Moved, TurnOf;
    Relisted(s, node);
    var listed := Apply(s, RecoverList(node));
    TwoAfter(s, RecoverList(node), RecoverReturn(node, c, true));
    var back := Apply(listed, RecoverReturn(node, c, true));
    BackAgain(s, listed, node, c);
    TurnIsAnother(DroppedName(c));
    Uncontended(back, other, DroppedName(c), nanos);
    AfterJoined(s, [RecoverList(node), RecoverReturn(node, c, true)],
                [TakeTurn(other, DroppedName(c), nanos), Rename(Spelled(TakeTurn(other, DroppedName(c), nanos)))]);
  }

  /** Where a node's claim is under way as it recovers, its turn dropped and any
      other node's claim make a second claim of the name. */
  lemma RecoveringAClaimMakesTwo(s: State, c: string, other: string, nanos: nat)
    requires c in s.attempts && s.attempts[c].node in s.recovering && c in s.minted
    requires var turn := TurnOf(s.attempts[c].dropped);
             turn in s.dir.turns && s.dir.turns[turn] == s.attempts[c].node && turn !in s.dir.files
    requires Enabled(s, TakeTurn(other, s.attempts[c].dropped, nanos))
    ensures var d := s.attempts[c].dropped;
            var c' := Spelled(TakeTurn(other, d, nanos));
            match After(s, [RecoverTurn(s.attempts[c].node, TurnOf(d)), TakeTurn(other, d, nanos)])
            case None => false
            case Some(t) => c != c' && c in t.attempts && c' in t.attempts && t.attempts[c].dropped == t.attempts[c'].dropped == d
  {
    hide MayArrive, ClaimOf, SenderOf, Spelled, After, TurnOf;
    TwoAfter(s, RecoverTurn(s.attempts[c].node, TurnOf(s.attempts[c].dropped)), TakeTurn(other, s.attempts[c].dropped, nanos));
  }

  lemma TurnIsAnother(d: string)
    ensures TurnOf(d) != d
  {
    assert |TurnOf(d)| > |d|;
  }

  lemma BackAgain(s: State, listed: State, node: string, c: string)
    requires Enabled(s, RecoverList(node)) && listed == Apply(s, RecoverList(node))
    requires c in s.dir.files && ClaimedBy(c, node) && DroppedName(c) !in s.dir.files
    ensures var d := DroppedName(c);
            && Enabled(listed, RecoverReturn(node, c, true))
            && var back := Apply(listed, RecoverReturn(node, c, true));
            && back.dir.turns == s.dir.turns && back.owners == s.owners && back.minted == s.minted
            && back.recovering.Keys == s.recovering.Keys + {node}
            && d in back.dir.files && back.dir.files[d] == s.dir.files[c]
            && back.dir.files.Keys == s.dir.files.Keys - {c} + {d}
  {
    hide MayArrive, ClaimOf, SenderOf;
  }

  lemma {:induction false} AfterConserves(s: State, steps: seq<Step>)
    requires Conserved(s)
    ensures After(s, steps).Some? ==> Conserved(After(s, steps).value)
    decreases |steps|
  {
    hide Conserved, Apply, Enabled;
    if steps != [] && Enabled(s, steps[0]) {
      StepConserved(s, steps[0]);
      AfterConserves(Apply(s, steps[0]), steps[1..]);
    }
  }

  lemma OneLetterArrives()
    ensures MayArrive("o")
  {}

  /** A claim made, its recovery never completed: the node owns what it won. */
  lemma WonUnrecovered(c: string) returns (s: State)
    requires c == Spelled(TakeTurn("a", "o", 0))
    ensures After(INIT, [Produce("o", File(0, 0))] + ([TakeTurn("a", "o", 0), Rename(c)] + [EndClaim(c, false, true)])) == Some(s)
    ensures s.owners == map[c := Owner("a", 0)] && s.recovering == map[] && s.minted == {c}
    ensures s.attempts == map[] && s.held == {} && s.returning == {}
    ensures s.dir.files == map[c := File(0, 0)] && s.dir.turns == map[]
  {
    hide MayArrive, ClaimOf, SenderOf, Spelled, After;
    OneLetterArrives();
    TurnIsAnother("o");
    var s1 := Apply(INIT, Produce("o", File(0, 0)));
    var s2 := Apply(s1, TakeTurn("a", "o", 0));
    var s3 := Apply(s2, Rename(c));
    s := Apply(s3, EndClaim(c, false, true));
    AfterOne(INIT, Produce("o", File(0, 0)), [TakeTurn("a", "o", 0), Rename(c)] + [EndClaim(c, false, true)]);
    TwoAfter(s1, TakeTurn("a", "o", 0), Rename(c));
    AfterJoined(s1, [TakeTurn("a", "o", 0), Rename(c)], [EndClaim(c, false, true)]);
    AfterOne(s3, EndClaim(c, false, true), []);
    assert [EndClaim(c, false, true)] + [] == [EndClaim(c, false, true)];
    assert After(s, []) == Some(s) by { AfterNone(s); }
  }

  lemma AfterNone(s: State)
    ensures After(s, []) == Some(s)
  {}

  ghost predicate TwoOwners(t: Option<State>, c: string, c': string) {
    && t.Some? && c != c' && c in t.value.owners && c' in t.value.owners
    && t.value.owners[c].artifact == t.value.owners[c'].artifact
  }

  /** A run at whose end one artifact has two owners: a recovery listed what its
      node owned, as the one that follows a failed recovery and a claim does. */
  lemma TwoOwnersExist()
    ensures exists steps, c, c' :: TwoOwners(After(INIT, steps), c, c')
  {
    hide MayArrive, ClaimOf, SenderOf, Spelled, After, Apply, Enabled, Conserved;
    var c, c' := Spelled(TakeTurn("a", "o", 0)), Spelled(TakeTurn("b", "o", 0));
    var won := [Produce("o", File(0, 0))] + ([TakeTurn("a", "o", 0), Rename(c)] + [EndClaim(c, false, true)]);
    var s := WonUnrecovered(c);
    InitConserved();
    AfterConserves(INIT, won);
    ClaimSpells("a", "o", 0);
    ClaimSpells("b", "o", 0);
    TurnIsAnother("o");
    OneLetterArrives();
    ReservedNeverArrives("o");
    TurnIsNoClaim(c);
    ListingAnOwnerMakesTwo(s, "a", c, "b", 0);
    var lost := [RecoverList("a"), RecoverReturn("a", c, true)] + [TakeTurn("b", "o", 0), Rename(c')];
    AfterJoined(INIT, won, lost);
    assert TwoOwners(After(INIT, won + lost), c, c');
  }

  ghost predicate TwoClaims(t: Option<State>, c: string, c': string) {
    && t.Some? && c != c' && c in t.value.attempts && c' in t.value.attempts
    && t.value.attempts[c].dropped == t.value.attempts[c'].dropped
  }

  /** A run at whose end two claims of one name are under way: a node claimed while
      it recovered, its recovery dropped the turn, and another node took it. */
  lemma TwoClaimsExist()
    ensures exists steps, c, c' :: TwoClaims(After(INIT, steps), c, c')
  {
    hide MayArrive, ClaimOf, SenderOf, Spelled, After;
    var c, c' := Spelled(TakeTurn("a", "o", 0)), Spelled(TakeTurn("b", "o", 0));
    ClaimSpells("a", "o", 0);
    ClaimSpells("b", "o", 0);
    OneLetterArrives();
    TurnIsAnother("o");
    var claiming := [Produce("o", File(0, 0)), RecoverList("a"), TakeTurn("a", "o", 0)];
    ThreeAfter(INIT, Produce("o", File(0, 0)), RecoverList("a"), TakeTurn("a", "o", 0));
    var s := After(INIT, claiming).value;
    RecoveringAClaimMakesTwo(s, c, "b", 0);
    var meeting := [RecoverTurn("a", TurnOf("o")), TakeTurn("b", "o", 0)];
    AfterJoined(INIT, claiming, meeting);
    assert TwoClaims(After(INIT, claiming + meeting), c, c');
  }

  /** A node that starts recovers, claims, and owns what it won: there are such runs. */
  lemma StartingOwnerExists()
    ensures var c := Spelled(TakeTurn("a", "o", 0));
            match After(INIT, [RecoverList("a"), RecoverSift("a"), RecoverEnd("a")])
            case None => false
            case Some(s) =>
              && Starting(INIT, RecoverList("a")) && Alone(s, TakeTurn("a", "o", 0))
              && match After(s, [Produce("o", File(0, 0)), TakeTurn("a", "o", 0), Rename(c)])
                 case None => false
                 case Some(t) => t.owners == map[c := Owner("a", 0)]
  {
    hide MayArrive, ClaimOf, SenderOf, Spelled, After;
    RecoveredEmpty();
    OneLetterArrives();
    TurnIsAnother("o");
    ThreeAfter(INIT, Produce("o", File(0, 0)), TakeTurn("a", "o", 0), Rename(Spelled(TakeTurn("a", "o", 0))));
  }

  /** A node's recovery of an empty location. */
  lemma RecoveredEmpty()
    ensures After(INIT, [RecoverList("a"), RecoverSift("a"), RecoverEnd("a")]) == Some(INIT)
  {
    hide MayArrive, ClaimOf, SenderOf, After;
    ThreeAfter(INIT, RecoverList("a"), RecoverSift("a"), RecoverEnd("a"));
    var s := Apply(Apply(Apply(INIT, RecoverList("a")), RecoverSift("a")), RecoverEnd("a"));
    assert s.recovering == map[] && s.returning == {} && s.removing == {};
  }

  lemma InitConserved()
    ensures Conserved(INIT)
  {}

  lemma TurnIsNoClaim(c: string)
    requires ClaimOf(c).Some? && DroppedName(c) == "o"
    ensures TurnOf("o") != c
  {
    assert |TurnOf("o")| == |TURN| + 1;
  }
}
