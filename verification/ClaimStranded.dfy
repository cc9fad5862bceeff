/**
 A claimed artifact nobody will return: how it comes to lie so, and what alone
 ends it.
 */
module ClaimStranded {

  import opened Wrappers
  import opened Names
  import opened Directory
  import opened ClaimProtocol
  import opened ClaimConservation
  import opened ClaimOwners
  import opened ClaimRuns

  /** Claimed, and in nobody's claim, cycle, hold or recovery. */
  ghost predicate Stranded(s: State, c: string) {
    && ClaimSpelled(s, c) && c in s.dir.files
    && c !in s.owners && c !in s.attempts && c !in s.held && c !in s.returning
  }

  /** The recovery that finds what is claimed as `c`: its own node's. */
  predicate Finds(step: Step, c: string) {
    step.RecoverList? && ClaimedBy(c, step.node)
  }

  /** Stranded it stays, whoever claims, is told, crashes or recovers, but where
      its own node's recovery lists the location. */
  lemma StrandedUntilFound(s: State, step: Step, c: string)
    requires Conserved(s) && Enabled(s, step) && Stranded(s, c)
    ensures Stranded(Apply(s, step), c) <==> !Finds(step, c)
  {
    hide MayArrive, ClaimOf, SenderOf, Apply, Enabled, Conserved, Stranded;
    if step.Settle? || step.GiveBack? || step.RecoverReturn? {
      StrandedBesidesReturns(s, step, c);
    } else if step.RecoverRemove? || step.SendPlace? || step.SendEnd? {
      StrandedBesidesRemovals(s, step, c);
    } else {
      StrandedBesides(s, step, c);
    }
  }

  lemma StrandedBesides(s: State, step: Step, c: string)
    requires Conserved(s) && Enabled(s, step) && Stranded(s, c)
    requires !step.Settle? && !step.GiveBack? && !step.RecoverReturn?
    requires !step.RecoverRemove? && !step.SendPlace? && !step.SendEnd?
    ensures Stranded(Apply(s, step), c) <==> !Finds(step, c)
  {
    hide MayArrive, ClaimOf, SenderOf, Apply, Enabled, Conserved, Stranded;
    if step.RecoverList? || step.RecoverSift? || step.RecoverTurn? || step.RecoverEnd? || step.Crash? {
      StrandedBesidesRecoveries(s, step, c);
    } else {
      StrandedBesidesClaims(s, step, c);
    }
  }

  lemma StrandedBesidesRecoveries(s: State, step: Step, c: string)
    requires Conserved(s) && Enabled(s, step) && Stranded(s, c)
    requires step.RecoverList? || step.RecoverSift? || step.RecoverTurn? || step.RecoverEnd? || step.Crash?
    ensures Stranded(Apply(s, step), c) <==> !Finds(step, c)
  {
    hide MayArrive, ClaimOf, SenderOf, Accounted, AttemptsSpelt, SendsSpelt, RecoveriesSpelt, SendsSpared;
  }

  lemma StrandedBesidesClaims(s: State, step: Step, c: string)
    requires Conserved(s) && Enabled(s, step) && Stranded(s, c)
    requires step.Produce? || step.TakeTurn? || step.Rename? || step.EndClaim? || step.Accept? || step.SendBegin? || step.SendWrite?
    ensures Stranded(Apply(s, step), c)
  {
    hide MayArrive, ClaimOf, SenderOf, Accounted, RecoveriesSpelt, SendsSpared;
  }

  /** A return is of another claim, to a name no claim is. */
  lemma StrandedBesidesReturns(s: State, step: Step, c: string)
    requires Conserved(s) && Enabled(s, step) && Stranded(s, c)
    requires step.Settle? || step.GiveBack? || step.RecoverReturn?
    ensures Stranded(Apply(s, step), c)
  {
    hide MayArrive, ClaimOf, SenderOf, Stranded, Conserved, Return;
    match step
    case GiveBack(claimed, _) =>
      StrandedDisowned(s, claimed, c);
      OthersReturned(s.(owners := Without(s.owners, claimed)), claimed, c);
    case Settle(claimed) =>
      StrandedUnheld(s, claimed, c);
      OthersReturned(s.(held := s.held - {claimed}), claimed, c);
    case RecoverReturn(_, claimed, _) =>
      StrandedUnheld(s, claimed, c);
      OthersReturned(s, claimed, c);
  }

  lemma StrandedDisowned(s: State, claimed: string, c: string)
    requires Conserved(s) && Stranded(s, c) && claimed in s.owners
    ensures claimed != c && ClaimOf(claimed).Some? && MayArrive(DroppedName(claimed)) && !MayArrive(c)
    ensures Stranded(s.(owners := Without(s.owners, claimed)), c)
  {
    hide MayArrive, ClaimOf, SenderOf, Accounted, AttemptsSpelt, SendsSpelt, SendsSpared;
  }

  lemma StrandedUnheld(s: State, claimed: string, c: string)
    requires Conserved(s) && Stranded(s, c) && (claimed in s.held || claimed in s.returning)
    ensures claimed != c && ClaimOf(claimed).Some? && MayArrive(DroppedName(claimed)) && !MayArrive(c)
    ensures Stranded(s.(held := s.held - {claimed}), c) && Stranded(s.(held := s.held + {claimed}), c)
  {
    hide MayArrive, ClaimOf, SenderOf, Accounted, AttemptsSpelt, SendsSpelt, SendsSpared;
  }

  lemma OthersReturned(s: State, claimed: string, c: string)
    requires Stranded(s, c) && claimed != c && MayArrive(DroppedName(claimed)) && !MayArrive(c)
    ensures Stranded(Return(s, claimed), c) && Stranded(s.(held := s.held + {claimed}), c)
  {
    hide MayArrive, ClaimOf, DroppedName;
  }

  lemma StrandedBesidesRemovals(s: State, step: Step, c: string)
    requires Conserved(s) && Enabled(s, step) && Stranded(s, c)
    requires step.RecoverRemove? || step.SendPlace? || step.SendEnd?
    ensures Stranded(Apply(s, step), c)
  {
    hide MayArrive, ClaimOf, SenderOf, Accounted, AttemptsSpelt, HoldsSpelt, SendsSpared;
    if step.RecoverRemove? { assert SentOnly(step.name); }
  }

  /** An acceptance whose delete is refused strands what it accepted, whoever it was. */
  lemma RefusedDeleteStrands(s: State, c: string)
    requires Conserved(s) && Enabled(s, Accept(c, false))
    ensures Stranded(Apply(s, Accept(c, false)), c) <==> c in s.dir.files && c !in s.held && c !in s.returning
  {
    hide MayArrive, ClaimOf, SenderOf, Accounted, AttemptsSpelt, SendsSpelt, SendsSpared;
  }

  /** A claim that ends without handing over what its rename moved strands it. */
  lemma UnhandedStrands(s: State, c: string, turnLeft: bool)
    requires Conserved(s) && Enabled(s, EndClaim(c, turnLeft, false))
    ensures Stranded(Apply(s, EndClaim(c, turnLeft, false)), c) <==>
            c in s.dir.files && c !in s.held && c !in s.returning
  {
    hide MayArrive, ClaimOf, SenderOf, Accounted, SendsSpelt, SendsSpared;
  }

  /** In every run, what is once stranded lies so until its own node recovers. */
  lemma {:induction false} LiesUntilItsNodeRecovers(states: seq<State>, steps: seq<Step>, i: nat, j: nat, c: string)
    requires Run(states, steps) && i <= j < |states| && Stranded(states[i], c)
    requires forall k | i <= k < j :: !Finds(steps[k], c)
    ensures Stranded(states[j], c)
  {
    hide Apply, Enabled, Conserved, Stranded, Finds;
    if i < j {
      LiesUntilItsNodeRecovers(states, steps, i, j - 1, c);
      EveryRunConserves(states, steps, j - 1);
      StrandedUntilFound(states[j - 1], steps[j - 1], c);
    }
  }

  /** In every run nothing else strands an artifact: an acceptance whose delete is
      refused, a claim not handed over, its own node's crash, and its own node's
      recovery ending before it was returned. */
  lemma OnlyTheseStrand(states: seq<State>, steps: seq<Step>, i: nat, c: string)
    requires Run(states, steps) && i < |steps| && !Stranded(states[i], c) && Stranded(states[i + 1], c)
    ensures Strands(steps[i], c)
  {
    hide Conserved, RenamesOwn, LiesAsWon, Stranded, Strands, Apply, Enabled;
    EveryRunOwns(states, steps, i);
    StrandsOnly(states[i], steps[i], c);
  }

  predicate Strands(step: Step, c: string) {
    match step
    case Accept(claimed, deleted) => claimed == c && !deleted
    case EndClaim(claimed, _, handed) => claimed == c && !handed
    case Crash(node) => ClaimedBy(c, node)
    case RecoverEnd(node) => ClaimedBy(c, node)
    case _ => false
  }

  lemma StrandsOnly(s: State, step: Step, c: string)
    requires Conserved(s) && RenamesOwn(s) && Enabled(s, step) && !Stranded(s, c) && Stranded(Apply(s, step), c)
    ensures Strands(step, c)
  {
    ReservedNeverArrives(c);
    hide MayArrive, ClaimOf, SenderOf, Conserved, RenamesOwn, Stranded, Apply, Enabled;
    if step.Settle? || step.GiveBack? || step.RecoverReturn? {
      NoReturnStrands(s, step, c);
    } else if step.Accept? || step.EndClaim? || step.Crash? || step.RecoverEnd? {
      EndsStrand(s, step, c);
    } else {
      NoOtherStrands(s, step, c);
    }
  }

  lemma EndsStrand(s: State, step: Step, c: string)
    requires Conserved(s) && RenamesOwn(s) && Enabled(s, step) && !Stranded(s, c) && Stranded(Apply(s, step), c)
    requires step.Accept? || step.EndClaim? || step.Crash? || step.RecoverEnd?
    ensures Strands(step, c)
  {
    hide MayArrive, ClaimOf, SenderOf, Accounted, Named, SendsSpelt, RecoveriesSpelt, SendsSpared;
  }

  lemma NoOtherStrands(s: State, step: Step, c: string)
    requires Conserved(s) && Enabled(s, step) && (MayArrive(c) ==> ClaimOf(c).None?)
    requires !step.Settle? && !step.GiveBack? && !step.RecoverReturn?
    requires !step.Accept? && !step.EndClaim? && !step.Crash? && !step.RecoverEnd?
    ensures Stranded(Apply(s, step), c) ==> Stranded(s, c)
  {
    hide MayArrive, ClaimOf, SenderOf, Conserved, Apply, Enabled, Stranded;
    if step.TakeTurn? || step.Rename? || step.RecoverList? || step.RecoverSift? || step.RecoverTurn? || step.Produce? {
      NoClaimStrands(s, step, c);
    } else {
      NoSendStrands(s, step, c);
    }
  }

  lemma NoClaimStrands(s: State, step: Step, c: string)
    requires Conserved(s) && Enabled(s, step) && (MayArrive(c) ==> ClaimOf(c).None?)
    requires step.TakeTurn? || step.Rename? || step.RecoverList? || step.RecoverSift? || step.RecoverTurn? || step.Produce?
    ensures Stranded(Apply(s, step), c) ==> Stranded(s, c)
  {
    hide MayArrive, ClaimOf, SenderOf, Accounted, RecoveriesSpelt, SendsSpared;
  }

  lemma NoSendStrands(s: State, step: Step, c: string)
    requires Conserved(s) && Enabled(s, step) && (MayArrive(c) ==> ClaimOf(c).None?)
    requires step.SendBegin? || step.SendWrite? || step.SendPlace? || step.SendEnd? || step.RecoverRemove?
    ensures Stranded(Apply(s, step), c) ==> Stranded(s, c)
  {
    hide MayArrive, ClaimOf, SenderOf, Accounted, AttemptsSpelt, HoldsSpelt, RecoveriesSpelt, SendsSpared;
  }

  /** What a return does not move away from `c`, or hold, was stranded before. */
  lemma NoReturnStrands(s: State, step: Step, c: string)
    requires Conserved(s) && Enabled(s, step) && (step.Settle? || step.GiveBack? || step.RecoverReturn?)
    ensures Stranded(Apply(s, step), c) ==> Stranded(s, c)
  {
    hide MayArrive, ClaimOf, SenderOf, Conserved, Apply, Enabled, Stranded;
    if step.GiveBack? { NoGivingBackStrands(s, step, c); } else { NoSettlingStrands(s, step, c); }
  }

  lemma NoGivingBackStrands(s: State, step: Step, c: string)
    requires Conserved(s) && Enabled(s, step) && step.GiveBack?
    ensures Stranded(Apply(s, step), c) ==> Stranded(s, c)
  {
    hide MayArrive, ClaimOf, SenderOf, Accounted, AttemptsSpelt, SendsSpelt, RecoveriesSpelt, SendsSpared;
  }

  lemma NoSettlingStrands(s: State, step: Step, c: string)
    requires Conserved(s) && Enabled(s, step) && (step.Settle? || step.RecoverReturn?)
    ensures Stranded(Apply(s, step), c) ==> Stranded(s, c)
  {
    hide MayArrive, ClaimOf, SenderOf, Return;
    Returnable(s, step.claimed);
    match step
    case Settle(claimed) => ReturnStrandsNone(s.(held := s.held - {claimed}), claimed, c);
    case RecoverReturn(_, claimed, _) => ReturnStrandsNone(s, claimed, c);
  }

  lemma Returnable(s: State, claimed: string)
    requires Conserved(s)
    ensures claimed in s.held || claimed in s.returning ==>
              ClaimOf(claimed).Some? && MayArrive(DroppedName(claimed)) && !MayArrive(claimed)
    ensures forall m | m in s.minted :: !MayArrive(m)
  {
    hide MayArrive, ClaimOf, SenderOf, Accounted, AttemptsSpelt, SendsSpelt, SendsSpared;
  }

  /** Nothing is stranded by a return that was not before it: what was to go back is held or moved. */
  lemma ReturnStrandsNone(s: State, claimed: string, c: string)
    requires MayArrive(DroppedName(claimed)) && forall m | m in s.minted :: !MayArrive(m)
    ensures Stranded(Return(s, claimed), c) ==> Stranded(s, c) && c != claimed
    ensures Stranded(s.(held := s.held + {claimed}), c) ==> Stranded(s, c) && c != claimed
  {
    hide MayArrive, ClaimOf, DroppedName;
  }

  /** Where recoveries list only what their nodes do not own, each of the first two
      always strands what it is about, a claim where its rename was made. */
  lemma AlwaysStrands(states: seq<State>, steps: seq<Step>, i: nat, c: string)
    requires StartingRun(states, steps) && i < |steps|
    ensures steps[i] == Accept(c, false) ==> Stranded(states[i + 1], c)
    ensures steps[i].EndClaim? && steps[i].claimed == c && !steps[i].handed ==>
              (Stranded(states[i + 1], c) <==> states[i].attempts[c].renamed)
  {
    EveryStartingRunHasWinners(states, steps, i);
    EveryRunOwns(states, steps, i);
    hide StartingRun, MayArrive, ClaimOf, SenderOf, Accounted, SendsSpelt, SendsSpared, RecoveriesSpelt;
    if steps[i] == Accept(c, false) {
      RefusedDeleteStrands(states[i], c);
    } else if steps[i].EndClaim? && steps[i].claimed == c && !steps[i].handed {
      UnhandedStrands(states[i], c, steps[i].turnLeft);
    }
  }

  /** There are such runs: a claim won, accepted, and its delete refused; and a
      claim won whose turn could not be dropped. */
  lemma StrandedExist()
    ensures var c := Spelled(TakeTurn("a", "o", 0));
            var won := [Produce("o", File(0, 0))] + ([TakeTurn("a", "o", 0), Rename(c)] + [EndClaim(c, false, true)]);
            var accepted := After(INIT, won + [Accept(c, false)]);
            accepted.Some? && Stranded(accepted.value, c)
    ensures var c := Spelled(TakeTurn("a", "o", 0));
            var left := After(INIT, [Produce("o", File(0, 0))] + ([TakeTurn("a", "o", 0), Rename(c)] + [EndClaim(c, true, false)]));
            left.Some? && Stranded(left.value, c)
  {
    hide MayArrive, ClaimOf, SenderOf, Spelled, After, Conserved;
    var c := Spelled(TakeTurn("a", "o", 0));
    ClaimSpells("a", "o", 0);
    var s := WonUnrecovered(c);
    var won := [Produce("o", File(0, 0))] + ([TakeTurn("a", "o", 0), Rename(c)] + [EndClaim(c, false, true)]);
    AfterJoined(INIT, won, [Accept(c, false)]);
    OneAfter(s, Accept(c, false));
    WonTurnLeft(c);
  }

  lemma OneAfter(s: State, step: Step)
    requires Enabled(s, step)
    ensures After(s, [step]) == Some(Apply(s, step))
  {
    hide Enabled, Apply;
    assert [step] == [step] + [];
    AfterOne(s, step, []);
  }

  lemma WonTurnLeft(c: string)
    requires c == Spelled(TakeTurn("a", "o", 0)) && ClaimOf(c).Some?
    ensures var left := After(INIT, [Produce("o", File(0, 0))] + ([TakeTurn("a", "o", 0), Rename(c)] + [EndClaim(c, true, false)]));
            left.Some? && Stranded(left.value, c)
  {
    hide MayArrive, ClaimOf, SenderOf, Spelled, After;
    OneLetterArrives();
    TurnIsAnother("o");
    var s1 := Apply(INIT, Produce("o", File(0, 0)));
    var s3 := Apply(Apply(s1, TakeTurn("a", "o", 0)), Rename(c));
    AfterOne(INIT, Produce("o", File(0, 0)), [TakeTurn("a", "o", 0), Rename(c)] + [EndClaim(c, true, false)]);
    TwoAfter(s1, TakeTurn("a", "o", 0), Rename(c));
    AfterJoined(s1, [TakeTurn("a", "o", 0), Rename(c)], [EndClaim(c, true, false)]);
    OneAfter(s3, EndClaim(c, true, false));
  }
}
