/**
 Ownership of an artifact, as every run keeps it, whatever its recoveries list
 and whenever.
 */
module ClaimOwners {

  import opened Names
  import opened ClaimProtocol
  import opened ClaimConservation

  /** Ownership begins with the rename, and with nothing else. */
  ghost predicate RenamesOwn(s: State) {
    forall c | c in s.attempts ::
      if s.attempts[c].renamed then c in s.owners && s.owners[c].node == s.attempts[c].node
      else c !in s.owners
  }

  /** Nothing lies under an owner's name but what its rename won. */
  ghost predicate LiesAsWon(s: State) {
    forall c | c in s.owners && c in s.dir.files :: s.dir.files[c].artifact == s.owners[c].artifact
  }

  lemma StepKeepsRenamesOwn(s: State, step: Step)
    requires Conserved(s) && RenamesOwn(s) && Enabled(s, step)
    ensures RenamesOwn(Apply(s, step))
  {
    hide MayArrive, ClaimOf, SenderOf, Conserved, RenamesOwn, Apply, Enabled;
    if step.TakeTurn? || step.Rename? || step.EndClaim? || step.Crash? {
      ClaimKeepsRenamesOwn(s, step);
    } else {
      VerdictKeepsRenamesOwn(s, step);
    }
  }

  lemma ClaimKeepsRenamesOwn(s: State, step: Step)
    requires Conserved(s) && RenamesOwn(s) && Enabled(s, step)
    requires step.TakeTurn? || step.Rename? || step.EndClaim? || step.Crash?
    ensures RenamesOwn(Apply(s, step))
  {
    hide MayArrive, ClaimOf, SenderOf, Spelled, Accounted, Named, SendsSpelt, RecoveriesSpelt, SendsSpared;
  }

  lemma VerdictKeepsRenamesOwn(s: State, step: Step)
    requires RenamesOwn(s) && Enabled(s, step)
    requires !step.TakeTurn? && !step.Rename? && !step.EndClaim? && !step.Crash?
    ensures RenamesOwn(Apply(s, step))
  {
    hide MayArrive, ClaimOf, SenderOf, RenamesOwn, Apply, Enabled;
    if step.Accept? || step.GiveBack? {
      ToldKeepsRenamesOwn(s, step);
    } else if step.Settle? || step.RecoverReturn? || step.RecoverList? || step.RecoverSift? || step.RecoverTurn? || step.RecoverEnd? {
      OwnsAsBefore(s, step);
    } else {
      OwnsAsWritten(s, step);
    }
  }

  /** A verdict is of no claim still under way. */
  lemma ToldKeepsRenamesOwn(s: State, step: Step)
    requires RenamesOwn(s) && Enabled(s, step) && (step.Accept? || step.GiveBack?)
    ensures RenamesOwn(Apply(s, step))
  {
    hide MayArrive, ClaimOf, SenderOf, Departed;
  }

  lemma OwnsAsBefore(s: State, step: Step)
    requires RenamesOwn(s) && Enabled(s, step)
    requires step.Settle? || step.RecoverReturn? || step.RecoverList? || step.RecoverSift? || step.RecoverTurn? || step.RecoverEnd?
    ensures RenamesOwn(Apply(s, step))
  {
    hide MayArrive, ClaimOf, SenderOf;
  }

  lemma OwnsAsWritten(s: State, step: Step)
    requires RenamesOwn(s) && Enabled(s, step)
    requires step.Produce? || step.SendBegin? || step.SendWrite? || step.SendPlace? || step.SendEnd? || step.RecoverRemove?
    ensures RenamesOwn(Apply(s, step))
  {
    hide MayArrive, ClaimOf, SenderOf, Spelled, Departed;
  }

  lemma StepKeepsLiesAsWon(s: State, step: Step)
    requires Conserved(s) && LiesAsWon(s) && Enabled(s, step)
    ensures LiesAsWon(Apply(s, step))
  {
    hide MayArrive, ClaimOf, SenderOf, Conserved, LiesAsWon, Apply, Enabled;
    if step.Settle? || step.GiveBack? || step.RecoverReturn? {
      ReturnKeepsLiesAsWon(s, step);
    } else if step.Produce? || step.SendBegin? || step.SendWrite? || step.SendPlace? || step.SendEnd? || step.RecoverRemove? {
      WriteKeepsLiesAsWon(s, step);
    } else {
      ClaimKeepsLiesAsWon(s, step);
    }
  }

  lemma ClaimKeepsLiesAsWon(s: State, step: Step)
    requires Conserved(s) && LiesAsWon(s) && Enabled(s, step)
    requires || step.TakeTurn? || step.Rename? || step.EndClaim? || step.Accept? || step.Crash?
             || step.RecoverList? || step.RecoverSift? || step.RecoverTurn? || step.RecoverEnd?
    ensures LiesAsWon(Apply(s, step))
  {
    hide MayArrive, ClaimOf, SenderOf, Spelled, Accounted, SendsSpelt, RecoveriesSpelt, SendsSpared;
  }

  /** What a producer or a send writes lies under no claimed name. */
  lemma WriteKeepsLiesAsWon(s: State, step: Step)
    requires Conserved(s) && LiesAsWon(s) && Enabled(s, step)
    requires step.Produce? || step.SendBegin? || step.SendWrite? || step.SendPlace? || step.SendEnd? || step.RecoverRemove?
    ensures LiesAsWon(Apply(s, step))
  {
    hide MayArrive, ClaimOf, SenderOf, Spelled, Accounted, AttemptsSpelt, RecoveriesSpelt, SendsSpared;
  }

  /** What goes back goes to a name no claim is. */
  lemma ReturnKeepsLiesAsWon(s: State, step: Step)
    requires Conserved(s) && LiesAsWon(s) && Enabled(s, step)
    requires step.Settle? || step.GiveBack? || step.RecoverReturn?
    ensures LiesAsWon(Apply(s, step))
  {
    hide MayArrive, ClaimOf, SenderOf, LiesAsWon, Conserved, Return;
    ReturnsToArrivals(s, step);
    match step
    case GiveBack(claimed, _) => ReturnLiesAsWon(s.(owners := Without(s.owners, claimed)), claimed);
    case Settle(claimed) => ReturnLiesAsWon(s.(held := s.held - {claimed}), claimed);
    case RecoverReturn(_, claimed, _) => ReturnLiesAsWon(s, claimed);
  }

  lemma ReturnsToArrivals(s: State, step: Step)
    requires Conserved(s) && LiesAsWon(s) && Enabled(s, step)
    requires step.Settle? || step.GiveBack? || step.RecoverReturn?
    ensures MayArrive(DroppedName(step.claimed)) && forall c | c in s.owners :: !MayArrive(c)
    ensures LiesAsWon(s.(owners := Without(s.owners, step.claimed)))
    ensures LiesAsWon(s.(held := s.held - {step.claimed})) && LiesAsWon(s.(held := s.held + {step.claimed}))
    ensures LiesAsWon(s.(owners := Without(s.owners, step.claimed), held := s.held + {step.claimed}))
  {
    hide MayArrive, ClaimOf, SenderOf, Accounted, AttemptsSpelt, SendsSpelt, SendsSpared;
  }

  lemma ReturnLiesAsWon(s: State, claimed: string)
    requires LiesAsWon(s) && MayArrive(DroppedName(claimed)) && forall c | c in s.owners :: !MayArrive(c)
    ensures LiesAsWon(Return(s, claimed))
  {
    hide MayArrive, ClaimOf, DroppedName;
  }
}
