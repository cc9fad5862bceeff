/**
 One winner per artifact: what every run keeps in which a node's recovery lists
 a location only where the node owns nothing there, as a node starting does.
 */
module ClaimWinner {

  import opened Names
  import opened ClaimProtocol
  import opened ClaimConservation
  import opened ClaimOwners

  /** A recovery lists only where its node owns nothing. */
  predicate Starting(s: State, step: Step) {
    step.RecoverList? ==> forall c | c in s.owners :: s.owners[c].node != step.node
  }

  /** A recovery and a claim of one node are never under way at once. */
  predicate Alone(s: State, step: Step) {
    && (step.RecoverList? ==> forall c | c in s.attempts :: s.attempts[c].node != step.node)
    && (step.TakeTurn? ==> step.node !in s.recovering)
  }

  /** What an owner owns lies under the name it was handed. */
  ghost predicate OwnersLie(s: State) {
    forall c | c in s.owners :: c in s.dir.files && s.dir.files[c].artifact == s.owners[c].artifact
  }

  /** What waits to go back is nobody's claim or cycle. */
  ghost predicate ReturnsFree(s: State) {
    && (forall c | c in s.held :: c !in s.owners && c !in s.attempts)
    && (forall c | c in s.returning :: c !in s.owners && c !in s.attempts)
  }

  ghost predicate Winner(s: State) {
    OwnersLie(s) && ReturnsFree(s)
  }

  /** Each claim under way holds its artifact's turn, which no recovery is to drop. */
  ghost predicate TurnsHeld(s: State) {
    && (forall c | c in s.attempts ::
          && s.attempts[c].node !in s.recovering
          && var turn := TurnOf(s.attempts[c].dropped);
          turn in s.dir.turns && s.dir.turns[turn] == s.attempts[c].node)
    && (forall c, c' | c in s.attempts && c' in s.attempts ::
          s.attempts[c].dropped == s.attempts[c'].dropped ==> c == c')
  }

  lemma TurnInjective(d: string, d': string)
    requires TurnOf(d) == TurnOf(d')
    ensures d == d'
  {
    assert TurnOf(d)[..|d|] == d && TurnOf(d')[..|d'|] == d';
  }

  // ------------------------------------------------------ step by step

  /** A step that leaves every claim and cycle, and the files they lie in, alone. */
  lemma UntouchedKeeps(s: State, s': State)
    requires Winner(s)
    requires s'.attempts == s.attempts && s'.owners == s.owners && s'.held == s.held
    requires s'.returning == s.returning
    requires forall c | c in s.owners :: c in s.dir.files && c in s'.dir.files && s'.dir.files[c] == s.dir.files[c]
    ensures Winner(s')
  {}

  predicate Untouching(step: Step) {
    || step.Produce? || step.RecoverSift? || step.RecoverRemove? || step.SendBegin?
    || step.SendWrite? || step.SendPlace? || step.SendEnd? || step.RecoverTurn?
  }

  lemma UntouchingKeeps(s: State, step: Step)
    requires Conserved(s) && Winner(s) && Enabled(s, step) && Untouching(step)
    ensures Winner(Apply(s, step))
  {
    hide MayArrive, ClaimOf, SenderOf, Conserved, OwnersLie, ReturnsFree;
    var s' := Apply(s, step);
    forall c | c in s.owners ensures c in s.dir.files && c in s'.dir.files && s'.dir.files[c] == s.dir.files[c] {
      OwnersFileStays(s, step, c);
    }
    UntouchedKeeps(s, s');
  }

  lemma OwnersFileStays(s: State, step: Step, c: string)
    requires Conserved(s) && OwnersLie(s) && Enabled(s, step) && Untouching(step) && c in s.owners
    ensures c in s.dir.files && c in Apply(s, step).dir.files && Apply(s, step).dir.files[c] == s.dir.files[c]
  {
    hide MayArrive, ClaimOf, SenderOf;
    if step.RecoverRemove? || step.SendPlace? || step.SendEnd? {
      hide Apply, Enabled, Conserved, OwnersLie;
      RemovedIsNoOwners(s, step, c);
    } else {
      hide Apply, Enabled, Conserved, OwnersLie;
      WrittenIsNoOwners(s, step, c);
    }
  }

  /** What is written is no owner's file. */
  lemma WrittenIsNoOwners(s: State, step: Step, c: string)
    requires Conserved(s) && OwnersLie(s) && Enabled(s, step) && Untouching(step) && c in s.owners
    requires !step.RecoverRemove? && !step.SendPlace? && !step.SendEnd?
    ensures c in s.dir.files && c in Apply(s, step).dir.files && Apply(s, step).dir.files[c] == s.dir.files[c]
  {
    hide MayArrive, ClaimOf, SenderOf, Spelled, Accounted, AttemptsSpelt, RecoveriesSpelt, SendsSpared;
  }

  /** What a send's end or a recovery removes or moves is no owner's file. */
  lemma RemovedIsNoOwners(s: State, step: Step, c: string)
    requires Conserved(s) && OwnersLie(s) && Enabled(s, step) && c in s.owners
    requires step.RecoverRemove? || step.SendPlace? || step.SendEnd?
    ensures c in s.dir.files && c in Apply(s, step).dir.files && Apply(s, step).dir.files[c] == s.dir.files[c]
  {
    hide MayArrive, ClaimOf, SenderOf, Accounted, AttemptsSpelt, SendsSpared;
    if step.RecoverRemove? { assert SentOnly(step.name); }
  }

  lemma TakeTurnKeeps(s: State, node: string, dropped: string, nanos: nat)
    requires Conserved(s) && Winner(s) && Enabled(s, TakeTurn(node, dropped, nanos))
    ensures Winner(Apply(s, TakeTurn(node, dropped, nanos)))
  {
    hide MayArrive, ClaimOf, SenderOf, Spelled, Accounted, SendsSpelt, SendsSpared;
  }

  /** Whichever rename succeeding owns what it moved. */
  lemma RenameOwnersLie(s: State, claimed: string)
    requires Conserved(s) && Winner(s) && Enabled(s, Rename(claimed))
    ensures OwnersLie(Apply(s, Rename(claimed)))
  {
    hide MayArrive, ClaimOf, SenderOf, Accounted, SendsSpelt, RecoveriesSpelt, SendsSpared, ReturnsFree;
  }

  lemma RenameKeeps(s: State, claimed: string)
    requires Conserved(s) && Winner(s) && Enabled(s, Rename(claimed))
    ensures Winner(Apply(s, Rename(claimed)))
  {
    hide MayArrive, ClaimOf, SenderOf, Conserved, OwnersLie;
    RenameOwnersLie(s, claimed);
  }

  lemma EndClaimKeeps(s: State, claimed: string, turnLeft: bool, handed: bool)
    requires Conserved(s) && Winner(s) && Enabled(s, EndClaim(claimed, turnLeft, handed))
    ensures Winner(Apply(s, EndClaim(claimed, turnLeft, handed)))
  {
    hide MayArrive, ClaimOf, SenderOf, Conserved, TurnOf;
  }

  lemma AcceptKeeps(s: State, claimed: string, deleted: bool)
    requires Conserved(s) && Winner(s) && Enabled(s, Accept(claimed, deleted))
    ensures Winner(Apply(s, Accept(claimed, deleted)))
  {
    hide MayArrive, ClaimOf, SenderOf, Conserved;
  }

  /** A return moves what nobody owns, to a name nobody owns. */
  lemma ReturnKeeps(s: State, claimed: string)
    requires Conserved(s) && Winner(s)
    requires ClaimSpelled(s, claimed) && claimed !in s.owners && claimed !in s.attempts
    ensures Winner(Return(s, claimed))
  {
    hide MayArrive, ClaimOf, SenderOf, Accounted, AttemptsSpelt, SendsSpelt, RecoveriesSpelt, SendsSpared;
  }

  lemma DisownKeeps(s: State, claimed: string)
    requires Winner(s) && claimed !in s.attempts
    ensures Winner(s.(owners := Without(s.owners, claimed)))
  {}

  lemma DisownConserves(s: State, claimed: string)
    requires Conserved(s)
    ensures Conserved(s.(owners := Without(s.owners, claimed)))
  {
    hide MayArrive, ClaimOf, SenderOf, Accounted;
  }

  lemma GiveBackKeeps(s: State, claimed: string, asked: bool)
    requires Conserved(s) && Winner(s) && Enabled(s, GiveBack(claimed, asked))
    ensures Winner(Apply(s, GiveBack(claimed, asked)))
  {
    hide MayArrive, ClaimOf, SenderOf, Accounted, Named, AttemptsSpelt, SendsSpelt, RecoveriesSpelt, SendsSpared;
    var told := s.(owners := Without(s.owners, claimed));
    DisownKeeps(s, claimed);
    DisownConserves(s, claimed);
    if asked { ReturnKeeps(told, claimed); }
  }

  lemma SettleKeeps(s: State, claimed: string)
    requires Conserved(s) && Winner(s) && Enabled(s, Settle(claimed))
    ensures Winner(Apply(s, Settle(claimed)))
  {
    hide MayArrive, ClaimOf, SenderOf, Accounted;
    ReturnKeeps(s.(held := s.held - {claimed}), claimed);
  }

  lemma CrashKeeps(s: State, node: string)
    requires Conserved(s) && Winner(s)
    ensures Winner(Apply(s, Crash(node)))
  {
    hide MayArrive, ClaimOf, SenderOf, Conserved;
  }

  /** What a node that owns nothing finds claimed as itself is nobody's. */
  lemma RecoverListKeeps(s: State, node: string)
    requires Conserved(s) && RenamesOwn(s) && Winner(s) && Enabled(s, RecoverList(node)) && Starting(s, RecoverList(node))
    ensures Winner(Apply(s, RecoverList(node)))
  {
    hide MayArrive, ClaimOf, SenderOf, Accounted, Named, SendsSpelt, RecoveriesSpelt, SendsSpared;
  }

  lemma RecoverEndKeeps(s: State, node: string)
    requires Winner(s) && Enabled(s, RecoverEnd(node))
    ensures Winner(Apply(s, RecoverEnd(node)))
  {
    hide MayArrive, ClaimOf, SenderOf;
  }

  lemma RecoverReturnKeeps(s: State, node: string, claimed: string, asked: bool)
    requires Conserved(s) && Winner(s) && Enabled(s, RecoverReturn(node, claimed, asked))
    ensures Winner(Apply(s, RecoverReturn(node, claimed, asked)))
  {
    hide MayArrive, ClaimOf, SenderOf, Accounted;
    if asked { ReturnKeeps(s, claimed); }
  }

  /** Every step of every party keeps it, while a recovery lists only where its node owns nothing. */
  lemma StepKeepsWinner(s: State, step: Step)
    requires Conserved(s) && RenamesOwn(s) && Winner(s) && Enabled(s, step) && Starting(s, step)
    ensures Winner(Apply(s, step))
  {
    hide Conserved, RenamesOwn, Winner, Apply, Enabled;
    match step
    case TakeTurn(node, dropped, nanos) => TakeTurnKeeps(s, node, dropped, nanos);
    case Rename(claimed) => RenameKeeps(s, claimed);
    case EndClaim(claimed, turnLeft, handed) => EndClaimKeeps(s, claimed, turnLeft, handed);
    case Accept(claimed, deleted) => AcceptKeeps(s, claimed, deleted);
    case GiveBack(claimed, asked) => GiveBackKeeps(s, claimed, asked);
    case Settle(claimed) => SettleKeeps(s, claimed);
    case Crash(node) => CrashKeeps(s, node);
    case RecoverList(node) => RecoverListKeeps(s, node);
    case RecoverReturn(node, claimed, asked) => RecoverReturnKeeps(s, node, claimed, asked);
    case RecoverEnd(node) => RecoverEndKeeps(s, node);
    case _ => UntouchingKeeps(s, step);
  }

  // --------------------------------------------------------------- the turns

  /** A turn in use is dropped by the claim that took it, and by no other. */
  lemma EndClaimKeepsTurns(s: State, claimed: string, turnLeft: bool, handed: bool)
    requires TurnsHeld(s) && Enabled(s, EndClaim(claimed, turnLeft, handed))
    ensures TurnsHeld(Apply(s, EndClaim(claimed, turnLeft, handed)))
  {
    hide MayArrive, ClaimOf, SenderOf, TurnOf;
    var d := s.attempts[claimed].dropped;
    forall c | c in s.attempts && TurnOf(s.attempts[c].dropped) == TurnOf(d) ensures c == claimed {
      TurnInjective(s.attempts[c].dropped, d);
    }
  }

  lemma TakeTurnKeepsTurns(s: State, node: string, dropped: string, nanos: nat)
    requires TurnsHeld(s) && Enabled(s, TakeTurn(node, dropped, nanos)) && node !in s.recovering
    ensures TurnsHeld(Apply(s, TakeTurn(node, dropped, nanos)))
  {
    hide MayArrive, ClaimOf, SenderOf, Spelled, TurnOf;
  }

  lemma StepKeepsTurns(s: State, step: Step)
    requires TurnsHeld(s) && Enabled(s, step) && Alone(s, step)
    ensures TurnsHeld(Apply(s, step))
  {
    hide TurnsHeld, Alone, Enabled, Apply;
    match step
    case TakeTurn(node, dropped, nanos) =>
      AloneClaims(s, step);
      TakeTurnKeepsTurns(s, node, dropped, nanos);
    case EndClaim(claimed, turnLeft, handed) => EndClaimKeepsTurns(s, claimed, turnLeft, handed);
    case Rename(claimed) => RenameKeepsTurns(s, claimed);
    case RecoverTurn(node, turn) => RecoverTurnKeepsTurns(s, node, turn);
    case Crash(node) => CrashKeepsTurns(s, node);
    case RecoverList(node) => RecoverListKeepsTurns(s, node);
    case _ => OtherKeepsTurns(s, step);
  }

  /** And no step else keeps it, but a turn's taking that is not won. */
  lemma TurnsKeptExactly(s: State, step: Step)
    requires TurnsHeld(s) && Enabled(s, step)
    ensures TurnsHeld(Apply(s, step)) <==>
            Alone(s, step) || (step.TakeTurn? && (TurnOf(step.dropped) in s.dir.files || TurnOf(step.dropped) in s.dir.turns))
  {
    if Alone(s, step) {
      StepKeepsTurns(s, step);
    } else {
      hide MayArrive, ClaimOf, SenderOf, Spelled, TurnOf;
      var t := Apply(s, step);
      if step.TakeTurn? && t != s { assert t.attempts[Spelled(step)].node in t.recovering; }
      if step.RecoverList? {
        var c :| c in s.attempts && s.attempts[c].node == step.node;
        assert t.attempts[c].node in t.recovering;
      }
    }
  }

  lemma AloneClaims(s: State, step: Step)
    requires Alone(s, step) && step.TakeTurn?
    ensures step.node !in s.recovering
  {}

  lemma RenameKeepsTurns(s: State, claimed: string)
    requires TurnsHeld(s) && Enabled(s, Rename(claimed))
    ensures TurnsHeld(Apply(s, Rename(claimed)))
  {
    hide MayArrive, ClaimOf, SenderOf, TurnOf;
  }

  /** A recovery drops its own node's turns, none of them in use. */
  lemma RecoverTurnKeepsTurns(s: State, node: string, turn: string)
    requires TurnsHeld(s) && Enabled(s, RecoverTurn(node, turn))
    ensures TurnsHeld(Apply(s, RecoverTurn(node, turn)))
  {
    hide MayArrive, ClaimOf, SenderOf, TurnOf;
  }

  lemma CrashKeepsTurns(s: State, node: string)
    requires TurnsHeld(s)
    ensures TurnsHeld(Apply(s, Crash(node)))
  {
    hide MayArrive, ClaimOf, SenderOf, TurnOf;
  }

  lemma RecoverListKeepsTurns(s: State, node: string)
    requires TurnsHeld(s) && Enabled(s, RecoverList(node)) && Alone(s, RecoverList(node))
    ensures TurnsHeld(Apply(s, RecoverList(node)))
  {
    hide MayArrive, ClaimOf, SenderOf, TurnOf;
  }

  lemma OtherKeepsTurns(s: State, step: Step)
    requires TurnsHeld(s) && Enabled(s, step)
    requires !step.TakeTurn? && !step.EndClaim? && !step.Rename? && !step.RecoverTurn? && !step.Crash? && !step.RecoverList?
    ensures TurnsHeld(Apply(s, step))
  {
    hide MayArrive, ClaimOf, SenderOf, TurnOf, TurnsHeld, Apply, Enabled;
    if step.Accept? || step.GiveBack? || step.Settle? || step.RecoverReturn? || step.RecoverEnd? {
      VerdictLeavesTurns(s, step);
    } else {
      WriteLeavesTurns(s, step);
    }
    TurnsAsBefore(s, Apply(s, step));
  }

  lemma VerdictLeavesTurns(s: State, step: Step)
    requires Enabled(s, step) && (step.Accept? || step.GiveBack? || step.Settle? || step.RecoverReturn? || step.RecoverEnd?)
    ensures var s' := Apply(s, step);
            s'.attempts == s.attempts && s'.dir.turns == s.dir.turns && s'.recovering.Keys <= s.recovering.Keys
  {
    hide MayArrive, ClaimOf, SenderOf, Return, Departed;
    match step
    case GiveBack(c, _) => ReturnLeavesTurns(s.(owners := Without(s.owners, c)), c);
    case Settle(c) => ReturnLeavesTurns(s.(held := s.held - {c}), c);
    case RecoverReturn(_, c, _) => ReturnLeavesTurns(s, c);
    case _ =>
  }

  lemma ReturnLeavesTurns(s: State, c: string)
    ensures var t := Return(s, c);
            t.attempts == s.attempts && t.dir.turns == s.dir.turns && t.recovering == s.recovering
  {
    hide MayArrive, ClaimOf;
  }

  lemma WriteLeavesTurns(s: State, step: Step)
    requires Enabled(s, step) && (Untouching(step) && !step.RecoverTurn?)
    ensures var s' := Apply(s, step);
            s'.attempts == s.attempts && s'.dir.turns == s.dir.turns && s'.recovering.Keys <= s.recovering.Keys
  {
    hide MayArrive, ClaimOf, SenderOf, Spelled;
  }

  /** The same claims under way and the same turns, and no more recoveries. */
  lemma TurnsAsBefore(s: State, s': State)
    requires TurnsHeld(s) && s'.attempts == s.attempts && s'.dir.turns == s.dir.turns && s'.recovering.Keys <= s.recovering.Keys
    ensures TurnsHeld(s')
  {
    hide TurnOf;
  }
}
