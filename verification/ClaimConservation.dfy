/** What every step of every run keeps, whoever crashes and recovers when. */
module ClaimConservation {

  import opened Wrappers
  import opened Names
  import opened Nodes
  import opened Directory
  import opened ClaimProtocol

  /** Every artifact ever written lies under exactly one name, or is gone for
      one reason, and never both. */
  ghost predicate Accounted(files: map<string, File>, produced: set<nat>, gone: map<nat, Fate>) {
    && (forall n, m | n in files && m in files :: files[n].artifact == files[m].artifact ==> n == m)
    && (forall n | n in files :: files[n].artifact in produced && files[n].artifact !in gone)
    && (forall a | a in produced && a !in gone :: exists n :: n in files && files[n].artifact == a)
    && gone.Keys <= produced
  }

  /** A claimed name in use: spelled by a claim, of an artifact that may arrive. */
  predicate ClaimSpelled(s: State, name: string) {
    name in s.minted && ClaimOf(name).Some?
  }

  predicate SentOnly(name: string) { ClaimOf(name).None? && SenderOf(name).Some? }

  predicate InRecovery(s: State, n: string) {
    SenderOf(n).Some? && SenderOf(n).value in s.recovering && s.recovering[SenderOf(n).value]
  }

  /** Nothing lies under a reserved name but what a claim or a send put there. */
  ghost predicate Named(s: State) {
    && (forall n | n in s.dir.files :: MayArrive(n) || n in s.minted)
    && (forall m | m in s.minted :: !MayArrive(m))
    && (forall m | m in s.minted && ClaimOf(m).Some? :: MayArrive(DroppedName(m)))
  }

  ghost predicate AttemptsSpelt(s: State) {
    forall c | c in s.attempts ::
      && c in s.minted && ClaimOf(c) == Some(Claim(s.attempts[c].dropped, s.attempts[c].node))
      && (!s.attempts[c].renamed ==> c !in s.dir.files)
  }

  ghost predicate HoldsSpelt(s: State) {
    && (forall c | c in s.owners :: c in s.minted && ClaimedBy(c, s.owners[c].node))
    && (forall c | c in s.held :: ClaimSpelled(s, c))
  }

  ghost predicate SendsSpelt(s: State) {
    forall n | n in s.sending :: n in s.minted && SentOnly(n) && MayArrive(s.sending[n])
  }

  ghost predicate RecoveriesSpelt(s: State) {
    && (forall c | c in s.returning :: ClaimSpelled(s, c))
    && (forall n | n in s.removing :: n in s.minted && SentOnly(n))
  }

  /** What the nodes hold is held by the names they spelled. */
  ghost predicate Spelt(s: State) {
    AttemptsSpelt(s) && HoldsSpelt(s) && SendsSpelt(s) && RecoveriesSpelt(s)
  }

  /** A name in flight is none a recovery is to remove. */
  ghost predicate SendsSpared(s: State) {
    forall n | n in s.removing && InRecovery(s, n) :: n !in s.sending
  }

  ghost predicate Conserved(s: State) {
    && Accounted(s.dir.files, s.produced, s.gone)
    && Named(s)
    && Spelt(s)
    && SendsSpared(s)
  }

  // ------------------------------------------------------- the ledger's moves

  lemma MoveAccounted(files: map<string, File>, from: string, to: string, produced: set<nat>, gone: map<nat, Fate>)
    requires Accounted(files, produced, gone) && from in files && to !in files
    ensures Accounted(Moved(files, from, to), produced, gone)
  {
    var after := Moved(files, from, to);
    forall a | a in produced && a !in gone ensures exists n :: n in after && after[n].artifact == a {
      var n :| n in files && files[n].artifact == a;
      var m := if n == from then to else n;
      assert m in after && after[m].artifact == a;
    }
  }

  lemma RemoveAccounted(files: map<string, File>, name: string, fate: Fate, produced: set<nat>, gone: map<nat, Fate>)
    requires Accounted(files, produced, gone) && name in files
    ensures Accounted(files - {name}, produced, gone[files[name].artifact := fate])
  {
    var after, gone' := files - {name}, gone[files[name].artifact := fate];
    forall a | a in produced && a !in gone' ensures exists n :: n in after && after[n].artifact == a {
      var n :| n in files && files[n].artifact == a;
      assert n in after;
    }
  }

  lemma AddAccounted(files: map<string, File>, name: string, file: File, produced: set<nat>, gone: map<nat, Fate>)
    requires Accounted(files, produced, gone) && name !in files && file.artifact !in produced
    ensures Accounted(files[name := file], produced + {file.artifact}, gone)
  {
    var after := files[name := file];
    forall a | a in produced + {file.artifact} && a !in gone ensures exists n :: n in after && after[n].artifact == a {
      if a == file.artifact {
        assert name in after;
      } else {
        var n :| n in files && files[n].artifact == a;
        assert n in after;
      }
    }
  }

  lemma ProduceAccounted(s: State, name: string, file: File)
    requires Accounted(s.dir.files, s.produced, s.gone) && file.artifact !in s.produced
    ensures Accounted(s.dir.files[name := file], s.produced + {file.artifact}, Departed(s, name, Replaced))
  {
    var files := s.dir.files;
    if name in files {
      RemoveAccounted(files, name, Replaced, s.produced, s.gone);
      AddAccounted(files - {name}, name, file, s.produced, Departed(s, name, Replaced));
      assert files[name := file] == (files - {name})[name := file];
    } else {
      AddAccounted(files, name, file, s.produced, s.gone);
    }
  }

  lemma DeleteAccounted(s: State, name: string, fate: Fate)
    requires Accounted(s.dir.files, s.produced, s.gone)
    ensures Accounted(Deleted(s.dir, name).files, s.produced, Departed(s, name, fate))
  {
    if name in s.dir.files {
      RemoveAccounted(s.dir.files, name, fate, s.produced, s.gone);
    } else {
      assert s.dir.files - {name} == s.dir.files;
    }
  }

  lemma ReturnAccounted(s: State, claimed: string)
    requires Accounted(s.dir.files, s.produced, s.gone)
    ensures Accounted(Return(s, claimed).dir.files, s.produced, s.gone)
  {
    if DroppedName(claimed) !in s.dir.files && claimed in s.dir.files {
      MoveAccounted(s.dir.files, claimed, DroppedName(claimed), s.produced, s.gone);
    }
  }

  lemma PlaceAccounted(s: State, name: string, target: string)
    requires Accounted(s.dir.files, s.produced, s.gone) && name in s.dir.files && name != target
    ensures Accounted(Moved(s.dir.files, name, target), s.produced, Departed(s, target, Replaced))
  {
    var files := s.dir.files;
    if target in files {
      RemoveAccounted(files, target, Replaced, s.produced, s.gone);
      MoveAccounted(files - {target}, name, target, s.produced, Departed(s, target, Replaced));
      assert Moved(files, name, target) == Moved(files - {target}, name, target);
    } else {
      MoveAccounted(files, name, target, s.produced, s.gone);
    }
  }

  // ------------------------------------------------------------ the names

  /** What a claim spells anew reads back as the claim it is. */
  lemma ClaimSpells(node: string, dropped: string, nanos: nat)
    requires Readable(node) && dropped != ""
    ensures var name := Spelled(TakeTurn(node, dropped, nanos));
            ClaimOf(name) == Some(Claim(dropped, node)) && !MayArrive(name)
  {
    DecimalReadsBack(nanos);
    ClaimReadsBack(dropped, node, Decimal(nanos));
  }

  /** What a send spells anew reads back as its node's, and as nobody's claim. */
  lemma SendSpells(node: string, target: string, count: nat, nanos: nat)
    requires Readable(node) && target != ""
    ensures var name := Spelled(SendBegin(node, target, count, nanos));
            ClaimOf(name).None? && SenderOf(name) == Some(node) && !MayArrive(name)
  {
    DecimalReadsBack(count);
    DecimalReadsBack(nanos);
    SenderReadsBack(target, node, Decimal(count), Decimal(nanos));
    FamiliesApart(Spelled(SendBegin(node, target, count, nanos)));
  }

  // ------------------------------------------------------ step by step

  lemma ReturnConserves(s: State, claimed: string)
    requires Conserved(s) && ClaimSpelled(s, claimed)
    ensures Conserved(Return(s, claimed))
  {
    hide MayArrive, ClaimOf, SenderOf, Accounted;
    ReturnAccounted(s, claimed);
  }

  lemma DeleteConserves(s: State, name: string, fate: Fate)
    requires Conserved(s)
    ensures Conserved(s.(dir := Deleted(s.dir, name), gone := Departed(s, name, fate)))
  {
    hide MayArrive, ClaimOf, SenderOf, Accounted;
    DeleteAccounted(s, name, fate);
  }

  lemma ProduceConserves(s: State, name: string, file: File)
    requires Conserved(s) && Enabled(s, Produce(name, file))
    ensures Conserved(Apply(s, Produce(name, file)))
  {
    hide MayArrive, ClaimOf, SenderOf, Accounted;
    ProduceAccounted(s, name, file);
  }

  lemma TakeTurnConserves(s: State, node: string, dropped: string, nanos: nat)
    requires Conserved(s) && Enabled(s, TakeTurn(node, dropped, nanos))
    ensures Conserved(Apply(s, TakeTurn(node, dropped, nanos)))
  {
    hide MayArrive, ClaimOf, SenderOf, Accounted, Spelled;
    ClaimSpells(node, dropped, nanos);
  }

  lemma RenameConserves(s: State, claimed: string)
    requires Conserved(s) && Enabled(s, Rename(claimed))
    ensures Conserved(Apply(s, Rename(claimed)))
  {
    hide MayArrive, ClaimOf, SenderOf, Accounted;
    if s.attempts[claimed].dropped in s.dir.files {
      MoveAccounted(s.dir.files, s.attempts[claimed].dropped, claimed, s.produced, s.gone);
    }
  }

  lemma EndClaimConserves(s: State, claimed: string, turnLeft: bool, handed: bool)
    requires Conserved(s) && Enabled(s, EndClaim(claimed, turnLeft, handed))
    ensures Conserved(Apply(s, EndClaim(claimed, turnLeft, handed)))
  {
    hide MayArrive, ClaimOf, SenderOf, Accounted;
  }

  lemma AcceptConserves(s: State, claimed: string, deleted: bool)
    requires Conserved(s) && Enabled(s, Accept(claimed, deleted))
    ensures Conserved(Apply(s, Accept(claimed, deleted)))
  {
    hide MayArrive, ClaimOf, SenderOf, Accounted;
    DeleteConserves(s.(owners := Without(s.owners, claimed)), claimed, Consumed(s.owners[claimed].node));
  }

  lemma GiveBackConserves(s: State, claimed: string, asked: bool)
    requires Conserved(s) && Enabled(s, GiveBack(claimed, asked))
    ensures Conserved(Apply(s, GiveBack(claimed, asked)))
  {
    hide MayArrive, ClaimOf, SenderOf, Accounted;
    var told := s.(owners := Without(s.owners, claimed));
    if asked { ReturnConserves(told, claimed); }
  }

  lemma SettleConserves(s: State, claimed: string)
    requires Conserved(s) && Enabled(s, Settle(claimed))
    ensures Conserved(Apply(s, Settle(claimed)))
  {
    hide MayArrive, ClaimOf, SenderOf, Accounted;
    ReturnConserves(s.(held := s.held - {claimed}), claimed);
  }

  lemma CrashConserves(s: State, node: string)
    requires Conserved(s)
    ensures Conserved(Apply(s, Crash(node)))
  {
    hide MayArrive, ClaimOf, SenderOf, Accounted;
  }

  /** What a node's listing finds of its own is what its names were spelled for. */
  lemma RecoverListConserves(s: State, node: string)
    requires Conserved(s) && Enabled(s, RecoverList(node))
    ensures Conserved(Apply(s, RecoverList(node)))
  {
    hide MayArrive, ClaimOf, SenderOf, ClaimedBy, SentBy, SentOnly, Accounted;
    ListedSpelt(s, node);
  }

  lemma ListedSpelt(s: State, node: string)
    requires Named(s) && Readable(node)
    ensures forall n | n in s.dir.files && ClaimedBy(n, node) :: ClaimSpelled(s, n)
    ensures forall n | n in s.dir.files && SentBy(n, node) :: n in s.minted && SentOnly(n) && SenderOf(n) == Some(node)
  {
    hide MayArrive, ClaimOf, SenderOf;
    forall n | n in s.dir.files && ClaimedBy(n, node) ensures n in s.minted {
      ReservedNeverArrives(n);
    }
    forall n | n in s.dir.files && SentBy(n, node) ensures n in s.minted && SentOnly(n) {
      FamiliesApart(n);
      ReservedNeverArrives(n);
    }
  }

  lemma ReservedNeverArrives(n: string)
    ensures MayArrive(n) ==> ClaimOf(n).None? && SenderOf(n).None?
  {}

  /** A name once listed is spelled, and a send spells another: nothing in
      flight later is among what a recovery sifted. */
  lemma RecoverSiftConserves(s: State, node: string)
    requires Conserved(s) && Enabled(s, RecoverSift(node))
    ensures Conserved(Apply(s, RecoverSift(node)))
  {
    hide MayArrive, ClaimOf, SenderOf, Accounted;
  }

  lemma RecoverRemoveConserves(s: State, node: string, name: string)
    requires Conserved(s) && Enabled(s, RecoverRemove(node, name))
    ensures Conserved(Apply(s, RecoverRemove(node, name)))
  {
    hide MayArrive, ClaimOf, SenderOf, Accounted;
    DeleteConserves(s, name, Removed);
  }

  lemma RecoverTurnConserves(s: State, node: string, turn: string)
    requires Conserved(s) && Enabled(s, RecoverTurn(node, turn))
    ensures Conserved(Apply(s, RecoverTurn(node, turn)))
  {
    hide MayArrive, ClaimOf, SenderOf, Accounted;
  }

  lemma RecoverReturnConserves(s: State, node: string, claimed: string, asked: bool)
    requires Conserved(s) && Enabled(s, RecoverReturn(node, claimed, asked))
    ensures Conserved(Apply(s, RecoverReturn(node, claimed, asked)))
  {
    hide MayArrive, ClaimOf, SenderOf, Accounted;
    if asked { ReturnConserves(s, claimed); }
  }

  lemma RecoverEndConserves(s: State, node: string)
    requires Conserved(s) && Enabled(s, RecoverEnd(node))
    ensures Conserved(Apply(s, RecoverEnd(node)))
  {
    hide MayArrive, ClaimOf, SenderOf, Accounted;
  }

  lemma SendBeginConserves(s: State, node: string, target: string, count: nat, nanos: nat)
    requires Conserved(s) && Enabled(s, SendBegin(node, target, count, nanos))
    ensures Conserved(Apply(s, SendBegin(node, target, count, nanos)))
  {
    hide MayArrive, ClaimOf, SenderOf, Accounted, Spelled;
    SendSpells(node, target, count, nanos);
  }

  lemma SendWriteConserves(s: State, name: string, file: File)
    requires Conserved(s) && Enabled(s, SendWrite(name, file))
    ensures Conserved(Apply(s, SendWrite(name, file)))
  {
    hide MayArrive, ClaimOf, SenderOf, Accounted;
    AddAccounted(s.dir.files, name, file, s.produced, s.gone);
  }

  lemma SendPlaceConserves(s: State, name: string)
    requires Conserved(s) && Enabled(s, SendPlace(name))
    ensures Conserved(Apply(s, SendPlace(name)))
  {
    hide MayArrive, ClaimOf, SenderOf, Accounted;
    PlaceAccounted(s, name, s.sending[name]);
  }

  lemma SendEndConserves(s: State, name: string, removed: bool)
    requires Conserved(s) && Enabled(s, SendEnd(name, removed))
    ensures Conserved(Apply(s, SendEnd(name, removed)))
  {
    hide MayArrive, ClaimOf, SenderOf, Accounted;
    DeleteConserves(s.(sending := Without(s.sending, name)), name, Removed);
  }

  /** Every step, of any node at any moment, conserves. */
  lemma StepConserved(s: State, step: Step)
    requires Conserved(s) && Enabled(s, step)
    ensures Conserved(Apply(s, step))
  {
    hide Conserved, Apply;
    match step
    case Produce(name, file) => ProduceConserves(s, name, file);
    case TakeTurn(node, dropped, nanos) => TakeTurnConserves(s, node, dropped, nanos);
    case Rename(claimed) => RenameConserves(s, claimed);
    case EndClaim(claimed, turnLeft, handed) => EndClaimConserves(s, claimed, turnLeft, handed);
    case Accept(claimed, deleted) => AcceptConserves(s, claimed, deleted);
    case GiveBack(claimed, asked) => GiveBackConserves(s, claimed, asked);
    case Settle(claimed) => SettleConserves(s, claimed);
    case Crash(node) => CrashConserves(s, node);
    case RecoverList(node) => RecoverListConserves(s, node);
    case RecoverSift(node) => RecoverSiftConserves(s, node);
    case RecoverRemove(node, name) => RecoverRemoveConserves(s, node, name);
    case RecoverTurn(node, turn) => RecoverTurnConserves(s, node, turn);
    case RecoverReturn(node, claimed, asked) => RecoverReturnConserves(s, node, claimed, asked);
    case RecoverEnd(node) => RecoverEndConserves(s, node);
    case SendBegin(node, target, count, nanos) => SendBeginConserves(s, node, target, count, nanos);
    case SendWrite(name, file) => SendWriteConserves(s, name, file);
    case SendPlace(name) => SendPlaceConserves(s, name);
    case SendEnd(name, removed) => SendEndConserves(s, name, removed);
  }
}
