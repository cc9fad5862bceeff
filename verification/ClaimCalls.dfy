/**
 What one node's calls make of a location is what steps of the protocol make of
 it, one after another with nothing between them.
 */
module ClaimCalls {

  import opened Wrappers
  import opened Names
  import opened Directory
  import opened ClaimProtocol
  import opened ClaimConservation
  import opened ClaimRuns
  import Claims
  import ClaimSite
  import Takes

  /** The steps a call is made of: those that settle what is held, those of a node's
      recovery, those of its claims, or, of a whole receive, all of these. */
  datatype Kind = Settles | Recovers(node: string) | Takes(node: string) | Receives(node: string)

  predicate Of(kind: Kind, step: Step) {
    match kind
    case Settles => step.Settle?
    case Recovers(node) => IsRecovery(step, node)
    case Takes(node) => IsClaim(step, node)
    case Receives(node) => step.Settle? || IsRecovery(step, node) || IsClaim(step, node)
  }

  predicate IsRecovery(step: Step, node: string) {
    && (step.RecoverList? || step.RecoverSift? || step.RecoverRemove? || step.RecoverTurn? || step.RecoverReturn? || step.RecoverEnd?)
    && step.node == node
  }

  predicate IsClaim(step: Step, node: string) {
    || (step.TakeTurn? && step.node == node)
    || ((step.Rename? || step.EndClaim?) && ClaimedBy(step.claimed, node))
  }

  ghost predicate Leads(s: State, kind: Kind, t: State) {
    exists steps :: After(s, steps) == Some(t) && forall i | 0 <= i < |steps| :: Of(kind, steps[i])
  }

  lemma Stays(s: State, kind: Kind)
    ensures Leads(s, kind, s)
  {
    AfterNone(s);
  }

  lemma LeadsOn(s: State, kind: Kind, t: State, u: State)
    requires Leads(s, kind, t) && Leads(t, kind, u)
    ensures Leads(s, kind, u)
  {
    hide After, Of;
    var one :| After(s, one) == Some(t) && forall i | 0 <= i < |one| :: Of(kind, one[i]);
    var other :| After(t, other) == Some(u) && forall i | 0 <= i < |other| :: Of(kind, other[i]);
    AfterJoined(s, one, other);
    assert forall i | 0 <= i < |one + other| :: Of(kind, (one + other)[i]);
  }

  lemma LeadsBy(s: State, kind: Kind, step: Step, u: State)
    requires Enabled(s, step) && Of(kind, step) && Leads(Apply(s, step), kind, u)
    ensures Leads(s, kind, u)
  {
    hide Enabled, Apply, After, Of;
    var rest :| After(Apply(s, step), rest) == Some(u) && forall i | 0 <= i < |rest| :: Of(kind, rest[i]);
    AfterOne(s, step, rest);
    assert forall i | 0 <= i < |[step] + rest| :: Of(kind, ([step] + rest)[i]);
  }

  /** What a part of a receive is made of, it is made of. */
  lemma LeadsWider(s: State, kind: Kind, t: State, node: string)
    requires Leads(s, kind, t) && (kind == Settles || kind == Recovers(node) || kind == Takes(node))
    ensures Leads(s, Receives(node), t)
  {
    hide After, IsRecovery, IsClaim;
    var steps :| After(s, steps) == Some(t) && forall i | 0 <= i < |steps| :: Of(kind, steps[i]);
    assert forall i | 0 <= i < |steps| :: Of(Receives(node), steps[i]);
  }

  // ------------------------------------------------------------------ a claim

  /** What a claim under `c` leaves: the file moved where it was renamed, the turn
      where it could not be dropped, and an owner where it was won. */
  ghost predicate Claimed(s: State, t: State, node: string, dropped: string, c: string, renamed: bool, turnLeft: bool, won: bool) {
    && (renamed || won ==> dropped in s.dir.files)
    && t.dir.files == (if renamed then Moved(s.dir.files, dropped, c) else s.dir.files)
    && t.dir.turns == (if turnLeft then s.dir.turns[TurnOf(dropped) := node] else s.dir.turns)
    && t.attempts == Without(s.attempts, c) && t.held == s.held && t.minted == s.minted + {c}
    && t.sending == s.sending && t.recovering == s.recovering
    && t.owners == if won then s.owners[c := Owner(node, s.dir.files[dropped].artifact)] else Without(s.owners, c)
  }

  /** A claim is its turn taken, what is still as found renamed, and its end: the
      turn left where it could not be dropped, the artifact handed over where it
      was renamed and the turn dropped. */
  lemma UnbrokenClaim(s: State, node: string, dropped: string, nanos: nat, far: ClaimSite.Answers, found: Option<nat>)
    requires Enabled(s, TakeTurn(node, dropped, nanos)) && Takes.TurnFree(s.dir, far, dropped)
    ensures var c, turnLeft := Spelled(TakeTurn(node, dropped, nanos)), (ClaimSite.DropTurn, TurnOf(dropped)) in far.unasked;
            var renamed, won := Takes.RenamableIn(s.dir, far, dropped, found), Takes.WinnableIn(s.dir, far, dropped, found);
            match After(s, if renamed then [TakeTurn(node, dropped, nanos), Rename(c), EndClaim(c, turnLeft, won)]
                           else [TakeTurn(node, dropped, nanos), EndClaim(c, turnLeft, won)])
            case None => false
            case Some(t) => Claimed(s, t, node, dropped, c, renamed, turnLeft, won)
  {
    hide After, Claimed, Spelled, TurnOf, Enabled, Apply;
    var turnLeft := (ClaimSite.DropTurn, TurnOf(dropped)) in far.unasked;
    if Takes.RenamableIn(s.dir, far, dropped, found) {
      RenamedClaim(s, node, dropped, nanos, turnLeft, !turnLeft);
    } else {
      PassedClaim(s, node, dropped, nanos, turnLeft);
    }
  }

  lemma RenamedClaim(s: State, node: string, dropped: string, nanos: nat, turnLeft: bool, won: bool)
    requires Enabled(s, TakeTurn(node, dropped, nanos)) && dropped in s.dir.files && (won ==> !turnLeft)
    requires TurnOf(dropped) !in s.dir.turns && TurnOf(dropped) !in s.dir.files
    ensures var c := Spelled(TakeTurn(node, dropped, nanos));
            match After(s, [TakeTurn(node, dropped, nanos), Rename(c), EndClaim(c, turnLeft, won)])
            case None => false
            case Some(t) => Claimed(s, t, node, dropped, c, true, turnLeft, won)
  {
    hide MayArrive, ClaimOf, SenderOf, Spelled, After, Moved, TurnOf;
    var c := Spelled(TakeTurn(node, dropped, nanos));
    ThreeAfter(s, TakeTurn(node, dropped, nanos), Rename(c), EndClaim(c, turnLeft, won));
    assert s.dir.turns[TurnOf(dropped) := node] - {TurnOf(dropped)} == s.dir.turns;
    assert Without(s.attempts[c := Attempt(node, dropped, true)], c) == Without(s.attempts, c);
  }

  lemma PassedClaim(s: State, node: string, dropped: string, nanos: nat, turnLeft: bool)
    requires Enabled(s, TakeTurn(node, dropped, nanos))
    requires TurnOf(dropped) !in s.dir.turns && TurnOf(dropped) !in s.dir.files
    ensures var c := Spelled(TakeTurn(node, dropped, nanos));
            match After(s, [TakeTurn(node, dropped, nanos), EndClaim(c, turnLeft, false)])
            case None => false
            case Some(t) => Claimed(s, t, node, dropped, c, false, turnLeft, false)
  {
    hide MayArrive, ClaimOf, SenderOf, Spelled, After, TurnOf;
    var c := Spelled(TakeTurn(node, dropped, nanos));
    TwoAfter(s, TakeTurn(node, dropped, nanos), EndClaim(c, turnLeft, false));
    assert s.dir.turns[TurnOf(dropped) := node] - {TurnOf(dropped)} == s.dir.turns;
  }

  // ---------------------------------------------------------------- a verdict

  /** A claimed artifact given back is one step: where it cannot go back now it waits. */
  lemma GiveBackIsStep(s: State, c: string, asked: bool)
    requires Enabled(s, GiveBack(c, asked))
    ensures var (dir, back) := Claims.GivenBack(s.dir, c, asked);
            var t := Apply(s, GiveBack(c, asked));
            t.dir == dir && t.held == (if back then s.held else s.held + {c}) && t.owners == Without(s.owners, c)
  {
    hide MayArrive, ClaimOf, SenderOf;
  }

  /** What goes back of `files`, each to a name free of others. */
  ghost predicate Goes(files: map<string, File>, after: map<string, File>, going: set<string>) {
    && (forall c | c in going :: ClaimOf(c).Some? && MayArrive(DroppedName(c)) && DroppedName(c) !in files && c !in after)
    && Each(files, after, going) && Rest(files, after, going) && NoMore(files, after, going)
  }

  ghost predicate Each(files: map<string, File>, after: map<string, File>, going: set<string>) {
    && (forall c | c in going && c in files :: DroppedName(c) in after && after[DroppedName(c)] == files[c])
    && (forall c, c' | c in going && c' in going && c in files && c' in files && DroppedName(c) == DroppedName(c') :: c == c')
  }

  ghost predicate Rest(files: map<string, File>, after: map<string, File>, going: set<string>) {
    forall n | n in files && n !in going :: n in after && after[n] == files[n]
  }

  ghost predicate NoMore(files: map<string, File>, after: map<string, File>, going: set<string>) {
    forall n | n in after :: n in files || exists c :: c in going && c in files && n == DroppedName(c)
  }

  lemma GoesFrom(before: map<string, File>, after: map<string, File>, was: set<string>, now: set<string>,
                 unasked: set<(ClaimSite.Operation, string)>)
    requires Claims.Settling(before, after, was, now, {}, unasked)
    requires forall n, m | n in before && m in before && before[n] == before[m] :: n == m
    ensures Goes(before, after, was - now)
  {
    hide MayArrive, ClaimOf, SenderOf, DroppedName;
    forall c | c in was - now ensures Claims.WentBack(before, after, c) {}
    forall c | c in now ensures Claims.Waits(before, after, c, unasked) {}
  }

  /** One of those going back, those that lie nowhere first. */
  lemma GoesNext(d: Dir, after: map<string, File>, going: set<string>) returns (c: string)
    requires Goes(d.files, after, going) && going != {}
    ensures c in going
    ensures var (back, restored) := Returned(d, c, DroppedName(c));
            restored != Kept && back.turns == d.turns && Goes(back.files, after, going - {c})
  {
    hide Goes, DroppedName;
    GoesFree(d.files, after, going);
    if c' :| c' in going && c' !in d.files {
      c := c';
      GoesAbsent(d.files, after, going, c);
    } else {
      c :| c in going;
      GoesMoved(d.files, after, going, c);
    }
  }

  lemma GoesFree(files: map<string, File>, after: map<string, File>, going: set<string>)
    requires Goes(files, after, going)
    ensures forall c | c in going :: DroppedName(c) !in files && ClaimOf(c).Some? && MayArrive(DroppedName(c))
  {
    hide MayArrive, ClaimOf, DroppedName;
  }

  lemma GoesAbsent(files: map<string, File>, after: map<string, File>, going: set<string>, c: string)
    requires Goes(files, after, going) && c !in files
    ensures Goes(files, after, going - {c})
  {
    hide MayArrive, ClaimOf, DroppedName;
    forall n | n in after ensures n in files || exists x :: x in going - {c} && x in files && n == DroppedName(x) {
      if n !in files {
        var x :| x in going && x in files && n == DroppedName(x);
        assert x in going - {c};
      }
    }
  }

  lemma GoesMoved(files: map<string, File>, after: map<string, File>, going: set<string>, c: string)
    requires Goes(files, after, going) && c in going && going <= files.Keys
    ensures Goes(Moved(files, c, DroppedName(c)), after, going - {c})
  {
    Claims.NoneItsOwnName(going, c);
    hide MayArrive, ClaimOf, DroppedName, Each, Rest, NoMore;
    EachMoved(files, after, going, c);
    RestMoved(files, after, going, c);
    NoMoreMoved(files, after, going, c);
    OthersApart(files, after, going, c);
  }

  lemma OthersApart(files: map<string, File>, after: map<string, File>, going: set<string>, c: string)
    requires Each(files, after, going) && c in going && going <= files.Keys
    ensures forall c' | c' in going - {c} :: DroppedName(c') != DroppedName(c)
  {
    hide DroppedName;
  }

  lemma EachMoved(files: map<string, File>, after: map<string, File>, going: set<string>, c: string)
    requires Each(files, after, going) && c in going && going <= files.Keys
    requires forall c' | c' in going :: DroppedName(c) != c'
    ensures Each(Moved(files, c, DroppedName(c)), after, going - {c})
  {
    hide DroppedName;
  }

  lemma RestMoved(files: map<string, File>, after: map<string, File>, going: set<string>, c: string)
    requires Each(files, after, going) && Rest(files, after, going) && c in going && c in files
    ensures Rest(Moved(files, c, DroppedName(c)), after, going - {c})
  {
    hide DroppedName;
  }

  lemma NoMoreMoved(files: map<string, File>, after: map<string, File>, going: set<string>, c: string)
    requires NoMore(files, after, going) && c in going && going <= files.Keys && c !in after
    ensures NoMore(Moved(files, c, DroppedName(c)), after, going - {c})
  {
    hide DroppedName;
    var files' := Moved(files, c, DroppedName(c));
    forall n | n in after ensures n in files' || exists x :: x in going - {c} && x in files' && n == DroppedName(x) {
      if n !in files {
        var x :| x in going && x in files && n == DroppedName(x);
        assert x != c ==> x in going - {c} && x in files';
      }
    }
  }

  lemma GoesNone(files: map<string, File>, after: map<string, File>)
    requires Goes(files, after, {})
    ensures after == files
  {
    hide MayArrive, ClaimOf, SenderOf, DroppedName;
    assert forall n | n in after :: n in files;
  }

  lemma {:induction false} SettleGoes(s: State, after: map<string, File>, going: set<string>)
    requires Goes(s.dir.files, after, going) && going <= s.held
    ensures Leads(s, Settles, s.(dir := Dir(after, s.dir.turns), held := s.held - going))
    decreases |going|
  {
    hide Goes, Leads, Return;
    var t := s.(dir := Dir(after, s.dir.turns), held := s.held - going);
    if going == {} {
      GoesNone(s.dir.files, after);
      assert t == s;
      Stays(s, Settles);
    } else {
      var c := AnyGoing(s, after, going);
      var next := Apply(s, Settle(c));
      assert next.held - (going - {c}) == s.held - going;
      SettleGoes(next, after, going - {c});
      LeadsBy(s, Settles, Settle(c), t);
    }
  }

  /** One of what is held and going back, settled by its step. */
  lemma AnyGoing(s: State, after: map<string, File>, going: set<string>) returns (c: string)
    requires Goes(s.dir.files, after, going) && going != {} && going <= s.held
    ensures c in going && Enabled(s, Settle(c))
    ensures var t := Apply(s, Settle(c));
            t == s.(dir := s.dir.(files := t.dir.files), held := s.held - {c}) && Goes(t.dir.files, after, going - {c})
  {
    hide Goes, DroppedName;
    c := GoesNext(s.dir, after, going);
  }

  /** What is held settled is a step for each that goes back; the others wait on. */
  lemma SettleIsSteps(s: State, after: map<string, File>, was: set<string>, now: set<string>,
                      unasked: set<(ClaimSite.Operation, string)>)
    requires Conserved(s) && was <= s.held && Claims.Settling(s.dir.files, after, was, now, {}, unasked)
    ensures Leads(s, Settles, s.(dir := Dir(after, s.dir.turns), held := s.held - (was - now)))
  {
    OnlyOnce(s);
    hide Conserved, Goes, Leads, Claims.Settling;
    GoesFrom(s.dir.files, after, was, now, unasked);
    SettleGoes(s, after, was - now);
  }

  lemma OnlyOnce(s: State)
    requires Conserved(s)
    ensures forall n, m | n in s.dir.files && m in s.dir.files && s.dir.files[n] == s.dir.files[m] :: n == m
  {
    hide Named, Spelt, SendsSpared;
  }

  /** An acceptance is its delete, and where that was made what is held settled:
      what `Claims.Claiming.Told` makes of a location. */
  lemma AcceptIsSteps(s: State, c: string, after: map<string, File>, was: set<string>, now: set<string>,
                      unasked: set<(ClaimSite.Operation, string)>)
    requires Conserved(s) && Enabled(s, Accept(c, true)) && was <= s.held
    requires Claims.Settling(Deleted(s.dir, c).files, after, was, now, {}, unasked)
    ensures Apply(s, Accept(c, false)) == s.(owners := Without(s.owners, c))
    ensures var told := Apply(s, Accept(c, true));
            && told.owners == Without(s.owners, c) && told.held == s.held
            && Leads(told, Settles, told.(dir := Dir(after, s.dir.turns), held := s.held - (was - now)))
  {
    hide MayArrive, ClaimOf, SenderOf, Conserved, Leads, Claims.Settling;
    StepConserved(s, Accept(c, true));
    SettleIsSteps(Apply(s, Accept(c, true)), after, was, now, unasked);
  }

  // --------------------------------------------------------------- a recovery

  /** What a recovery leaves of everything but its location and what is held. */
  ghost predicate Recovered(s: State, t: State, after: Dir, kept: set<string>) {
    && t.dir == after && t.held == s.held + kept
    && t.owners == s.owners && t.attempts == s.attempts && t.sending == s.sending && t.recovering == s.recovering && t.minted == s.minted
  }

  lemma {:induction false} RemovesLeft(s: State, node: string, names: set<string>) returns (t: State)
    requires node in s.recovering && s.recovering[node] && forall n | n in names :: n in s.removing && SentBy(n, node)
    ensures Leads(s, Recovers(node), t) && t == s.(dir := s.dir.(files := s.dir.files - names), gone := t.gone)
    decreases |names|
  {
    hide SentBy, Leads;
    if names == {} {
      assert s.dir.files - {} == s.dir.files;
      Stays(s, Recovers(node));
      t := s;
    } else {
      var n :| n in names;
      assert s.dir.files - {n} - (names - {n}) == s.dir.files - names;
      t := RemovesLeft(Apply(s, RecoverRemove(node, n)), node, names - {n});
      LeadsBy(s, Recovers(node), RecoverRemove(node, n), t);
    }
  }

  lemma {:induction false} DropsTurns(s: State, node: string, turns: set<string>)
    requires node in s.recovering && forall t | t in turns :: t in s.dir.turns && s.dir.turns[t] == node
    ensures Leads(s, Recovers(node), s.(dir := s.dir.(turns := s.dir.turns - turns)))
    decreases |turns|
  {
    hide Leads;
    if turns == {} {
      assert s.dir.turns - {} == s.dir.turns;
      Stays(s, Recovers(node));
    } else {
      var t :| t in turns;
      assert s.dir.turns - {t} - (turns - {t}) == s.dir.turns - turns;
      DropsTurns(Apply(s, RecoverTurn(node, t)), node, turns - {t});
      LeadsBy(s, Recovers(node), RecoverTurn(node, t), s.(dir := s.dir.(turns := s.dir.turns - turns)));
    }
  }

  lemma {:induction false} ReturnGoes(s: State, node: string, after: map<string, File>, going: set<string>)
    requires node in s.recovering && Goes(s.dir.files, after, going)
    requires forall c | c in going :: c in s.returning && ClaimedBy(c, node)
    ensures Leads(s, Recovers(node), s.(dir := Dir(after, s.dir.turns)))
    decreases |going|
  {
    hide Goes, Leads, ClaimedBy, DroppedName;
    var t := s.(dir := Dir(after, s.dir.turns));
    if going == {} {
      GoesNone(s.dir.files, after);
      assert t == s;
      Stays(s, Recovers(node));
    } else {
      var c := GoesNext(s.dir, after, going);
      ReturnGoes(Apply(s, RecoverReturn(node, c, true)), node, after, going - {c});
      LeadsBy(s, Recovers(node), RecoverReturn(node, c, true), t);
    }
  }

  lemma {:induction false} HoldsOn(s: State, node: string, kept: set<string>, unasked: set<(ClaimSite.Operation, string)>)
    requires node in s.recovering && forall c | c in kept :: c in s.returning && ClaimedBy(c, node)
    requires forall c | c in kept && (ClaimSite.Restore, c) !in unasked :: DroppedName(c) in s.dir.files
    ensures Leads(s, Recovers(node), s.(held := s.held + kept))
    decreases |kept|
  {
    hide Leads, ClaimedBy, DroppedName;
    if kept == {} {
      assert s.held + {} == s.held;
      Stays(s, Recovers(node));
    } else {
      var c :| c in kept;
      var step := RecoverReturn(node, c, (ClaimSite.Restore, c) !in unasked);
      assert Apply(s, step) == s.(held := s.held + {c});
      assert s.held + {c} + (kept - {c}) == s.held + kept;
      HoldsOn(Apply(s, step), node, kept - {c}, unasked);
      LeadsBy(s, Recovers(node), step, s.(held := s.held + kept));
    }
  }

  /** A recovery that completed is its listing, its sifting, and a step for every
      unfinished send removed, every turn dropped and every claim returned or held:
      what `Claims.Claiming.Recover` makes of a location. */
  lemma RecoverIsSteps(s: State, after: Dir, node: string, kept: set<string>, unasked: set<(ClaimSite.Operation, string)>)
    requires Conserved(s) && Readable(node) && node !in s.recovering
    requires Claims.RecoveredTo(s.dir, after, node, s.sending.Keys, kept, unasked)
    ensures exists t :: Leads(s, Recovers(node), t) && Recovered(s, t, after, kept)
  {
    hide Conserved, Leads, Claims.Settling, Claims.MineOf, Claims.LeftOf;
    OnlyOnce(s);
    var turns := set t | t in s.dir.turns && s.dir.turns[t] == node;
    var cleared := ClearedTo(s, node, Claims.LeftOf(s.dir.files, node, s.sending.Keys), turns);
    assert s.dir.turns - turns == Claims.TurnsOfOthers(s.dir.turns, node);
    var t := ReturnedTo(cleared, after, node, Claims.MineOf(s.dir.files, node), kept, unasked);
    LeadsOn(s, Recovers(node), cleared, t);
    assert t.recovering == s.recovering;
    assert Recovered(s, t, after, kept);
  }

  /** One that failed is as many of these steps as it came to: what it makes of a
      location is what some sends removed and some turns dropped do. */
  lemma RecoverFailsIsSteps(s: State, after: Dir, node: string)
    requires Readable(node) && node !in s.recovering && Claims.PartlyCleared(s.dir, after, node, s.sending.Keys)
    ensures exists t :: Leads(s, Recovers(node), t) && Recovered(s, t, after, {})
  {
    hide Leads, Claims.LeftOf, Claims.MineOf;
    var names, turns := s.dir.files.Keys - after.files.Keys, s.dir.turns.Keys - after.turns.Keys;
    assert s.dir.files - names == after.files && s.dir.turns - turns == after.turns;
    var cleared := ClearedTo(s, node, names, turns);
    var t := Apply(cleared, RecoverEnd(node));
    Stays(t, Recovers(node));
    LeadsBy(cleared, Recovers(node), RecoverEnd(node), t);
    LeadsOn(s, Recovers(node), cleared, t);
    assert t.recovering == s.recovering;
    assert Recovered(s, t, after, {});
  }

  /** The location listed, and of what was left unfinished and the turns that were
      left, these gone. */
  lemma ClearedTo(s: State, node: string, names: set<string>, turns: set<string>) returns (t: State)
    requires Readable(node) && node !in s.recovering && names <= Claims.LeftOf(s.dir.files, node, s.sending.Keys)
    requires forall t | t in turns :: t in s.dir.turns && s.dir.turns[t] == node
    ensures Leads(s, Recovers(node), t)
    ensures t == s.(dir := Dir(s.dir.files - names, s.dir.turns - turns),
                    recovering := s.recovering[node := true], returning := t.returning, removing := t.removing, gone := t.gone)
    ensures forall c | c in Claims.MineOf(s.dir.files, node) :: c in t.returning && ClaimedBy(c, node)
  {
    hide Leads, Claims.LeftOf, Claims.MineOf, ClaimedBy, SentBy;
    var sifted := SiftedTo(s, node);
    var removed := RemovesLeft(sifted, node, names);
    DropsTurns(removed, node, turns);
    t := removed.(dir := removed.dir.(turns := s.dir.turns - turns));
    LeadsOn(s, Recovers(node), sifted, removed);
    LeadsOn(s, Recovers(node), removed, t);
  }

  /** What was claimed, back or held, and the recovery ended. */
  lemma ReturnedTo(s: State, after: Dir, node: string, mine: set<string>, kept: set<string>, unasked: set<(ClaimSite.Operation, string)>)
    returns (t: State)
    requires node in s.recovering && Claims.Settling(s.dir.files, after.files, mine, kept, {}, unasked) && after.turns == s.dir.turns
    requires forall n, m | n in s.dir.files && m in s.dir.files && s.dir.files[n] == s.dir.files[m] :: n == m
    requires forall c | c in mine :: c in s.returning && ClaimedBy(c, node)
    ensures Leads(s, Recovers(node), t)
    ensures t == s.(dir := after, held := s.held + kept, recovering := s.recovering - {node},
                    returning := t.returning, removing := t.removing)
  {
    hide Leads, Goes, Claims.Settling, ClaimedBy, DroppedName, SentBy;
    KeptWait(s.dir.files, after.files, mine, kept, unasked);
    GoesFrom(s.dir.files, after.files, mine, kept, unasked);
    ReturnGoes(s, node, after.files, mine - kept);
    var returned := s.(dir := after);
    HoldsOn(returned, node, kept, unasked);
    var held := returned.(held := s.held + kept);
    t := Apply(held, RecoverEnd(node));
    Stays(t, Recovers(node));
    LeadsBy(held, Recovers(node), RecoverEnd(node), t);
    LeadsOn(returned, Recovers(node), held, t);
    LeadsOn(s, Recovers(node), returned, t);
  }

  lemma KeptWait(before: map<string, File>, after: map<string, File>, was: set<string>, now: set<string>,
                 unasked: set<(ClaimSite.Operation, string)>)
    requires Claims.Settling(before, after, was, now, {}, unasked)
    ensures now <= was && forall c | c in now && (ClaimSite.Restore, c) !in unasked :: DroppedName(c) in after
  {
    hide MayArrive, ClaimOf, DroppedName;
    forall c | c in now ensures Claims.Waits(before, after, c, unasked) {}
  }

  /** The location listed, and what a send is still writing left out. */
  lemma SiftedTo(s: State, node: string) returns (t: State)
    requires Readable(node) && node !in s.recovering
    ensures Leads(s, Recovers(node), t)
    ensures t == s.(recovering := s.recovering[node := true], returning := t.returning, removing := t.removing)
    ensures forall n | n in Claims.LeftOf(s.dir.files, node, s.sending.Keys) :: n in t.removing && SentBy(n, node)
    ensures forall c | c in Claims.MineOf(s.dir.files, node) :: c in t.returning && ClaimedBy(c, node)
  {
    hide ClaimedBy, SenderOf, Leads;
    var listed := Apply(s, RecoverList(node));
    t := Apply(listed, RecoverSift(node));
    Stays(t, Recovers(node));
    LeadsBy(listed, Recovers(node), RecoverSift(node), t);
    LeadsBy(s, Recovers(node), RecoverList(node), t);
  }
}
