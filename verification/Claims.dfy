/**
 One Receive Location's claims over a location of the file family: what it
 takes, what it hands back, and what waits to go back.
 */
module Claims {

  import opened Acknowledgements
  import opened Wrappers
  import opened Names
  import opened Nodes
  import opened Directory
  import opened ClaimSite
  import opened RefusedItems
  import opened Takes

  /** Whether the verdict, where there was one, was a refusal. */
  predicate IsRefusal(verdict: Option<Verdict>) {
    verdict.Some? && verdict.value.Refused?
  }

  /** No producer writes a claim's own names: what lies under one was claimed
      from a name that may arrive. And every name is one. */
  ghost predicate Reserved(files: map<string, File>) {
    && "" !in files
    && forall n | n in files && ClaimOf(n).Some? :: MayArrive(DroppedName(n))
  }

  function TurnsOfOthers(turns: map<string, string>, who: string): map<string, string> {
    map t | t in turns && turns[t] != who :: turns[t]
  }

  function MineOf(files: map<string, File>, who: string): set<string> {
    set n | n in files && ClaimedBy(n, who)
  }

  function LeftOf(files: map<string, File>, who: string, inFlight: set<string>): set<string> {
    set n | n in files && !ClaimedBy(n, who) && SenderOf(n) == Some(who) && n !in inFlight
  }

  /** What a recovery makes of a location: its node's turns and abandoned sends
      left out, its claims returned but those `kept`. */
  ghost predicate RecoveredTo(before: Dir, after: Dir, who: string, inFlight: set<string>, kept: set<string>,
                              unasked: set<(Operation, string)>) {
    && after.turns == TurnsOfOthers(before.turns, who)
    && Settling(before.files - LeftOf(before.files, who, inFlight), after.files, MineOf(before.files, who), kept, {}, unasked)
  }

  /** Whether every turn `who` left can be found and dropped. */
  predicate TurnsRecoverable(turns: map<string, string>, who: string, unasked: set<(Operation, string)>) {
    && (Operation.Turns, "") !in unasked
    && forall t | t in turns :: (Holder, t) !in unasked && (turns[t] == who ==> (DropTurn, t) !in unasked)
  }

  /** Whether a location can be recovered: listed, what its node's sends left
      deleted, and its turns dropped. */
  predicate Recoverable(dir: Dir, who: string, inFlight: set<string>, unasked: set<(Operation, string)>) {
    && (List, "") !in unasked
    && (forall n | n in LeftOf(dir.files, who, inFlight) :: (Delete, n) !in unasked)
    && TurnsRecoverable(dir.turns, who, unasked)
  }

  /** Whatever failed, no file but its node's own claims and abandoned sends is
      touched, and no other's turn. */
  ghost predicate Untouched(before: Dir, after: Dir, who: string, inFlight: set<string>) {
    && (forall n | n in before.files && n !in MineOf(before.files, who) && n !in LeftOf(before.files, who, inFlight) ::
          n in after.files && after.files[n] == before.files[n])
    && (forall t | t in before.turns && before.turns[t] != who :: t in after.turns && after.turns[t] == before.turns[t])
  }

  /** What a recovery that failed makes of a location: some of its node's abandoned
      sends and of its turns left out, and nothing else. */
  ghost predicate PartlyCleared(before: Dir, after: Dir, who: string, inFlight: set<string>) {
    && (forall n | n in after.files :: n in before.files && after.files[n] == before.files[n])
    && (forall n | n in before.files && n !in after.files :: n in LeftOf(before.files, who, inFlight))
    && (forall t | t in after.turns :: t in before.turns && after.turns[t] == before.turns[t])
    && (forall t | t in before.turns && t !in after.turns :: before.turns[t] == who)
  }

  /** What is held once a recovery held `kept` too, none of it refused. */
  function WithKept(held: map<string, bool>, kept: set<string>): map<string, bool> {
    held + map c | c in kept :: false
  }

  /** Each won or broken off at was finished: as the far end says, or, where it
      cannot tell, found by the listing before as it was found now. */
  ghost predicate AllFinished(far: Answers, listed: map<string, Option<nat>>, looked: map<string, Option<nat>>,
                              won: map<string, string>, broken: Broken) {
    forall d | d in won || (broken.Some? && d == broken.value.0) ::
      && d in looked && (Finished, d) !in far.unasked
      && if d in far.finished then far.finished[d] else d in listed && listed[d] == looked[d]
  }

  /** A listing's items under way. */
  ghost predicate Going(start: Dir, dir: Dir, far: Answers, listed: map<string, Option<nat>>, found: Found, most: nat, taken: seq<Taken>,
                        seen: map<string, Option<nat>>, won: map<string, string>, broken: Broken, chances: Chances, who: string,
                        held: set<string>) {
    && Taking(start, dir, ByName(found), most, taken, seen, won, broken, chances, who)
    && InOrder(found, taken, won, broken, chances) && AllFinished(far, listed, ByName(found), won, broken)
    && forall d | d in won :: won[d] !in held
  }

  /** One more won or broken off at, if any, was finished. */
  ghost predicate NewFinished(far: Answers, listed: map<string, Option<nat>>, won: map<string, string>, broken: Broken,
                              won': map<string, string>, broken': Broken, item: (string, Option<nat>)) {
    forall d | d in won' || (broken'.Some? && d == broken'.value.0) ::
      || d in won || (broken.Some? && d == broken.value.0)
      || (d == item.0 && (Finished, d) !in far.unasked
          && if d in far.finished then far.finished[d] else d in listed && listed[d] == item.1)
  }

  lemma NoneUnnamed(files: map<string, File>)
    requires Reserved(files)
    ensures "" !in files
  {}

  /** A claimed artifact asked to go back, and whether nothing of it is left to return. */
  function GivenBack(d: Dir, claimed: string, asked: bool): (Dir, bool) {
    var (after, restored) := Returned(d, claimed, DroppedName(claimed));
    if asked && restored != Kept then (after, true) else (d, false)
  }

  /** The course of one receive: the location recovered, and again as it was
      listed, with what was waiting and what was left out as refused; what was won
      of the listing, by name, and where the far end failed. */
  datatype Course = Course(recovered: Dir, kept: set<string>, waiting: map<string, bool>, before: Dir, hidden: map<string, nat>,
                           listing: Found, won: map<string, string>, broken: Broken)

  class Claiming {
    const claimant: string
    const refused: RefusedItems.Refused<string, nat>
    var recovering: bool
    var listed: map<string, Option<nat>>
    var held: map<string, bool>  // each claimed name waiting, and whether its verdict was a refusal
    var clock: nat

    constructor (claimant: string, recovering: bool)
      requires Readable(claimant)
      ensures Valid() && fresh(refused) && held == map[] && listed == map[]
      ensures this.claimant == claimant && this.recovering == recovering
    {
      this.claimant, this.recovering := claimant, recovering;
      refused := new RefusedItems.Refused();
      listed, held, clock := map[], map[], 0;
    }

    ghost predicate Valid()
      reads this
    {
      && Readable(claimant)
      && forall c | c in held :: ClaimOf(c).Some? && MayArrive(DroppedName(c))
    }

    /** Whether a claim of `dropped`, found with the stamp `found`, is to be won now. */
    predicate Winnable(site: Memory, dropped: string, found: Option<nat>)
      reads site
    {
      WinnableIn(site.dir, site.AnswersNow(), dropped, found)
    }

    /** Take `dropped` under its turn where it still is what was found: renamed,
        with its turn gone again. It fails exactly where an operation of its own
        cannot be asked; a turn that cannot be dropped then stays, and what was
        renamed under it stays claimed. */
    method Claim(site: Memory, dropped: string, found: Option<nat>) returns (r: Result<Option<string>>, ghost claimed: string)
      requires Valid()
      modifies this`clock, site`dir
      ensures Valid()
      ensures claimed !in old(site.dir.files) && claimed !in held && WrittenFor(dropped, claimant, claimed)
      ensures (r.Err? <==> old(FailsIn(site.dir, site.AnswersNow(), dropped, found))) && (r.Err? ==> r.retryable)
      ensures r.Ok? && r.value.Some? <==> old(Winnable(site, dropped, found))
      ensures r.Ok? && r.value.Some? ==>
                && dropped in old(site.dir).files && found == old(site.StampOf(dropped))
                && TurnOf(dropped) !in old(site.dir).files && TurnOf(dropped) !in old(site.dir).turns
      ensures r.Ok? && r.value.None? ==>
                || TurnOf(dropped) in old(site.dir).files || TurnOf(dropped) in old(site.dir).turns
                || found != old(site.StampOf(dropped)) || dropped !in old(site.dir).files || dropped in site.refusing
      ensures r.Ok? && r.value.Some? ==> r.value.value == claimed
      ensures var renamed := old(RenamableIn(site.dir, site.AnswersNow(), dropped, found));
              && (renamed ==> dropped in old(site.dir).files)
              && site.dir.files == if renamed then Moved(old(site.dir).files, dropped, claimed) else old(site.dir).files
      ensures site.dir.turns == if old(LeavesIn(site.dir, site.AnswersNow(), dropped)) then old(site.dir).turns[TurnOf(dropped) := claimant]
                                else old(site.dir).turns
    {
      hide ClaimOf, MayArrive, DroppedName;
      var turn := TurnOf(dropped);
      var nanos := Reading(site.dir.files.Keys + held.Keys, dropped, claimant, clock);
      clock := nanos + 1;
      var name := ClaimName(dropped, claimant, Decimal(nanos));
      claimed := name;
      var took := site.TakeTurn(turn, claimant);
      if took.Err? { return Err(took.retryable), claimed; }
      if !took.value { return Ok(None), claimed; }
      var still := site.Stamp(dropped);
      var renamed := if still.Err? then Err(still.retryable) else Ok(false);
      if still.Ok? && still.value == found {
        renamed := site.Rename(dropped, name);
      }
      var droppedTurn := site.DropTurn(turn);
      assert old(site.dir).turns[turn := claimant] - {turn} == old(site.dir).turns;
      if renamed.Err? { return Err(renamed.retryable), claimed; }
      if droppedTurn.Err? { return Err(droppedTurn.retryable), claimed; }
      return Ok(if renamed.value then Some(name) else None), claimed;
    }

    /** `dropped` remembered as refused, as it lies now. */
    method Remember(site: Memory, dropped: string)
      modifies refused
      ensures refused.held == RememberedAs(site, old(refused.held), dropped)
    {
      var stamp := site.Stamp(dropped);
      if stamp.Ok? && stamp.value.Some? {
        refused.Remember(dropped, stamp.value.value);
      }
    }

    function RememberedAs(site: Memory, held: map<string, nat>, dropped: string): map<string, nat>
      reads site
    {
      if site.Asked(Operation.Stamp, dropped) && site.StampOf(dropped).Some?
      then held[dropped := site.StampOf(dropped).value] else held
    }

    /** The artifact claimed as `claimed` back under its dropped name, never over
        what lies there; held where it cannot go back now. */
    method GiveBack(site: Memory, claimed: string, wasRefused: bool) returns (r: Result<()>)
      requires Valid()
      requires ClaimOf(claimed).Some? ==> MayArrive(DroppedName(claimed))
      modifies this`held, refused, site`dir
      ensures Valid()
      ensures if ClaimOf(claimed).None? then r == Err(false) && site.dir == old(site.dir) && held == old(held)
              else (site.dir, r.Ok?) == GivenBack(old(site.dir), claimed, site.Asked(Operation.Restore, claimed))
                   && held == (if r.Ok? then old(held) else old(held)[claimed := wasRefused]) && (r.Err? ==> r.retryable)
      ensures refused.held ==
              if r.Ok? && wasRefused && Returned(old(site.dir), claimed, DroppedName(claimed)).1 == Back
              then RememberedAs(site, old(refused.held), DroppedName(claimed)) else old(refused.held)
    {
      if ClaimOf(claimed).None? { return Err(false); }
      var dropped := DroppedName(claimed);
      var back := site.Restore(claimed, dropped);
      if back.Ok? && back.value == Back {
        if wasRefused { Remember(site, dropped); }
        return Ok(());
      }
      if back.Ok? && back.value == Gone { return Ok(()); }
      held := held[claimed := wasRefused];
      return Err(true);
    }

    // ------------------------------------------------------------ a receive

    method IsFinished(site: Memory, name: string, stable: bool) returns (b: bool)
      ensures b <==> site.Asked(Finished, name) && if name in site.finished then site.finished[name] else stable
    {
      var says := site.Finished(name);
      b := says.Ok? && if says.value.Some? then says.value.value else stable;
    }

    /** One found item: claimed where it is finished; left where it is not, or
        not to be had. */
    method TakeOne(site: Memory, name: string, stamp: Option<nat>)
      returns (taken: Option<string>, broke: bool, ghost claimed: string)
      requires Valid()
      modifies this`clock, site`dir
      ensures Valid()
      ensures claimed !in old(site.dir).files && claimed !in held && WrittenFor(name, claimant, claimed)
      ensures var finished := FinishedIn(site.AnswersNow(), listed, (name, stamp));
              && (taken.Some? <==> finished && old(Winnable(site, name, stamp)))
              && (broke <==> finished && old(FailsIn(site.dir, site.AnswersNow(), name, stamp)))
              && var renamed := finished && old(RenamableIn(site.dir, site.AnswersNow(), name, stamp));
              && (renamed ==> name in old(site.dir).files)
              && site.dir.files == if renamed then Moved(old(site.dir).files, name, claimed) else old(site.dir).files
      ensures taken.Some? ==> taken.value == claimed
      ensures taken.Some? || broke ==>
                site.Asked(Finished, name) && if name in site.finished then site.finished[name] else name in listed && listed[name] == stamp
      ensures site.dir.turns == if FinishedIn(site.AnswersNow(), listed, (name, stamp)) && old(LeavesIn(site.dir, site.AnswersNow(), name))
                                then old(site.dir).turns[TurnOf(name) := claimant] else old(site.dir).turns
    {
      var finished := IsFinished(site, name, name in listed && listed[name] == stamp);
      if !finished {
        var t := Reading(site.dir.files.Keys + held.Keys, name, claimant, clock);
        return None, false, ClaimName(name, claimant, Decimal(t));
      }
      var r;
      r, claimed := Claim(site, name, stamp);
      return if r.Ok? then r.value else None, r.Err?, claimed;
    }

    /** What a listing found, item by item: claimed while there is room, the rest
        left and remembered as found. */
    method TakeFound(site: Memory, found: Found, most: nat)
      returns (taken: seq<Taken>, seen: map<string, Option<nat>>, broke: bool, ghost won: map<string, string>, ghost broken: Broken)
      requires Valid() && Arrivals(site.dir.files, found)
      modifies this`clock, site`dir
      ensures Valid() && broke == broken.Some?
      ensures Taking(old(site.dir), site.dir, ByName(found), most, taken, seen, won, broken,
                     old(ChancesOf(site.dir, site.AnswersNow(), listed, found)), claimant)
      ensures forall d | d in won || (broken.Some? && d == broken.value.0) ::
                && d in ByName(found) && site.Asked(Finished, d)
                && if d in site.finished then site.finished[d] else d in listed && listed[d] == ByName(found)[d]
      ensures InOrder(found, taken, won, broken, old(ChancesOf(site.dir, site.AnswersNow(), listed, found)))
      ensures forall d | d in won :: won[d] !in held
    {
      taken, seen, broke, won, broken := [], map[], false, map[], None;
      ghost var start, far := site.dir, site.AnswersNow();
      ghost var chances := ChancesOf(start, far, listed, found);
      hide Going, MayArrive, ChancesOf, Arrivals, ClaimOf, DroppedName, ByName;
      GoingBegins(start, far, most, chances);
      assert found[..0] == [];
      for i := 0 to |found|
        invariant Valid() && broke == broken.Some? && site.AnswersNow() == far
        invariant Going(start, site.dir, far, listed, found[..i], most, taken, seen, won, broken, chances, claimant, held.Keys)
      {
        taken, seen, broke, won, broken := TakeAt(site, found, i, most, taken, seen, broke, start, won, broken, chances);
      }
      assert found[..|found|] == found;
      GoingSo(start, site.dir, far, listed, found, most, taken, seen, won, broken, chances);
    }

    lemma GoingBegins(start: Dir, far: Answers, most: nat, chances: Chances)
      ensures Going(start, start, far, listed, [], most, [], map[], map[], None, chances, claimant, held.Keys)
    {
      TakingBegins(start, most, chances, claimant);
      OrderBegins(chances);
      NoneYet(far, listed);
    }

    lemma GoingSo(start: Dir, dir: Dir, far: Answers, listed: map<string, Option<nat>>, found: Found, most: nat, taken: seq<Taken>,
                  seen: map<string, Option<nat>>, won: map<string, string>, broken: Broken, chances: Chances)
      requires Going(start, dir, far, listed, found, most, taken, seen, won, broken, chances, claimant, held.Keys)
      ensures Taking(start, dir, ByName(found), most, taken, seen, won, broken, chances, claimant)
      ensures InOrder(found, taken, won, broken, chances) && forall d | d in won :: won[d] !in held
      ensures forall d | d in won || (broken.Some? && d == broken.value.0) ::
                && d in ByName(found) && (Finished, d) !in far.unasked
                && if d in far.finished then far.finished[d] else d in listed && listed[d] == ByName(found)[d]
    {
      hide Taking, InOrder;
    }

    /** The item at `i`. */
    method TakeAt(site: Memory, found: Found, i: nat, most: nat, taken: seq<Taken>, seen: map<string, Option<nat>>, broke: bool,
                  ghost start: Dir, ghost won: map<string, string>, ghost broken: Broken, ghost chances: Chances)
      returns (taken': seq<Taken>, seen': map<string, Option<nat>>, broke': bool, ghost won': map<string, string>, ghost broken': Broken)
      requires Valid() && broke == broken.Some? && i < |found| && Arrivals(start.files, found)
      requires Going(start, site.dir, site.AnswersNow(), listed, found[..i], most, taken, seen, won, broken, chances, claimant, held.Keys)
      requires chances == ChancesOf(start, site.AnswersNow(), listed, found)
      modifies this`clock, site`dir
      ensures Valid() && broke' == broken'.Some?
      ensures Going(start, site.dir, site.AnswersNow(), listed, found[..i + 1], most, taken', seen', won', broken', chances, claimant, held.Keys)
    {
      hide Taking, MayArrive, ChancesOf, Arrivals, ChancesOn, InOrder, ByName, AllFinished, NewFinished, ClaimOf, DroppedName;
      NextFound(start, site.AnswersNow(), listed, found, i);
      assert found[..i + 1] == found[..i] + [found[i]];
      taken', seen', broke', won', broken' := TakeNext(site, found[i].0, found[i].1, most, taken, seen, broke,
                                                       start, found[..i], won, broken, chances);
      FinishedMore(site.AnswersNow(), listed, ByName(found[..i]), won, broken, won', broken', found[i]);
    }

    lemma NoneYet(far: Answers, listed: map<string, Option<nat>>)
      ensures ByName([]) == map[] && AllFinished(far, listed, map[], map[], None)
    {}

    lemma FinishedMore(far: Answers, listed: map<string, Option<nat>>, looked: map<string, Option<nat>>, won: map<string, string>,
                       broken: Broken, won': map<string, string>, broken': Broken, item: (string, Option<nat>))
      requires AllFinished(far, listed, looked, won, broken) && item.0 !in looked
      requires NewFinished(far, listed, won, broken, won', broken', item)
      ensures AllFinished(far, listed, looked[item.0 := item.1], won', broken')
    {}

    method TakeNext(site: Memory, name: string, stamp: Option<nat>, most: nat, taken: seq<Taken>, seen: map<string, Option<nat>>,
                    broke: bool, ghost start: Dir, ghost before: Found, ghost won: map<string, string>,
                    ghost broken: Broken, ghost chances: Chances)
      returns (taken': seq<Taken>, seen': map<string, Option<nat>>, broke': bool, ghost won': map<string, string>, ghost broken': Broken)
      requires Valid() && broke == broken.Some?
      requires Taking(start, site.dir, ByName(before), most, taken, seen, won, broken, chances, claimant)
      requires InOrder(before, taken, won, broken, chances)
      requires name !in ByName(before) && name in start.files && MayArrive(name) && name != ""
      requires forall x | x in ByName(before) :: MayArrive(x) && x != ""
      requires ChancesOn(chances, start, site.AnswersNow(), listed, (name, stamp))
      requires forall d | d in won :: won[d] !in held
      modifies this`clock, site`dir
      ensures Valid() && broke' == broken'.Some?
      ensures Taking(start, site.dir, ByName(before)[name := stamp], most, taken', seen', won', broken', chances, claimant)
      ensures InOrder(before + [(name, stamp)], taken', won', broken', chances)
      ensures forall d | d in won' :: won'[d] !in held
      ensures NewFinished(site.AnswersNow(), listed, won, broken, won', broken', (name, stamp))
    {
      hide Took, WrittenFor, Taking, MayArrive, WinnableIn, FailsIn, RenamableIn, LeavesIn, FinishedIn, ChancesOn, TurnOf, ByName, InOrder, AllCame;
      ghost var looked := ByName(before);
      TakenCount(start, site.dir, looked, most, taken, seen, won, broken, chances, claimant);
      AllCameSo(before, start, site.dir, most, taken, seen, won, broken, chances, claimant, name);
      taken', seen', broke', won', broken' := taken, seen, broke, won, broken;
      if broke || |taken| >= most {
        seen' := seen[name := stamp];
        TakingLeft(start, site.dir, looked, most, taken, seen, won, broken, chances, claimant, name, stamp);
        OrderPassed(before, taken, won, broken, chances, (name, stamp));
        return;
      }
      ghost var was := site.dir;
      StillSo(start, was, looked, most, taken, seen, won, chances, name, stamp, site.AnswersNow());
      var claimed, failed;
      ghost var c;
      claimed, failed, c := TakeOne(site, name, stamp);
      NotLying(start, was, won, name, c, claimant);
      if claimed.Some? {
        taken', won' := taken + [Taken(name, claimed.value)], won[name := claimed.value];
        TakingWon(start, was, looked, most, taken, seen, won, chances, claimant, name, stamp, c);
        OrderWon(before, taken, won, chances, (name, stamp), c);
        assert site.dir == was.(files := Moved(was.files, name, c));
      } else {
        seen' := seen[name := stamp];
        if failed {
          broke', broken' := true, Some((name, c));
          TakingBroken(start, was, site.dir, looked, most, taken, seen, won, chances, claimant, name, stamp, c);
          OrderBroken(before, taken, won, chances, (name, stamp), c);
        } else {
          assert site.dir == was;
          TakingLeft(start, site.dir, looked, most, taken, seen, won, broken, chances, claimant, name, stamp);
          OrderPassed(before, taken, won, broken, chances, (name, stamp));
        }
      }
    }

    /** What the chances say of an item not looked at yet is so of it still; and of
        one not won no claim that is not to fail renames it. */
    lemma StillSo(start: Dir, dir: Dir, looked: map<string, Option<nat>>, most: nat, taken: seq<Taken>, seen: map<string, Option<nat>>,
                  won: map<string, string>, chances: Chances, name: string, stamp: Option<nat>, far: Answers)
      requires Taking(start, dir, looked, most, taken, seen, won, None, chances, claimant)
      requires name !in looked && name in start.files && MayArrive(name) && name != ""
      requires forall x | x in looked :: MayArrive(x) && x != ""
      requires ChancesOn(chances, start, far, listed, (name, stamp))
      ensures name in dir.files && |won| == |taken|
      ensures Took(start.files, dir.files, won, None) && forall x | x in won :: MayArrive(x)
      ensures name in chances.could <==> FinishedIn(far, listed, (name, stamp)) && WinnableIn(dir, far, name, stamp)
      ensures name in chances.fails <==> FinishedIn(far, listed, (name, stamp)) && FailsIn(dir, far, name, stamp)
      ensures name in chances.renamable <==> FinishedIn(far, listed, (name, stamp)) && RenamableIn(dir, far, name, stamp)
      ensures name in chances.leaves <==> FinishedIn(far, listed, (name, stamp)) && LeavesIn(dir, far, name)
      ensures name in chances.leaves ==> name in chances.fails
      ensures name in chances.could ==> name in chances.renamable && name !in chances.fails
      ensures name in chances.renamable && name !in chances.fails ==> name in chances.could
    {
      hide Took, Taking, MayArrive, WrittenFor, TurnOf, WinnableIn, FailsIn, RenamableIn, LeavesIn, FinishedIn;
      WonBefore(start, dir, looked, most, taken, seen, won, chances, name);
      SameChance(start, dir, won, claimant, far, name, stamp);
      WonOrFails(dir, far, name, stamp);
    }

    lemma WonBefore(start: Dir, dir: Dir, looked: map<string, Option<nat>>, most: nat, taken: seq<Taken>,
                    seen: map<string, Option<nat>>, won: map<string, string>, chances: Chances, name: string)
      requires Taking(start, dir, looked, most, taken, seen, won, None, chances, claimant) && name !in looked
      requires forall x | x in looked :: MayArrive(x) && x != ""
      ensures name !in won && |won| == |taken| && dir.turns == start.turns && Took(start.files, dir.files, won, None)
      ensures forall x | x in won :: MayArrive(x) && WrittenFor(x, claimant, won[x])
    {
      hide Took, MayArrive, WrittenFor;
    }

    /** At most `most` of what lies here finished, claimed and handed over, the rest
        left to the next listing: after what this node held is recovered, where
        that is still to do, and what waits for its name is settled. A failed
        recovery is left to the next receive, and this one goes on. */
    method Take(site: Memory, most: nat, inFlight: set<string>) returns (r: Result<seq<Taken>>, ghost course: Course)
      requires Valid() && Reserved(site.dir.files)
      modifies this`recovering, this`clock, this`listed, this`held, refused, site`dir
      ensures Valid() && Reserved(site.dir.files)
      ensures if old(recovering)
              then Untouched(old(site.dir), course.recovered, claimant, inFlight)
                   && (!recovering <==> Recoverable(old(site.dir), claimant, inFlight, site.unasked))
                   && (!recovering ==> RecoveredTo(old(site.dir), course.recovered, claimant, inFlight, course.kept, site.unasked))
                   && (recovering ==> PartlyCleared(old(site.dir), course.recovered, claimant, inFlight))
                   && course.waiting == WithKept(old(held), course.kept)
              else course.recovered == old(site.dir) && course.waiting == old(held) && course.kept == {} && !recovering
      ensures Settling(course.recovered.files, course.before.files, course.waiting.Keys, held.Keys, {}, site.unasked)
      ensures forall c | c in held :: c in course.waiting && held[c] == course.waiting[c]
      ensures Recalls(course.recovered.files, course.waiting, held.Keys, site.AnswersNow(), old(refused.held), course.hidden)
      ensures course.before.turns == course.recovered.turns
      ensures forall d | d in course.won :: course.won[d] !in held
      ensures r.Err? ==> r.retryable
      ensures !site.Asked(List, "") ==> r.Err? && site.dir == course.before && listed == old(listed) && refused.held == course.hidden
      ensures site.Asked(List, "") ==>
                && ListsOf(course.before.files, site.unstamped, course.listing)
                && refused.held == Still(course.hidden, Arriving(course.listing), NameOf, StampOf)
                && (r.Err? <==> course.broken.Some? && course.won == map[])
                && Taking(course.before, site.dir, ByName(FoundIn(course.listing, course.hidden)), most, if r.Ok? then r.value else [],
                          listed, course.won, course.broken,
                          ChancesOf(course.before, site.AnswersNow(), old(listed), FoundIn(course.listing, course.hidden)), claimant)
                && InOrder(FoundIn(course.listing, course.hidden), if r.Ok? then r.value else [], course.won, course.broken,
                           ChancesOf(course.before, site.AnswersNow(), old(listed), FoundIn(course.listing, course.hidden)))
      ensures forall d | d in course.won || (course.broken.Some? && d == course.broken.value.0) ::
                && site.Asked(Finished, d)
                && if d in site.finished then site.finished[d]
                   else d in old(listed) && old(listed)[d] == StampIn(course.before.files, site.unstamped, d)
    {
      hide Settling, Taking, Untouched, PartlyCleared, RecoveredTo, Recoverable, Recalls, InOrder, ByName, FoundIn, ListsOf, Reserved, WithKept,
           Arriving, Arrivals, ChancesOf, ClaimOf, MayArrive, DroppedName;
      ghost var recovered, kept, waiting := Begin(site, inFlight);
      ghost var before, hidden, was := site.dir, refused.held, listed;
      var listing := site.Listed();
      if listing.Err? {
        course := Course(recovered, kept, waiting, before, hidden, [], map[], None);
        return Err(listing.retryable), course;
      }
      var found := refused.Sift(Arriving(listing.value), NameOf, StampOf);
      NoneUnnamed(before.files);
      FoundIs(listing.value, hidden);
      FoundListed(before.files, site.unstamped, listing.value, hidden);
      var taken, seen, broke;
      ghost var won, broken;
      taken, seen, broke, won, broken := TakeFound(site, found, most);
      ReservedStill(before, site.dir, found, most, taken, seen, won, broken, ChancesOf(before, site.AnswersNow(), listed, found));
      course := Course(recovered, kept, waiting, before, hidden, listing.value, won, broken);
      listed := seen;
      r := if broke && taken == [] then Err(true) else Ok(taken);
    }

    /** What a receive does before it lists: the recovery where that is still to do,
        and what is held settled. */
    method Begin(site: Memory, inFlight: set<string>)
      returns (ghost recovered: Dir, ghost kept: set<string>, ghost waiting: map<string, bool>)
      requires Valid() && Reserved(site.dir.files)
      modifies this`recovering, this`held, refused, site`dir
      ensures Valid() && Reserved(site.dir.files)
      ensures if old(recovering)
              then Untouched(old(site.dir), recovered, claimant, inFlight)
                   && (!recovering <==> Recoverable(old(site.dir), claimant, inFlight, site.unasked))
                   && (!recovering ==> RecoveredTo(old(site.dir), recovered, claimant, inFlight, kept, site.unasked))
                   && (recovering ==> PartlyCleared(old(site.dir), recovered, claimant, inFlight))
                   && waiting == WithKept(old(held), kept)
              else recovered == old(site.dir) && waiting == old(held) && kept == {} && !recovering
      ensures Settling(recovered.files, site.dir.files, waiting.Keys, held.Keys, {}, site.unasked)
      ensures forall c | c in held :: c in waiting && held[c] == waiting[c]
      ensures Recalls(recovered.files, waiting, held.Keys, site.AnswersNow(), old(refused.held), refused.held)
      ensures site.dir.turns == recovered.turns
    {
      hide Settling, Untouched, PartlyCleared, RecoveredTo, Recoverable, Recalls, Reserved, WithKept, ClaimOf, MayArrive, DroppedName;
      kept := {};
      if recovering {
        NoneKept(held, {});
        var done;
        done, kept := Recover(site, inFlight);
        recovering := done.Err?;
      }
      recovered, waiting := site.dir, held;
      Settle(site);
      SettlingReserved(recovered.files, site.dir.files, waiting.Keys, held.Keys, site.unasked);
    }

    lemma ReservedStill(start: Dir, dir: Dir, found: Found, most: nat, taken: seq<Taken>, seen: map<string, Option<nat>>,
                        won: map<string, string>, broken: Broken, chances: Chances)
      requires Valid() && Reserved(start.files) && Arrivals(start.files, found)
      requires Taking(start, dir, ByName(found), most, taken, seen, won, broken, chances, claimant)
      ensures Reserved(dir.files) && (won == map[] <==> taken == [])
    {
      assert |won| == |taken|;
      forall n | n in dir.files ensures n != "" && (ClaimOf(n).Some? ==> MayArrive(DroppedName(n))) {
        if n !in start.files {
          var d := ClaimedFrom(start, dir, won, broken, n);
          FoundByName(start.files, found, d);
          ClaimedNames(d, n);
        }
      }
    }

    lemma ClaimedFrom(start: Dir, dir: Dir, won: map<string, string>, broken: Broken, n: string) returns (d: string)
      requires Took(start.files, dir.files, won, broken) && n in dir.files && n !in start.files
      ensures (d in won && won[d] == n) || (broken == Some((d, n)))
    {
      if broken.Some? && n == broken.value.1 { d := broken.value.0; } else { d :| d in won && won[d] == n; }
    }

    lemma ClaimedNames(dropped: string, claimed: string)
      requires Valid() && dropped != "" && WrittenFor(dropped, claimant, claimed)
      ensures claimed != "" && ClaimedBy(claimed, claimant) && ClaimOf(claimed).Some? && DroppedName(claimed) == dropped
    {
      var t :| claimed == ClaimName(dropped, claimant, Decimal(t));
      DecimalReadsBack(t);
      ClaimReadsBack(dropped, claimant, Decimal(t));
    }

    // ------------------------------------------------------------ what is held

    method SettleOne(site: Memory, c: string)
      requires Valid() && c in held
      modifies this`held, refused, site`dir
      ensures Valid()
      ensures var (after, back) := GivenBack(old(site.dir), c, site.Asked(Operation.Restore, c));
              site.dir == after && held == if back then old(held) - {c} else old(held)
      ensures refused.held ==
              if site.Asked(Operation.Restore, c) && old(held)[c] && Returned(old(site.dir), c, DroppedName(c)).1 == Back
              then RememberedAs(site, old(refused.held), DroppedName(c)) else old(refused.held)
    {
      var back := site.Restore(c, DroppedName(c));
      if back.Err? || back.value == Kept { return; }
      if back.value == Back && held[c] { Remember(site, DroppedName(c)); }
      held := held - {c};
    }

    /** The verdict on a claimed artifact: deleted where it was accepted, and what
        waited for its name settled; otherwise given back. */
    method Told(site: Memory, claimed: string, verdict: Option<Verdict>) returns (r: Result<()>)
      requires Valid()
      requires ClaimOf(claimed).Some? && MayArrive(DroppedName(claimed))
      modifies this`held, refused, site`dir
      ensures Valid()
      ensures verdict == Some(Accepted) ==>
                if r.Ok? then site.Asked(Operation.Delete, claimed) && Settling(Deleted(old(site.dir), claimed).files,
                                site.dir.files, old(held).Keys, held.Keys, {}, site.unasked)
                                && site.dir.turns == old(site.dir).turns
                                && (forall c | c in held :: c in old(held) && held[c] == old(held)[c])
                                && Recalls(Deleted(old(site.dir), claimed).files, old(held), held.Keys, site.AnswersNow(),
                                           old(refused.held), refused.held)
                else !site.Asked(Operation.Delete, claimed) && r.retryable && site.dir == old(site.dir) && held == old(held)
                     && refused.held == old(refused.held)
      ensures verdict != Some(Accepted) ==>
                && (site.dir, r.Ok?) == GivenBack(old(site.dir), claimed, site.Asked(Operation.Restore, claimed))
                && held == (if r.Ok? then old(held) else old(held)[claimed := verdict.Some? && verdict.value.Refused?]) && (r.Err? ==> r.retryable)
      ensures verdict != Some(Accepted) ==>
                var remembers := r.Ok? && verdict.Some? && verdict.value.Refused? && Returned(old(site.dir), claimed, DroppedName(claimed)).1 == Back;
                refused.held == if remembers then RememberedAs(site, old(refused.held), DroppedName(claimed)) else old(refused.held)
    {
      if verdict == Some(Accepted) {
        var deleted := site.Delete(claimed);
        if deleted.Err? { return Err(deleted.retryable); }
        Settle(site);
        return Ok(());
      }
      r := GiveBack(site, claimed, IsRefusal(verdict));
    }

    // ---------------------------------------------------------- a node starting

    /** Every sent file left by this node removed, none a send is still writing. */
    method RemoveUnfinished(site: Memory, names: seq<string>, inFlight: set<string>) returns (r: Result<()>)
      modifies site`dir
      ensures site.dir.turns == old(site.dir).turns
      ensures forall n | n in site.dir.files :: n in old(site.dir).files && site.dir.files[n] == old(site.dir).files[n]
      ensures forall n | n in old(site.dir).files && n !in site.dir.files :: n in names
      ensures r.Err? ==> r.retryable
      ensures r.Ok? <==> forall n | n in names && SenderOf(n) == Some(claimant) && n !in inFlight :: site.Asked(Operation.Delete, n)
      ensures r.Ok? ==> site.dir.files == old(site.dir).files - (set n | n in names && SenderOf(n) == Some(claimant) && n !in inFlight)
      ensures forall n | n in old(site.dir).files && (SenderOf(n) != Some(claimant) || n in inFlight) ::
                n in site.dir.files && site.dir.files[n] == old(site.dir).files[n]
    {
      hide SenderOf;
      for i := 0 to |names|
        invariant site.dir.turns == old(site.dir).turns
        invariant site.dir.files == old(site.dir).files - (set n | n in names[..i] && SenderOf(n) == Some(claimant) && n !in inFlight)
        invariant forall n | n in names[..i] && SenderOf(n) == Some(claimant) && n !in inFlight :: site.Asked(Operation.Delete, n)
      {
        if SenderOf(names[i]) == Some(claimant) && names[i] !in inFlight {
          var deleted := site.Delete(names[i]);
          if deleted.Err? { return Err(deleted.retryable); }
        }
      }
      assert names[..|names|] == names;
      r := Ok(());
    }

    /** Every turn this node left dropped, and no other's. */
    method DropTurns(site: Memory) returns (r: Result<()>)
      modifies site`dir
      ensures site.dir.files == old(site.dir).files
      ensures (r.Ok? <==> TurnsRecoverable(old(site.dir).turns, claimant, site.unasked)) && (r.Err? ==> r.retryable)
      ensures r.Ok? ==> site.dir.turns == TurnsOfOthers(old(site.dir).turns, claimant)
      ensures forall t | t in site.dir.turns :: t in old(site.dir).turns && site.dir.turns[t] == old(site.dir).turns[t]
      ensures forall t | t in old(site.dir).turns && old(site.dir).turns[t] != claimant ::
                t in site.dir.turns && site.dir.turns[t] == old(site.dir).turns[t]
    {
      var turns := site.Turns();
      if turns.Err? { return Err(turns.retryable); }
      for i := 0 to |turns.value|
        invariant site.dir.files == old(site.dir).files
        invariant site.dir.turns ==
                  map t | t in old(site.dir).turns && !(t in turns.value[..i] && old(site.dir).turns[t] == claimant) ::
                    old(site.dir).turns[t]
        invariant forall t | t in turns.value[..i] ::
                    site.Asked(Operation.Holder, t) && (old(site.dir).turns[t] == claimant ==> site.Asked(Operation.DropTurn, t))
      {
        var t := turns.value[i];
        assert t in old(site.dir).turns && (t in site.dir.turns ==> site.dir.turns[t] == old(site.dir).turns[t]);
        assert turns.value[..i + 1] == turns.value[..i] + [t];
        var holder := site.Holder(t);
        if holder.Err? { return Err(holder.retryable); }
        if holder.value == Some(claimant) {
          var dropped := site.DropTurn(t);
          if dropped.Err? { return Err(dropped.retryable); }
        }
      }
      assert turns.value[..|turns.value|] == turns.value;
      r := Ok(());
    }

    /** The names a listing finds claimed as this node, and the others. */
    method Partition(listed: seq<(string, Option<nat>)>) returns (mine: set<string>, others: seq<string>)
      ensures forall n :: n in mine <==> ClaimedBy(n, claimant) && exists i :: 0 <= i < |listed| && listed[i].0 == n
      ensures forall n :: n in others <==> !ClaimedBy(n, claimant) && exists i :: 0 <= i < |listed| && listed[i].0 == n
    {
      hide ClaimOf;
      mine, others := {}, [];
      for i := 0 to |listed|
        invariant forall n :: n in mine <==> ClaimedBy(n, claimant) && exists j :: 0 <= j < i && listed[j].0 == n
        invariant forall n :: n in others <==> !ClaimedBy(n, claimant) && exists j :: 0 <= j < i && listed[j].0 == n
      {
        if ClaimedBy(listed[i].0, claimant) { mine := mine + {listed[i].0}; } else { others := others + [listed[i].0]; }
      }
    }

    /** What this node left claimed, to be given back; the sends it left unfinished
        and the turns it left removed, whole where nothing failed. */
    method Left(site: Memory, inFlight: set<string>) returns (r: Result<set<string>>)
      requires Valid() && Reserved(site.dir.files)
      modifies site`dir
      ensures PartlyCleared(old(site.dir), site.dir, claimant, inFlight) && Reserved(site.dir.files)
      ensures (r.Ok? <==> Recoverable(old(site.dir), claimant, inFlight, site.unasked)) && (r.Err? ==> r.retryable)
      ensures r.Ok? ==> r.value == MineOf(old(site.dir).files, claimant)
      ensures r.Ok? ==> forall c | c in r.value :: ClaimOf(c).Some? && MayArrive(DroppedName(c))
      ensures r.Ok? ==> site.dir == Dir(old(site.dir).files - LeftOf(old(site.dir).files, claimant, inFlight),
                                        TurnsOfOthers(old(site.dir).turns, claimant))
    {
      var listed := site.Listed();
      if listed.Err? { return Err(listed.retryable); }
      var mine, others := Partition(listed.value);
      Partitioned(site, listed.value, mine, others);
      hide ClaimedBy, SenderOf, Reserved, ClaimOf, MayArrive, DroppedName, PartlyCleared, LeftOf, TurnsOfOthers;
      LeftAmong(site.dir.files, others, inFlight);
      var removed := RemoveUnfinished(site, others, inFlight);
      ReservedWithin(old(site.dir).files, site.dir.files);
      RemovedOnly(old(site.dir), site.dir, inFlight);
      if removed.Err? { return Err(removed.retryable); }
      var turns := DropTurns(site);
      RemovedOnly(old(site.dir), site.dir, inFlight);
      if turns.Err? { return Err(turns.retryable); }
      r := Ok(mine);
    }

    lemma RemovedOnly(before: Dir, after: Dir, inFlight: set<string>)
      requires forall n | n in after.files :: n in before.files && after.files[n] == before.files[n]
      requires forall n | n in before.files && n !in after.files ::
                 !ClaimedBy(n, claimant) && SenderOf(n) == Some(claimant) && n !in inFlight
      requires forall t | t in after.turns :: t in before.turns && after.turns[t] == before.turns[t]
      requires forall t | t in before.turns && t !in after.turns :: before.turns[t] == claimant
      ensures PartlyCleared(before, after, claimant, inFlight)
    {
      hide ClaimedBy, SenderOf;
    }

    lemma PartlyUntouched(before: Dir, after: Dir, inFlight: set<string>)
      requires PartlyCleared(before, after, claimant, inFlight)
      ensures Untouched(before, after, claimant, inFlight)
    {
      hide ClaimedBy, SenderOf;
    }

    /** A node starting: what it left unfinished and the turns it left are gone,
        what it left claimed goes back where its name is free, and is held
        where it is not; nothing else is touched. */
    method Recover(site: Memory, inFlight: set<string>) returns (r: Result<()>, ghost kept: set<string>)
      requires Valid() && Reserved(site.dir.files)
      modifies this`held, refused, site`dir
      ensures Valid()
      ensures (r.Ok? <==> Recoverable(old(site.dir), claimant, inFlight, site.unasked)) && (r.Err? ==> r.retryable)
      ensures r.Ok? ==> RecoveredTo(old(site.dir), site.dir, claimant, inFlight, kept, site.unasked) && held == WithKept(old(held), kept)
      ensures refused.held == old(refused.held)
      ensures forall c | c in old(held) || c in kept :: c in held && held[c] == (c !in kept && old(held)[c])
      ensures r.Err? ==> held == old(held) && kept == {} && PartlyCleared(old(site.dir), site.dir, claimant, inFlight)
      ensures Untouched(old(site.dir), site.dir, claimant, inFlight) && Reserved(site.dir.files)
    {
      kept := {};
      hide Untouched, PartlyCleared, Settling, Reserved, ClaimOf, MayArrive, MineOf, LeftOf;
      var left := Left(site, inFlight);
      PartlyUntouched(old(site.dir), site.dir, inFlight);
      if left.Err? { return Err(left.retryable), kept; }
      ghost var cleared := site.dir.files;
      kept := ReturnAll(site, left.value);
      SettlingReserved(cleared, site.dir.files, left.value, kept, site.unasked);
      ReturnedUntouched(old(site.dir), site.dir, inFlight, kept, site.unasked);
      r := Ok(());
    }

    lemma Partitioned(site: Memory, listed: seq<(string, Option<nat>)>, mine: set<string>, others: seq<string>)
      requires site.Lists(listed) && Reserved(site.dir.files)
      requires forall n :: n in mine <==> ClaimedBy(n, claimant) && exists i :: 0 <= i < |listed| && listed[i].0 == n
      requires forall n :: n in others <==> !ClaimedBy(n, claimant) && exists i :: 0 <= i < |listed| && listed[i].0 == n
      ensures mine == MineOf(site.dir.files, claimant)
      ensures forall n :: n in others <==> n in site.dir.files && !ClaimedBy(n, claimant)
      ensures forall c | c in mine :: ClaimOf(c).Some? && MayArrive(DroppedName(c))
    {
      hide ClaimOf, MayArrive;
    }

    lemma LeftAmong(files: map<string, File>, others: seq<string>, inFlight: set<string>)
      requires forall n :: n in others <==> n in files && !ClaimedBy(n, claimant)
      ensures (set n | n in others && SenderOf(n) == Some(claimant) && n !in inFlight) == LeftOf(files, claimant, inFlight)
    {
      hide ClaimedBy, SenderOf;
    }

    lemma ReturnedUntouched(before: Dir, after: Dir, inFlight: set<string>, kept: set<string>, unasked: set<(Operation, string)>)
      requires RecoveredTo(before, after, claimant, inFlight, kept, unasked)
      ensures Untouched(before, after, claimant, inFlight)
    {
      hide ClaimOf, MayArrive, ClaimedBy, SenderOf, DroppedName;
    }

    /** Each of `mine` given back; those that could not go back now are held. */
    method ReturnAll(site: Memory, mine: set<string>) returns (ghost kept: set<string>)
      requires Valid() && forall c | c in mine :: ClaimOf(c).Some? && MayArrive(DroppedName(c))
      modifies this`held, refused, site`dir
      ensures Valid() && held == WithKept(old(held), kept) && site.dir.turns == old(site.dir).turns
      ensures refused.held == old(refused.held)
      ensures Settling(old(site.dir).files, site.dir.files, mine, kept, {}, site.unasked)
    {
      SettlingBegins(site.dir.files, mine, site.unasked);
      hide Settling, ClaimOf, MayArrive, DroppedName, WithKept;
      kept := mine;
      ghost var before, was := site.dir.files, held;
      var left := mine;
      NoneKept(was, mine);
      while left != {}
        invariant Valid() && left <= kept && left <= mine && held == WithKept(was, kept - left)
        invariant refused.held == old(refused.held)
        invariant site.dir.turns == old(site.dir).turns
        invariant Settling(before, site.dir.files, mine, kept, left, site.unasked)
        decreases |left|
      {
        var c :| c in left;
        kept := ReturnNext(site, c, before, mine, kept, left, was);
        left := left - {c};
      }
      assert kept - {} == kept;
    }

    lemma NoneKept(was: map<string, bool>, mine: set<string>)
      ensures WithKept(was, mine - mine) == was && mine - mine == {}
    {}

    method ReturnNext(site: Memory, c: string, ghost before: map<string, File>, ghost mine: set<string>,
                      ghost kept: set<string>, ghost left: set<string>, ghost was: map<string, bool>) returns (ghost kept': set<string>)
      requires Valid() && ClaimOf(c).Some? && MayArrive(DroppedName(c)) && c in left && left <= kept
      requires Settling(before, site.dir.files, mine, kept, left, site.unasked) && held == WithKept(was, kept - left)
      modifies this`held, refused, site`dir
      ensures Valid() && left - {c} <= kept' && held == WithKept(was, kept' - (left - {c})) && refused.held == old(refused.held)
      ensures site.dir.turns == old(site.dir).turns
      ensures Settling(before, site.dir.files, mine, kept', left - {c}, site.unasked)
    {
      hide Settling, ClaimOf, MayArrive, DroppedName;
      SettlingStep(before, site.dir, mine, kept, left, c, site.unasked);
      var back := GiveBack(site, c, false);
      kept' := if back.Ok? then kept - {c} else kept;
      HeldOn(was, kept, left, c);
    }

    lemma HeldOn(was: map<string, bool>, kept: set<string>, left: set<string>, c: string)
      requires c in left && left <= kept
      ensures WithKept(was, kept - left) == WithKept(was, (kept - {c}) - (left - {c}))
      ensures WithKept(was, kept - left)[c := false] == WithKept(was, kept - (left - {c}))
      ensures left - {c} <= kept - {c}
    {
      assert kept - left == (kept - {c}) - (left - {c});
    }

    /** One of those still to be tried, tried. */
    method SettleNext(site: Memory, c: string, ghost before: map<string, File>, ghost was: map<string, bool>, ghost left: set<string>,
                      ghost memory: map<string, nat>)
      requires Valid() && c in held && c in left && forall x | x in held :: x in was && held[x] == was[x]
      requires Recalls(before, was, held.Keys, site.AnswersNow(), memory, refused.held)
      requires Settling(before, site.dir.files, was.Keys, held.Keys, left, site.unasked)
      modifies this`held, refused, site`dir
      ensures Valid() && held.Keys <= old(held).Keys && old(held).Keys - {c} <= held.Keys
      ensures site.dir.turns == old(site.dir).turns
      ensures forall c | c in held :: held[c] == old(held)[c]
      ensures Recalls(before, was, held.Keys, site.AnswersNow(), memory, refused.held)
      ensures Settling(before, site.dir.files, was.Keys, held.Keys, left - {c}, site.unasked)
    {
      hide Settling, ClaimOf, MayArrive, DroppedName, Recalls;
      SettlingStep(before, site.dir, was.Keys, held.Keys, left, c, site.unasked);
      RecallsStep(before, site.dir, was, held.Keys, left, c, site.AnswersNow(), memory, refused.held);
      SettleOne(site, c);
      assert (old(held) - {c}).Keys == old(held).Keys - {c};
    }

    /** Every held artifact whose dropped name is free goes back under it, over
        nothing; the others wait on. */
    method Settle(site: Memory)
      requires Valid()
      modifies this`held, refused, site`dir
      ensures Valid()
      ensures Settling(old(site.dir).files, site.dir.files, old(held).Keys, held.Keys, {}, site.unasked)
      ensures site.dir.turns == old(site.dir).turns
      ensures forall c | c in held :: c in old(held) && held[c] == old(held)[c]
      ensures Recalls(old(site.dir).files, old(held), held.Keys, site.AnswersNow(), old(refused.held), refused.held)
    {
      SettlingBegins(site.dir.files, held.Keys, site.unasked);
      RecallsNone(site.dir.files, held, site.AnswersNow(), refused.held);
      hide Settling, ClaimOf, MayArrive, DroppedName, Recalls;
      var left := held.Keys;
      ghost var was, before := held, site.dir.files;
      while left != {}
        invariant Valid() && left <= held.Keys
        invariant site.dir.turns == old(site.dir).turns
        invariant forall c | c in held :: c in was && held[c] == was[c]
        invariant Recalls(before, was, held.Keys, site.AnswersNow(), old(refused.held), refused.held)
        invariant Settling(before, site.dir.files, was.Keys, held.Keys, left, site.unasked)
        decreases |left|
      {
        var c :| c in left;
        SettleNext(site, c, before, was, left, old(refused.held));
        left := left - {c};
      }
    }
  }

  /** Whether two memories say the same of `n`. */
  predicate SameAt(one: map<string, nat>, other: map<string, nat>, n: string) {
    if n in one then n in other && other[n] == one[n] else n !in other
  }

  /** Whether `c` lay waiting as refused and went back, its stamp there to be had. */
  predicate WentRefused(before: map<string, File>, was: map<string, bool>, now: set<string>, far: Answers, c: string) {
    && c in was && was[c] && c !in now && c in before
    && (Operation.Stamp, DroppedName(c)) !in far.unasked && DroppedName(c) !in far.unstamped
  }

  /** What returns make of the memory: what was refused and went back is remembered
      as it lies, and of every other name it says what it said. */
  ghost predicate Recalls(before: map<string, File>, was: map<string, bool>, now: set<string>, far: Answers,
                          one: map<string, nat>, other: map<string, nat>) {
    && (forall c | WentRefused(before, was, now, far, c) :: DroppedName(c) in other && other[DroppedName(c)] == before[c].stamp)
    && forall n :: SameAt(one, other, n) || exists c :: WentRefused(before, was, now, far, c) && DroppedName(c) == n
  }

  lemma RecallsNone(before: map<string, File>, was: map<string, bool>, far: Answers, memory: map<string, nat>)
    ensures Recalls(before, was, was.Keys, far, memory, memory)
  {}

  /** What trying one more makes of the memory. */
  function Recalled(dir: Dir, refused: bool, c: string, far: Answers, memory: map<string, nat>): map<string, nat> {
    var d := DroppedName(c);
    if (Operation.Restore, c) !in far.unasked && refused && Returned(dir, c, d).1 == Back && c in dir.files
       && (Operation.Stamp, d) !in far.unasked && d !in far.unstamped
    then memory[d := dir.files[c].stamp] else memory
  }

  lemma RecallsStep(before: map<string, File>, dir: Dir, was: map<string, bool>, now: set<string>, left: set<string>, c: string,
                    far: Answers, one: map<string, nat>, other: map<string, nat>)
    requires Settling(before, dir.files, was.Keys, now, left, far.unasked) && c in left
    requires Recalls(before, was, now, far, one, other)
    ensures var back := GivenBack(dir, c, (Operation.Restore, c) !in far.unasked).1;
            Recalls(before, was, if back then now - {c} else now, far, one, Recalled(dir, was[c], c, far, other))
  {
    hide ClaimOf, MayArrive, DroppedName;
    var back := GivenBack(dir, c, (Operation.Restore, c) !in far.unasked).1;
    var now', other' := if back then now - {c} else now, Recalled(dir, was[c], c, far, other);
    assert Stays(before, dir.files, c);
    forall x | WentRefused(before, was, now', far, x)
      ensures DroppedName(x) in other' && other'[DroppedName(x)] == before[x].stamp
    {
      if x != c {
        assert WentRefused(before, was, now, far, x) && WentBack(before, dir.files, x);
      }
    }
    forall n ensures SameAt(one, other', n) || exists x :: WentRefused(before, was, now', far, x) && DroppedName(x) == n {
      if SameAt(one, other, n) {
        assert other' != other && n == DroppedName(c) ==> WentRefused(before, was, now', far, c);
      } else {
        var x :| WentRefused(before, was, now, far, x) && DroppedName(x) == n;
        assert WentRefused(before, was, now', far, x);
      }
    }
  }

  /** What was waiting is where it was, its name taken or its return not to be asked. */
  ghost predicate Waits(before: map<string, File>, after: map<string, File>, c: string, unasked: set<(Operation, string)>) {
    Stays(before, after, c) && ((Operation.Restore, c) !in unasked ==> DroppedName(c) in after)
  }

  predicate Stays(before: map<string, File>, after: map<string, File>, n: string) {
    if n in before then n in after && after[n] == before[n] else n !in after
  }

  ghost predicate WentBack(before: map<string, File>, after: map<string, File>, c: string) {
    && c !in after && DroppedName(c) !in before
    && (c in before ==> DroppedName(c) in after && after[DroppedName(c)] == before[c])
  }

  /** The returns of `was` made so far, those of `left` still to be tried. */
  ghost predicate Settling(before: map<string, File>, after: map<string, File>, was: set<string>, now: set<string>,
                           left: set<string>, unasked: set<(Operation, string)>) {
    && left <= now <= was
    && (forall c | c in was :: ClaimOf(c).Some? && MayArrive(DroppedName(c)))
    && (forall n | n in before && n !in was :: n in after && after[n] == before[n])
    && (forall c | c in now && c !in left :: Waits(before, after, c, unasked))
    && (forall c | c in left :: Stays(before, after, c))
    && (forall c | c in was && c !in now :: WentBack(before, after, c) && (Operation.Restore, c) !in unasked)
    && (forall n | n in after :: n in before || exists c :: c in before && c in was && c !in now && n == DroppedName(c))
  }

  lemma ReservedWithin(before: map<string, File>, after: map<string, File>)
    requires Reserved(before) && forall n | n in after :: n in before
    ensures Reserved(after)
  {
    hide ClaimOf, MayArrive, DroppedName;
  }

  lemma SettlingReserved(before: map<string, File>, after: map<string, File>, was: set<string>, now: set<string>,
                         unasked: set<(Operation, string)>)
    requires Settling(before, after, was, now, {}, unasked) && Reserved(before)
    ensures Reserved(after)
  {
    forall n | n in after ensures n != "" && (ClaimOf(n).Some? ==> MayArrive(DroppedName(n))) {
      if n !in before {
        var c :| c in before && c in was && c !in now && n == DroppedName(c);
        NotItsOwnName(c);
      }
    }
  }

  lemma SettlingBegins(before: map<string, File>, was: set<string>, unasked: set<(Operation, string)>)
    requires forall c | c in was :: ClaimOf(c).Some? && MayArrive(DroppedName(c))
    ensures Settling(before, before, was, was, was, unasked)
  {
    hide ClaimOf, MayArrive, DroppedName;
  }

  lemma SettlingStep(before: map<string, File>, dir: Dir, was: set<string>, now: set<string>,
                     left: set<string>, c: string, unasked: set<(Operation, string)>)
    requires Settling(before, dir.files, was, now, left, unasked) && c in left
    ensures var (after, back) := GivenBack(dir, c, (Operation.Restore, c) !in unasked);
            Settling(before, after.files, was, if back then now - {c} else now, left - {c}, unasked)
  {
    var d := DroppedName(c);
    NoneItsOwnName(was, c);
    hide ClaimOf, MayArrive, DroppedName;
    if (Operation.Restore, c) in unasked || d in dir.files {
      SettlingWaits(before, dir.files, was, now, left, c, unasked);
    } else if c in dir.files {
      SettlingBack(before, dir.files, was, now, left, c, d, unasked);
    } else {
      SettlingGone(before, dir.files, was, now, left, c, unasked);
    }
  }

  lemma NoneItsOwnName(was: set<string>, c: string)
    requires c in was && forall c | c in was :: ClaimOf(c).Some? && MayArrive(DroppedName(c))
    ensures forall c' | c' in was :: DroppedName(c) != c' && DroppedName(c') != c
  {
    forall c' | c' in was ensures DroppedName(c) != c' && DroppedName(c') != c {
      NotItsOwnName(c);
      NotItsOwnName(c');
    }
  }

  lemma SettlingWaits(before: map<string, File>, files: map<string, File>, was: set<string>, now: set<string>,
                      left: set<string>, c: string, unasked: set<(Operation, string)>)
    requires Settling(before, files, was, now, left, unasked) && c in left
    requires (Operation.Restore, c) in unasked || DroppedName(c) in files
    ensures Settling(before, files, was, now, left - {c}, unasked)
  {
    hide ClaimOf, MayArrive, DroppedName;
  }

  lemma SettlingGone(before: map<string, File>, files: map<string, File>, was: set<string>, now: set<string>,
                     left: set<string>, c: string, unasked: set<(Operation, string)>)
    requires Settling(before, files, was, now, left, unasked) && c in left && c !in files && (Operation.Restore, c) !in unasked
    requires DroppedName(c) !in files && forall c' | c' in was :: DroppedName(c) != c'
    ensures Settling(before, files, was, now - {c}, left - {c}, unasked)
  {
    hide ClaimOf, MayArrive, DroppedName;
  }

  lemma SettlingBack(before: map<string, File>, files: map<string, File>, was: set<string>, now: set<string>,
                     left: set<string>, c: string, d: string, unasked: set<(Operation, string)>)
    requires Settling(before, files, was, now, left, unasked) && c in left && c in files && (Operation.Restore, c) !in unasked
    requires d == DroppedName(c) && d !in files
    requires forall c' | c' in was :: d != c' && DroppedName(c') != c
    ensures Settling(before, Moved(files, c, d), was, now - {c}, left - {c}, unasked)
  {
    hide ClaimOf, MayArrive, DroppedName;
    var after := Moved(files, c, d);
    forall n | n in after ensures n in before || exists x :: x in before && x in was && x !in now - {c} && n == DroppedName(x) {
      if n == d {
        assert c in before && c in was && c !in now - {c} && n == DroppedName(c);
      } else if n !in before {
        var x :| x in before && x in was && x !in now && n == DroppedName(x);
        assert x !in now - {c};
      }
    }
    assert d !in was;
    assert d !in before;
    var now', left' := now - {c}, left - {c};
    forall x | x in now' - left' ensures Waits(before, after, x, unasked) {
      assert x in now && x !in left && Waits(before, files, x, unasked);
      assert d != x && DroppedName(x) != c;
    }
    forall x | x in was - now' ensures WentBack(before, after, x) {
      if x != c { assert WentBack(before, files, x) && d != x && DroppedName(x) != c; }
    }
  }

  /** No name that may arrive is a claimed one. */
  lemma NotItsOwnName(c: string)
    requires ClaimOf(c).Some? && MayArrive(DroppedName(c))
    ensures ClaimOf(DroppedName(c)).None? && DroppedName(c) != c
  {}

  // ------------------------------------------------------- what a recovery leaves

  lemma ArrivalsAreNobodys(n: string)
    requires MayArrive(n)
    ensures ClaimOf(n).None? && SenderOf(n).None?
  {}

  /** A file under a name after a recovery lay there before, or came back to it. */
  lemma CameBackOrStayed(before: map<string, File>, after: map<string, File>, was: set<string>, now: set<string>,
                         unasked: set<(Operation, string)>, n: string)
    requires Settling(before, after, was, now, {}, unasked) && n in after
    ensures MayArrive(n) || (n in before && (n in was ==> n in now))
  {
    hide ClaimOf, MayArrive, DroppedName;
    if n !in before {
      var c :| c in before && c in was && c !in now && n == DroppedName(c);
    }
  }

  /** After a node's recovery no turn of it lies there, no send of it but one in
      flight, and no claim of it but one whose name is taken. */
  lemma NothingLeft(before: Dir, after: Dir, who: string, inFlight: set<string>, kept: set<string>, unasked: set<(Operation, string)>)
    requires RecoveredTo(before, after, who, inFlight, kept, unasked)
    ensures forall t | t in after.turns :: after.turns[t] != who
    ensures LeftOf(after.files, who, inFlight) == {}
    ensures MineOf(after.files, who) == kept
    ensures forall c | c in kept && (Operation.Restore, c) !in unasked :: DroppedName(c) in after.files
  {
    hide ClaimOf, MayArrive, DroppedName, SenderOf, ClaimedBy, Settling;
    forall n | n in after.files ensures n !in LeftOf(after.files, who, inFlight) && (ClaimedBy(n, who) ==> n in kept) {
      NothingLeftUnder(before, after, who, inFlight, kept, unasked, n);
    }
    forall c | c in kept
      ensures c in MineOf(after.files, who) && ((Operation.Restore, c) !in unasked ==> DroppedName(c) in after.files)
    {
      KeptLies(before, after, who, inFlight, kept, unasked, c);
    }
  }

  lemma NothingLeftUnder(before: Dir, after: Dir, who: string, inFlight: set<string>, kept: set<string>,
                         unasked: set<(Operation, string)>, n: string)
    requires RecoveredTo(before, after, who, inFlight, kept, unasked) && n in after.files
    ensures n !in LeftOf(after.files, who, inFlight) && (ClaimedBy(n, who) ==> n in kept)
  {
    CameBackOrStayed(before.files - LeftOf(before.files, who, inFlight), after.files, MineOf(before.files, who), kept, unasked, n);
    if MayArrive(n) { ArrivalsAreNobodys(n); }
    hide ClaimOf, MayArrive, DroppedName, SenderOf, Settling;
  }

  lemma KeptLies(before: Dir, after: Dir, who: string, inFlight: set<string>, kept: set<string>,
                 unasked: set<(Operation, string)>, c: string)
    requires RecoveredTo(before, after, who, inFlight, kept, unasked) && c in kept
    ensures c in MineOf(after.files, who) && ((Operation.Restore, c) !in unasked ==> DroppedName(c) in after.files)
  {
    hide ClaimOf, MayArrive, DroppedName, SenderOf, ClaimedBy;
    assert Waits(before.files - LeftOf(before.files, who, inFlight), after.files, c, unasked);
  }

  /** Returns tried of names all taken, or not to be asked for, change nothing. */
  lemma SettlingNothing(before: map<string, File>, after: map<string, File>, was: set<string>, now: set<string>,
                        unasked: set<(Operation, string)>)
    requires Settling(before, after, was, now, {}, unasked)
    requires forall c | c in was :: c in before && (DroppedName(c) in before || (Operation.Restore, c) in unasked)
    ensures now == was && after == before
  {
    hide ClaimOf, MayArrive, DroppedName;
    assert forall c | c in was && c !in now :: WentBack(before, after, c) && DroppedName(c) in before;
    assert forall n | n in after :: n in before;
    assert forall c | c in was :: Stays(before, after, c);
    assert after.Keys == before.Keys;
  }

  /** Recovering twice is recovering once, whatever cannot be asked. */
  lemma RecoverTwice(before: Dir, once: Dir, twice: Dir, who: string, inFlight: set<string>,
                     kept: set<string>, kept': set<string>, unasked: set<(Operation, string)>)
    requires RecoveredTo(before, once, who, inFlight, kept, unasked)
    requires RecoveredTo(once, twice, who, inFlight, kept', unasked)
    ensures twice == once && kept' == kept
  {
    NothingLeft(before, once, who, inFlight, kept, unasked);
    hide ClaimOf, MayArrive, DroppedName, SenderOf, ClaimedBy, Settling;
    assert once.files - {} == once.files;
    SettlingNothing(once.files, twice.files, kept, kept', unasked);
    assert twice.turns == once.turns;
  }
}
