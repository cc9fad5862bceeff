/** What a receive takes of a location: at most what it has room for, each once, the rest left. */
module Takes {

  import opened Wrappers
  import opened Names
  import opened Nodes
  import opened Directory
  import opened ClaimSite
  import RefusedItems

  datatype Taken = Taken(dropped: string, claimed: string)

  /** What a listing found: each name with its stamp. */
  type Found = seq<(string, Option<nat>)>

  /** The items of a listing that may arrive. */
  function Arriving(listing: Found): (r: Found)
    ensures forall item :: item in r <==> item in listing && MayArrive(item.0)
  {
    if listing == [] then []
    else (if MayArrive(listing[0].0) then [listing[0]] else []) + Arriving(listing[1..])
  }

  /** Whether `name` is finished, as the far end says, or as the listing before says where it cannot tell. */
  predicate Finishable(far: Answers, name: string, stable: bool) {
    (Finished, name) !in far.unasked && if name in far.finished then far.finished[name] else stable
  }

  /** The far end failed at the first artifact, whose claimed name is the second. */
  type Broken = Option<(string, string)>

  ghost predicate WonAs(won: map<string, string>, claimed: string) {
    exists d :: d in won && won[d] == claimed
  }

  /** Each won lies under its claimed name, as it lay under the name it was dropped with. */
  ghost predicate WonLie(start: map<string, File>, files: map<string, File>, won: map<string, string>) {
    && (forall d | d in won :: d in start && d !in files && won[d] !in start && won[d] in files && files[won[d]] == start[d])
    && (forall d, d' | d in won && d' in won :: won[d] == won[d'] ==> d == d')
  }

  ghost predicate NothingElse(start: map<string, File>, files: map<string, File>, won: map<string, string>, broken: Broken) {
    forall n | n in files :: n in start || WonAs(won, n) || (broken.Some? && n == broken.value.1)
  }

  /** What a listing's items have come to: those won moved to their claimed
      names, the rest where they were, and the one the far end failed at in
      either place. */
  ghost predicate Took(start: map<string, File>, files: map<string, File>, won: map<string, string>, broken: Broken) {
    && WonLie(start, files, won)
    && (forall n | n in start && n !in won && (broken.Some? ==> n != broken.value.0) :: n in files && files[n] == start[n])
    && NothingElse(start, files, won, broken)
    && (broken.Some? ==> var (d, c) := broken.value;
          && d !in won
          && (d in start ==>
                || (d in files && files[d] == start[d])
                || (d !in files && c !in start && c in files && files[c] == start[d])))
  }

  /** What arrives of a listing is in its order. */
  lemma {:induction false} ArrivingJoins(one: Found, other: Found)
    ensures Arriving(one + other) == Arriving(one) + Arriving(other)
  {
    hide MayArrive;
    if one == [] {
      assert one + other == other;
    } else {
      assert (one + other)[1..] == one[1..] + other;
      ArrivingJoins(one[1..], other);
    }
  }

  lemma {:induction false} ArrivingOnce(listing: Found)
    requires RefusedItems.Once(listing)
    ensures RefusedItems.Once(Arriving(listing))
  {
    hide MayArrive;
    if listing != [] {
      ArrivingOnce(listing[1..]);
      assert forall item | item in Arriving(listing[1..]) :: item in listing[1..];
    }
  }

  function FoundIn(listing: Found, hidden: map<string, nat>): Found {
    RefusedItems.Sifted(hidden, Arriving(listing), RefusedItems.NameOf, RefusedItems.StampOf)
  }

  /** What a listing hands on lies there, each once. */
  lemma FoundArrives(files: map<string, File>, unstamped: set<string>, listing: Found, hidden: map<string, nat>)
    requires ListsOf(files, unstamped, listing) && "" !in files
    ensures Arrivals(files, FoundIn(listing, hidden))
  {
    hide MayArrive;
    ArrivingOnce(listing);
    RefusedItems.SiftedAmong(hidden, Arriving(listing));
  }

  /** A listing by name. */
  function ByName(found: Found): (m: map<string, Option<nat>>)
    ensures forall n :: n in m <==> exists i :: 0 <= i < |found| && found[i].0 == n
  {
    if found == [] then map[]
    else
      var front, last := found[..|found| - 1], found[|found| - 1];
      assert forall i | 0 <= i < |front| :: found[i] == front[i];
      ByName(front)[last.0 := last.1]
  }

  lemma ByNameNext(found: Found, item: (string, Option<nat>))
    ensures ByName(found + [item]) == ByName(found)[item.0 := item.1]
  {
    assert (found + [item])[..|found|] == found;
  }

  lemma FoundByName(files: map<string, File>, found: Found, d: string)
    requires Arrivals(files, found) && d in ByName(found)
    ensures MayArrive(d) && d != "" && d in files
  {
    hide MayArrive;
  }

  lemma FoundIs(listing: Found, hidden: map<string, nat>)
    ensures FoundIn(listing, hidden) == RefusedItems.Sifted(hidden, Arriving(listing), RefusedItems.NameOf, RefusedItems.StampOf)
  {}

  /** What is found arrives, and is found as it lies. */
  lemma FoundListed(files: map<string, File>, unstamped: set<string>, listing: Found, hidden: map<string, nat>)
    requires ListsOf(files, unstamped, listing) && "" !in files
    ensures Arrivals(files, FoundIn(listing, hidden))
    ensures forall d | d in ByName(FoundIn(listing, hidden)) :: ByName(FoundIn(listing, hidden))[d] == StampIn(files, unstamped, d)
  {
    FoundArrives(files, unstamped, listing, hidden);
    RefusedItems.SiftedAmong(hidden, Arriving(listing));
    hide MayArrive;
    forall d | d in ByName(FoundIn(listing, hidden)) ensures ByName(FoundIn(listing, hidden))[d] == StampIn(files, unstamped, d) {
      ByNameIn(FoundIn(listing, hidden), d);
    }
  }

  lemma {:induction false} ByNameIn(found: Found, d: string)
    requires d in ByName(found)
    ensures (d, ByName(found)[d]) in found
  {
    var last := found[|found| - 1];
    if last.0 != d { ByNameIn(found[..|found| - 1], d); }
  }

  lemma NextFound(dir: Dir, far: Answers, listed: map<string, Option<nat>>, found: Found, i: nat)
    requires i < |found| && Arrivals(dir.files, found)
    ensures ByName(found[..i + 1]) == ByName(found[..i])[found[i].0 := found[i].1]
    ensures found[i].0 !in ByName(found[..i]) && found[i].0 in dir.files && MayArrive(found[i].0) && found[i].0 != ""
    ensures forall x | x in ByName(found[..i]) :: MayArrive(x) && x != ""
    ensures ChancesOn(ChancesOf(dir, far, listed, found), dir, far, listed, found[i])
  {
    hide MayArrive, ChancesOf, ChancesOn;
    ChancesHold(dir, far, listed, found, i);
    assert found[..i + 1] == found[..i] + [found[i]];
    ByNameNext(found[..i], found[i]);
  }

  lemma ChancesHold(dir: Dir, far: Answers, listed: map<string, Option<nat>>, found: Found, i: nat)
    requires i < |found| && RefusedItems.Once(found)
    ensures ChancesOn(ChancesOf(dir, far, listed, found), dir, far, listed, found[i])
  {
    hide FinishedIn, WinnableIn, FailsIn, RenamableIn, LeavesIn;
    forall item | item in found && item.0 == found[i].0 ensures item == found[i] {}
  }

  lemma WonLieNext(start: map<string, File>, files: map<string, File>, won: map<string, string>, d: string, c: string)
    requires WonLie(start, files, won) && d !in won && d in files && c !in files && c !in start && d in start && files[d] == start[d]
    ensures WonLie(start, Moved(files, d, c), won[d := c])
  {
    var won', files' := won[d := c], Moved(files, d, c);
    forall x | x in won'
      ensures x in start && x !in files' && won'[x] !in start && won'[x] in files' && files'[won'[x]] == start[x]
    {
      if x != d { assert x in won && won[x] != d && won[x] != c; }
    }
  }

  lemma TookWon(start: map<string, File>, files: map<string, File>, won: map<string, string>, d: string, c: string)
    requires Took(start, files, won, None) && d !in won && d in files && c !in files && c !in start && d in start
    ensures Took(start, Moved(files, d, c), won[d := c], None)
  {
    WonLieNext(start, files, won, d, c);
    NothingElseNext(start, files, won, d, c);
    hide WonLie, NothingElse;
  }

  lemma NothingElseNext(start: map<string, File>, files: map<string, File>, won: map<string, string>, d: string, c: string)
    requires NothingElse(start, files, won, None) && d !in won && d in files
    ensures NothingElse(start, Moved(files, d, c), won[d := c], None)
  {
    var won', files' := won[d := c], Moved(files, d, c);
    forall n | n in files' ensures n in start || WonAs(won', n) {
      if n == c {
        assert won'[d] == n;
      } else if n !in start {
        var x :| x in won && won[x] == n;
        assert won'[x] == n;
      }
    }
  }

  lemma TookBroken(start: map<string, File>, files: map<string, File>, files': map<string, File>, won: map<string, string>,
                   d: string, c: string)
    requires Took(start, files, won, None) && d !in won && c !in files && c !in start
    requires files' == files || (d in files && files' == Moved(files, d, c))
    requires d in files ==> d in start
    ensures Took(start, files', won, Some((d, c)))
  {}

  /** Whether the turn of `dropped` is to be had: nothing lies under its name, and it can be asked for. */
  predicate TurnFree(dir: Dir, far: Answers, dropped: string) {
    var turn := TurnOf(dropped);
    turn !in dir.files && turn !in dir.turns && (TakeTurn, turn) !in far.unasked
  }

  /** Whether a claim of `dropped`, found with the stamp `found`, renames it. */
  predicate RenamableIn(dir: Dir, far: Answers, dropped: string, found: Option<nat>) {
    && TurnFree(dir, far, dropped)
    && (Stamp, dropped) !in far.unasked && (Rename, dropped) !in far.unasked && dropped !in far.refusing
    && dropped in dir.files && found == StampIn(dir.files, far.unstamped, dropped)
  }

  /** Whether it is won: renamed, and its turn dropped again. */
  predicate WinnableIn(dir: Dir, far: Answers, dropped: string, found: Option<nat>) {
    RenamableIn(dir, far, dropped, found) && (DropTurn, TurnOf(dropped)) !in far.unasked
  }

  /** Whether it fails: an operation of its own cannot be asked. */
  predicate FailsIn(dir: Dir, far: Answers, dropped: string, found: Option<nat>) {
    var turn := TurnOf(dropped);
    || (TakeTurn, turn) in far.unasked
    || (TurnFree(dir, far, dropped)
        && (|| (Stamp, dropped) in far.unasked
            || (found == StampIn(dir.files, far.unstamped, dropped) && (Rename, dropped) in far.unasked)
            || (DropTurn, turn) in far.unasked))
  }

  /** Whether its turn is left behind: taken, and not to be dropped. */
  predicate LeavesIn(dir: Dir, far: Answers, dropped: string) {
    TurnFree(dir, far, dropped) && (DropTurn, TurnOf(dropped)) in far.unasked
  }

  /** What a claim renames it wins, or fails at; and it fails where its turn is left. */
  lemma WonOrFails(dir: Dir, far: Answers, dropped: string, found: Option<nat>)
    ensures LeavesIn(dir, far, dropped) ==> FailsIn(dir, far, dropped, found)
    ensures WinnableIn(dir, far, dropped, found) <==> RenamableIn(dir, far, dropped, found) && !FailsIn(dir, far, dropped, found)
  {}

  /** Whether an item found so is finished. */
  predicate FinishedIn(far: Answers, listed: map<string, Option<nat>>, item: (string, Option<nat>)) {
    Finishable(far, item.0, item.0 in listed && listed[item.0] == item.1)
  }

  /** What the claims of a listing's finished items come to, of a location as it
      stands: those won, those that fail, those renamed, and those whose turn is left. */
  datatype Chances = Chances(could: set<string>, fails: set<string>, renamable: set<string>, leaves: set<string>)

  function ChancesOf(dir: Dir, far: Answers, listed: map<string, Option<nat>>, found: Found): Chances {
    Chances(set item | item in found && FinishedIn(far, listed, item) && WinnableIn(dir, far, item.0, item.1) :: item.0,
            set item | item in found && FinishedIn(far, listed, item) && FailsIn(dir, far, item.0, item.1) :: item.0,
            set item | item in found && FinishedIn(far, listed, item) && RenamableIn(dir, far, item.0, item.1) :: item.0,
            set item | item in found && FinishedIn(far, listed, item) && LeavesIn(dir, far, item.0) :: item.0)
  }

  /** Whether `chances` say of one item what is so of it. */
  ghost predicate ChancesOn(chances: Chances, dir: Dir, far: Answers, listed: map<string, Option<nat>>, item: (string, Option<nat>)) {
    var finished := FinishedIn(far, listed, item);
    && (item.0 in chances.could <==> finished && WinnableIn(dir, far, item.0, item.1))
    && (item.0 in chances.fails <==> finished && FailsIn(dir, far, item.0, item.1))
    && (item.0 in chances.renamable <==> finished && RenamableIn(dir, far, item.0, item.1))
    && (item.0 in chances.leaves <==> finished && LeavesIn(dir, far, item.0))
  }

  ghost predicate WrittenFor(dropped: string, who: string, claimed: string) {
    exists t :: claimed == ClaimName(dropped, who, Decimal(t))
  }

  /** A listing of what may arrive, each once. */
  ghost predicate Arrivals(files: map<string, File>, found: Found) {
    && (forall i | 0 <= i < |found| :: MayArrive(found[i].0) && found[i].0 != "" && found[i].0 in files)
    && (forall i, j | 0 <= i < j < |found| :: found[i].0 != found[j].0)
  }

  /** What is handed over is what was won, each once. */
  ghost predicate Tells(taken: seq<Taken>, won: map<string, string>) {
    && |taken| == |won|
    && (forall i, j | 0 <= i < j < |taken| :: taken[i].dropped != taken[j].dropped)
    && forall t :: t in taken <==> t.dropped in won && won[t.dropped] == t.claimed
  }

  lemma TellsNext(taken: seq<Taken>, won: map<string, string>, d: string, c: string)
    requires Tells(taken, won) && d !in won
    ensures Tells(taken + [Taken(d, c)], won[d := c])
  {}

  /** Of those looked at, each is handed over or remembered as found. `chances` are
      of those finished as the receive began: only those to be won are handed over,
      and all of them while there is room and no claim fails. */
  ghost predicate Chosen(looked: map<string, Option<nat>>, most: nat, taken: seq<Taken>, seen: map<string, Option<nat>>,
                         won: map<string, string>, broke: bool, chances: Chances, who: string) {
    && (forall n :: n in seen <==> n in looked && n !in won) && (forall n | n in seen :: seen[n] == looked[n])
    && |won| <= most && Tells(taken, won)
    && (forall d | d in won :: d in looked && d in chances.could && WrittenFor(d, who, won[d]))
    && (!broke && |won| < most ==> forall d | d in looked && d in chances.could :: d in won)
    && (!broke && |won| < most ==> forall d | d in looked :: d !in chances.fails)
  }

  /** The far end failed at a claim that fails, and left it renamed where it renames. */
  ghost predicate BrokeAt(files: map<string, File>, looked: map<string, Option<nat>>, d: string, c: string,
                          chances: Chances, who: string) {
    && d in looked && d in chances.fails && WrittenFor(d, who, c)
    && (c in files <==> d in chances.renamable) && (d in files <==> d !in chances.renamable)
  }

  /** The turns after a claim of `d` that failed. */
  function TurnsLeft(turns: map<string, string>, d: string, chances: Chances, who: string): map<string, string> {
    if d in chances.leaves then turns[TurnOf(d) := who] else turns
  }

  /** What was won, in the order it was found in. */
  function WonOf(found: Found, won: map<string, string>): seq<Taken> {
    if found == [] then []
    else
      var last := found[|found| - 1].0;
      WonOf(found[..|found| - 1], won) + if last in won then [Taken(last, won[last])] else []
  }

  /** It is handed over in the listing's order, first come: nothing that was to be
      won, or to fail, is passed over for one listed after it. */
  ghost predicate InOrder(found: Found, taken: seq<Taken>, won: map<string, string>, broken: Broken, chances: Chances) {
    && taken == WonOf(found, won)
    && forall i, j | 0 <= i < j < |found| && (found[j].0 in won || (broken.Some? && found[j].0 == broken.value.0)) ::
         found[i].0 in won || (found[i].0 !in chances.could && found[i].0 !in chances.fails)
  }

  lemma OrderBegins(chances: Chances)
    ensures InOrder([], [], map[], None, chances)
  {}

  lemma {:induction false} WonOfElse(found: Found, won: map<string, string>, d: string, c: string)
    requires forall i | 0 <= i < |found| :: found[i].0 != d
    ensures WonOf(found, won[d := c]) == WonOf(found, won)
  {
    if found != [] { WonOfElse(found[..|found| - 1], won, d, c); }
  }

  /** One more passed over. */
  lemma OrderPassed(found: Found, taken: seq<Taken>, won: map<string, string>, broken: Broken, chances: Chances, item: (string, Option<nat>))
    requires InOrder(found, taken, won, broken, chances) && item.0 !in won && (broken.Some? ==> item.0 != broken.value.0)
    ensures InOrder(found + [item], taken, won, broken, chances)
  {
    assert (found + [item])[..|found|] == found;
  }

  /** One more won, where all that could be were and none failed. */
  lemma OrderWon(found: Found, taken: seq<Taken>, won: map<string, string>, chances: Chances, item: (string, Option<nat>), c: string)
    requires InOrder(found, taken, won, None, chances) && AllCame(found, won, chances, item.0)
    ensures InOrder(found + [item], taken + [Taken(item.0, c)], won[item.0 := c], None, chances)
  {
    assert (found + [item])[..|found|] == found;
    WonOfElse(found, won, item.0, c);
  }

  /** And one more broken off at. */
  lemma OrderBroken(found: Found, taken: seq<Taken>, won: map<string, string>, chances: Chances, item: (string, Option<nat>), c: string)
    requires InOrder(found, taken, won, None, chances) && AllCame(found, won, chances, item.0) && item.0 !in won
    ensures InOrder(found + [item], taken, won, Some((item.0, c)), chances)
  {
    assert (found + [item])[..|found|] == found;
  }

  /** Of all those found, each was won or is neither to be won nor to fail; and none is `d`. */
  ghost predicate AllCame(found: Found, won: map<string, string>, chances: Chances, d: string) {
    forall i | 0 <= i < |found| ::
      found[i].0 != d && (found[i].0 in won || (found[i].0 !in chances.could && found[i].0 !in chances.fails))
  }

  lemma AllCameSo(found: Found, start: Dir, dir: Dir, most: nat, taken: seq<Taken>, seen: map<string, Option<nat>>,
                  won: map<string, string>, broken: Broken, chances: Chances, who: string, d: string)
    requires Taking(start, dir, ByName(found), most, taken, seen, won, broken, chances, who) && d !in ByName(found)
    ensures d !in won && (broken.Some? ==> d != broken.value.0)
    ensures broken.None? && |taken| < most ==> AllCame(found, won, chances, d)
  {
    AllByName(found);
    NoneElseLooked(start, dir, ByName(found), most, taken, seen, won, broken, chances, who);
    hide Taking, ByName;
  }

  lemma {:induction false} AllByName(found: Found)
    ensures forall i | 0 <= i < |found| :: found[i].0 in ByName(found)
  {
    if found != [] { AllByName(found[..|found| - 1]); }
  }

  lemma NoneElseLooked(start: Dir, dir: Dir, looked: map<string, Option<nat>>, most: nat, taken: seq<Taken>,
                       seen: map<string, Option<nat>>, won: map<string, string>, broken: Broken, chances: Chances, who: string)
    requires Taking(start, dir, looked, most, taken, seen, won, broken, chances, who)
    ensures forall d | d in won || (broken.Some? && d == broken.value.0) :: d in looked
    ensures broken.None? && |taken| < most ==> forall d | d in looked :: d in won || (d !in chances.could && d !in chances.fails)
  {
    TakenCount(start, dir, looked, most, taken, seen, won, broken, chances, who);
    hide Took, WrittenFor, Tells;
  }

  /** Where the far end cannot tell whether a writer is done, a first listing takes
      nothing: there is none before it to have found anything as it lies now. */
  lemma FirstListingTakesNothing(start: Dir, dir: Dir, far: Answers, found: Found, most: nat, taken: seq<Taken>,
                                 seen: map<string, Option<nat>>, won: map<string, string>, broken: Broken, who: string)
    requires far.finished == map[]
    requires Taking(start, dir, ByName(found), most, taken, seen, won, broken, ChancesOf(start, far, map[], found), who)
    ensures dir == start && taken == [] && won == map[] && broken.None?
    ensures forall d :: d in seen <==> d in ByName(found)
  {
    hide Took, WrittenFor, MayArrive, ByName, FailsIn, WinnableIn, RenamableIn, LeavesIn;
    assert won == map[];
    NothingTook(start.files, dir.files);
  }

  lemma NothingTook(start: map<string, File>, files: map<string, File>)
    ensures Took(start, files, map[], None) ==> files == start
  {
    if Took(start, files, map[], None) {
      assert forall n | n in files :: n in start || WonAs(map[], n);
      assert files.Keys == start.Keys;
    }
  }

  /** A receive under way. */
  ghost predicate Taking(start: Dir, dir: Dir, looked: map<string, Option<nat>>, most: nat, taken: seq<Taken>,
                         seen: map<string, Option<nat>>, won: map<string, string>, broken: Broken,
                         chances: Chances, who: string) {
    && Took(start.files, dir.files, won, broken)
    && (broken.None? ==> dir.turns == start.turns)
    && (broken.Some? ==> BrokeAt(dir.files, looked, broken.value.0, broken.value.1, chances, who)
                         && dir.turns == TurnsLeft(start.turns, broken.value.0, chances, who))
    && Chosen(looked, most, taken, seen, won, broken.Some?, chances, who)
  }

  /** A turn's name is nobody's claim, and no arrival's. */
  lemma TurnApart(d: string, d': string, who: string, t: nat)
    requires d != ""
    ensures TurnOf(d) != ClaimName(d', who, Decimal(t)) && !MayArrive(TurnOf(d))
  {
    DecimalReadsBack(t);
    var turn, name := TurnOf(d), ClaimName(d', who, Decimal(t));
    assert turn[|turn| - 1] == 'm' && IsDigit(name[|name| - 1]);
    assert turn[|turn| - |TURN|..] == TURN;
  }

  lemma TakingBegins(start: Dir, most: nat, chances: Chances, who: string)
    ensures Taking(start, start, map[], most, [], map[], map[], None, chances, who)
  {}

  lemma TakenCount(start: Dir, dir: Dir, looked: map<string, Option<nat>>, most: nat, taken: seq<Taken>,
                   seen: map<string, Option<nat>>, won: map<string, string>, broken: Broken, chances: Chances, who: string)
    requires Taking(start, dir, looked, most, taken, seen, won, broken, chances, who)
    ensures |taken| == |won| <= most
  {
    hide Took, WrittenFor, MayArrive;
  }

  /** A claim's fresh name lay nowhere as the receive began: what has moved since
      was dropped under a name that may arrive. */
  lemma NotLying(start: Dir, dir: Dir, won: map<string, string>, d: string, c: string, who: string)
    requires Took(start.files, dir.files, won, None) && forall x | x in won :: MayArrive(x)
    requires Readable(who) && d != "" && WrittenFor(d, who, c) && c !in dir.files
    ensures c !in start.files
  {
    var t :| c == ClaimName(d, who, Decimal(t));
    DecimalReadsBack(t);
    ClaimReadsBack(d, who, Decimal(t));
    hide ClaimName, SenderOf, IsTurn;
    assert !MayArrive(c);
  }

  lemma ChosenLeft(looked: map<string, Option<nat>>, most: nat, taken: seq<Taken>, seen: map<string, Option<nat>>,
                   won: map<string, string>, broke: bool, chances: Chances, who: string, name: string, stamp: Option<nat>,
                   broke': bool)
    requires Chosen(looked, most, taken, seen, won, broke, chances, who) && name !in looked && (broke ==> broke')
    requires broke' || |won| == most || (name !in chances.could && name !in chances.fails)
    ensures Chosen(looked[name := stamp], most, taken, seen[name := stamp], won, broke', chances, who)
  {
    hide WrittenFor, Tells;
  }

  lemma ChosenWon(looked: map<string, Option<nat>>, most: nat, taken: seq<Taken>, seen: map<string, Option<nat>>,
                  won: map<string, string>, chances: Chances, who: string, name: string, stamp: Option<nat>, c: string)
    requires Chosen(looked, most, taken, seen, won, false, chances, who) && name !in looked && |won| < most
    requires name in chances.could && name !in chances.fails && WrittenFor(name, who, c)
    ensures Chosen(looked[name := stamp], most, taken + [Taken(name, c)], seen, won[name := c], false, chances, who)
  {
    TellsNext(taken, won, name, c);
    hide WrittenFor, Tells;
  }

  lemma TakingLeft(start: Dir, dir: Dir, looked: map<string, Option<nat>>, most: nat, taken: seq<Taken>,
                   seen: map<string, Option<nat>>, won: map<string, string>, broken: Broken,
                   chances: Chances, who: string, name: string, stamp: Option<nat>)
    requires Taking(start, dir, looked, most, taken, seen, won, broken, chances, who) && name !in looked
    requires broken.Some? || |won| == most || (name !in chances.could && name !in chances.fails)
    ensures Taking(start, dir, looked[name := stamp], most, taken, seen[name := stamp], won, broken, chances, who)
  {
    ChosenLeft(looked, most, taken, seen, won, broken.Some?, chances, who, name, stamp, broken.Some?);
    hide Took, Chosen;
  }

  lemma TakingWon(start: Dir, dir: Dir, looked: map<string, Option<nat>>, most: nat, taken: seq<Taken>,
                  seen: map<string, Option<nat>>, won: map<string, string>,
                  chances: Chances, who: string, name: string, stamp: Option<nat>, c: string)
    requires Taking(start, dir, looked, most, taken, seen, won, None, chances, who) && name !in looked && |won| < most
    requires name in chances.could && name !in chances.fails && WrittenFor(name, who, c)
    requires name in dir.files && name in start.files && c !in dir.files && c !in start.files
    ensures Taking(start, dir.(files := Moved(dir.files, name, c)), looked[name := stamp], most,
                   taken + [Taken(name, c)], seen, won[name := c], None, chances, who)
  {
    ChosenWon(looked, most, taken, seen, won, chances, who, name, stamp, c);
    assert forall d | d in won :: d in looked;
    hide Chosen, WrittenFor;
    TookWon(start.files, dir.files, won, name, c);
    hide Took, Moved;
  }

  lemma TakingBroken(start: Dir, dir: Dir, dir': Dir, looked: map<string, Option<nat>>, most: nat, taken: seq<Taken>,
                     seen: map<string, Option<nat>>, won: map<string, string>,
                     chances: Chances, who: string, name: string, stamp: Option<nat>, c: string)
    requires Taking(start, dir, looked, most, taken, seen, won, None, chances, who) && name !in looked
    requires dir'.files == dir.files || (name in dir.files && dir'.files == Moved(dir.files, name, c))
    requires WrittenFor(name, who, c) && name in chances.fails
    requires (c in dir'.files <==> name in chances.renamable) && (name in dir'.files <==> name !in chances.renamable)
    requires name in dir.files && name in start.files && c !in dir.files && c !in start.files
    requires dir'.turns == TurnsLeft(dir.turns, name, chances, who)
    ensures Taking(start, dir', looked[name := stamp], most, taken, seen[name := stamp], won, Some((name, c)), chances, who)
  {
    ChosenLeft(looked, most, taken, seen, won, false, chances, who, name, stamp, true);
    assert forall d | d in won :: d in looked;
    hide Chosen;
    TookBroken(start.files, dir.files, dir'.files, won, name, c);
    hide Took, Moved, WrittenFor, TurnsLeft;
  }

  /** What one claim wins is no chance of another's taken: a name not looked at
      yet is to be won, and its claim to fail, as it was when the receive began. */
  lemma SameChance(start: Dir, dir: Dir, won: map<string, string>, who: string,
                   far: Answers, d: string, found: Option<nat>)
    requires Took(start.files, dir.files, won, None) && dir.turns == start.turns
    requires forall x | x in won :: MayArrive(x) && WrittenFor(x, who, won[x])
    requires d != "" && MayArrive(d) && d in start.files && d !in won
    ensures d in dir.files && dir.files[d] == start.files[d]
    ensures WinnableIn(dir, far, d, found) == WinnableIn(start, far, d, found)
    ensures FailsIn(dir, far, d, found) == FailsIn(start, far, d, found)
    ensures RenamableIn(dir, far, d, found) == RenamableIn(start, far, d, found)
    ensures LeavesIn(dir, far, d) == LeavesIn(start, far, d)
  {
    var turn := TurnOf(d);
    TurnApart(d, d, who, 0);
    if turn in dir.files && turn !in start.files {
      var x :| x in won && won[x] == turn;
      var t :| won[x] == ClaimName(x, who, Decimal(t));
      TurnApart(d, x, who, t);
    }
    hide MayArrive, TurnOf, WrittenFor;
  }
}
