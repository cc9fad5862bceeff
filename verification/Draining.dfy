/**
 A location received again and again, a bounded number at a time and each
 accepted, until nothing more comes: every artifact to be had is handed over
 once, and the rest is left.
 */
module Draining {

  import opened Acknowledgements
  import opened Wrappers
  import opened Names
  import opened Directory
  import opened ClaimSite
  import opened Takes
  import opened Claims
  import RefusedItems

  function ArrivalsOf(files: map<string, File>): set<string> {
    set n | n in files && MayArrive(n)
  }

  function Artifacts(files: map<string, File>): set<nat> {
    set n | n in files :: files[n].artifact
  }

  /** Each artifact lies under one name. */
  ghost predicate Once(files: map<string, File>) {
    forall n, m | n in files && m in files && files[n].artifact == files[m].artifact :: n == m
  }

  /** Whether a drop can be taken: no writer holds it, nothing lies as its turn,
      and its rename is not refused. */
  predicate ToBeHad(dir: Dir, far: Answers, n: string) {
    && n in dir.files && MayArrive(n)
    && (Finished, n) !in far.unasked && (n in far.finished ==> far.finished[n])
    && TurnFree(dir, far, n) && n !in far.refusing
  }

  /** What is handed over: an artifact, with the name it was taken under. */
  type Gave = seq<(string, nat)>

  /** An artifact handed over lay under its name, or was held to go back to it. */
  ghost predicate LayFor(start: map<string, File>, held: set<string>, name: string, artifact: nat) {
    exists n :: n in start && start[n].artifact == artifact && (n == name || (n in held && DroppedName(n) == name))
  }

  /** A file lying there lay there, or was held and went back to its name. */
  ghost predicate LiesStill(start: map<string, File>, end: map<string, File>, held: set<string>, n: string)
    requires n in end
  {
    || (n in start && end[n] == start[n])
    || (MayArrive(n) && exists c :: c in held && c in start && n == DroppedName(c) && end[n] == start[c])
  }

  /** `gave` handed over, each artifact once; the rest is left, and nothing is new. */
  ghost predicate Drained(start: map<string, File>, end: map<string, File>, held: set<string>, gave: Gave) {
    && (forall n | n in end :: LiesStill(start, end, held, n))
    && (forall n | n in start :: start[n].artifact in Artifacts(end) || exists i :: 0 <= i < |gave| && gave[i].1 == start[n].artifact)
    && (forall i | 0 <= i < |gave| :: gave[i].1 !in Artifacts(end) && LayFor(start, held, gave[i].0, gave[i].1))
    && (forall i, j | 0 <= i < j < |gave| :: gave[i].1 != gave[j].1)
  }

  ghost predicate HeldAreClaims(held: set<string>) {
    forall c | c in held :: ClaimOf(c).Some? && MayArrive(DroppedName(c))
  }

  ghost predicate AllArrive(gave: Gave) {
    forall i | 0 <= i < |gave| :: MayArrive(gave[i].0)
  }

  // ----------------------------------------------------- one draining after another

  lemma NothingDrained(start: map<string, File>, held: set<string>)
    ensures Drained(start, start, held, [])
  {}

  lemma NoneArrives(held: set<string>, c: string)
    requires HeldAreClaims(held) && c in held
    ensures !MayArrive(c)
  {
    if MayArrive(c) { ArrivalsAreNobodys(c); }
  }

  /** A claim is no name that may arrive: what is held later was held as it lay. */
  lemma HeldLay(start: map<string, File>, mid: map<string, File>, held: set<string>, c: string)
    requires HeldAreClaims(held) && c in held && c in mid && LiesStill(start, mid, held, c)
    ensures c in start && mid[c] == start[c]
  {
    NoneArrives(held, c);
    hide MayArrive, ClaimOf, DroppedName;
  }

  lemma LiesJoin(start: map<string, File>, mid: map<string, File>, end: map<string, File>, held: set<string>, later: set<string>, n: string)
    requires n in end && LiesStill(mid, end, later, n) && later <= held && HeldAreClaims(held)
    requires forall m | m in mid :: LiesStill(start, mid, held, m)
    ensures LiesStill(start, end, held, n)
  {
    hide MayArrive, ClaimOf, DroppedName, HeldAreClaims;
    if n in mid && end[n] == mid[n] {
      assert LiesStill(start, mid, held, n);
    } else {
      var c :| c in later && c in mid && n == DroppedName(c) && end[n] == mid[c];
      HeldLay(start, mid, held, c);
      assert c in held && c in start && n == DroppedName(c) && end[n] == start[c];
    }
  }

  lemma LayJoin(start: map<string, File>, mid: map<string, File>, held: set<string>, later: set<string>, name: string, artifact: nat)
    requires LayFor(mid, later, name, artifact) && MayArrive(name) && later <= held && HeldAreClaims(held)
    requires forall m | m in mid :: LiesStill(start, mid, held, m)
    ensures LayFor(start, held, name, artifact)
  {
    hide MayArrive, ClaimOf, DroppedName, HeldAreClaims;
    var n :| n in mid && mid[n].artifact == artifact && (n == name || (n in later && DroppedName(n) == name));
    if n in later && DroppedName(n) == name {
      HeldLay(start, mid, held, n);
      assert n in start && start[n].artifact == artifact && n in held && DroppedName(n) == name;
    } else {
      assert LiesStill(start, mid, held, n);
    }
  }

  lemma DrainedJoin(start: map<string, File>, mid: map<string, File>, end: map<string, File>, held: set<string>, later: set<string>,
                    gave: Gave, more: Gave)
    requires Drained(start, mid, held, gave) && Drained(mid, end, later, more) && later <= held && HeldAreClaims(held)
    requires AllArrive(more)
    ensures Drained(start, end, held, gave + more)
  {
    hide MayArrive, ClaimOf, DroppedName, LiesStill, LayFor;
    var all := gave + more;
    forall n | n in end ensures LiesStill(start, end, held, n) { LiesJoin(start, mid, end, held, later, n); }
    forall i | 0 <= i < |more| ensures LayFor(start, held, more[i].0, more[i].1) {
      LayJoin(start, mid, held, later, more[i].0, more[i].1);
    }
    GaveJoin(start, mid, end, held, later, gave, more);
  }

  /** Before anything, and after anything, nothing handed over. */
  lemma DrainedBefore(start: map<string, File>, mid: map<string, File>, end: map<string, File>, held: set<string>, later: set<string>, gave: Gave)
    requires Drained(start, mid, held, []) && Drained(mid, end, later, gave) && later <= held && HeldAreClaims(held) && AllArrive(gave)
    ensures Drained(start, end, held, gave)
  {
    hide Drained;
    DrainedJoin(start, mid, end, held, later, [], gave);
    assert [] + gave == gave;
  }

  lemma DrainedAfter(start: map<string, File>, mid: map<string, File>, end: map<string, File>, held: set<string>, later: set<string>, gave: Gave)
    requires Drained(start, mid, held, gave) && Drained(mid, end, later, []) && later <= held && HeldAreClaims(held)
    ensures Drained(start, end, held, gave)
  {
    hide Drained;
    DrainedJoin(start, mid, end, held, later, gave, []);
    assert gave + [] == gave;
  }

  /** What was handed over first is not there to be handed over again. */
  lemma GaveJoin(start: map<string, File>, mid: map<string, File>, end: map<string, File>, held: set<string>, later: set<string>,
                 gave: Gave, more: Gave)
    requires Drained(start, mid, held, gave) && Drained(mid, end, later, more)
    ensures var all := gave + more;
            && (forall n | n in start :: start[n].artifact in Artifacts(end) || exists i :: 0 <= i < |all| && all[i].1 == start[n].artifact)
            && (forall i | 0 <= i < |all| :: all[i].1 !in Artifacts(end))
            && (forall i, j | 0 <= i < j < |all| :: all[i].1 != all[j].1)
  {
    var all := gave + more;
    StillThere(mid, end, later, more);
    forall i | 0 <= i < |more| ensures more[i].1 in Artifacts(mid) {
      HandedLay(mid, end, later, more, i);
    }
    forall n | n in start ensures start[n].artifact in Artifacts(end) || exists i :: 0 <= i < |all| && all[i].1 == start[n].artifact {
      var a := start[n].artifact;
      if a in Artifacts(mid) {
        var m :| m in mid && mid[m].artifact == a;
        if a !in Artifacts(end) {
          var i :| 0 <= i < |more| && more[i].1 == a;
          assert all[|gave| + i].1 == a;
        }
      } else {
        var i :| 0 <= i < |gave| && gave[i].1 == a;
        assert all[i].1 == a;
      }
    }
  }

  lemma HandedLay(start: map<string, File>, end: map<string, File>, held: set<string>, gave: Gave, i: nat)
    requires Drained(start, end, held, gave) && i < |gave|
    ensures gave[i].1 in Artifacts(start)
  {
    assert LayFor(start, held, gave[i].0, gave[i].1);
  }

  /** Nothing new comes. */
  lemma StillThere(start: map<string, File>, end: map<string, File>, held: set<string>, gave: Gave)
    requires Drained(start, end, held, gave)
    ensures Artifacts(end) <= Artifacts(start)
  {
    forall a | a in Artifacts(end) ensures a in Artifacts(start) {
      var n :| n in end && end[n].artifact == a;
      assert LiesStill(start, end, held, n);
    }
  }

  lemma Fewer(start: map<string, File>, end: map<string, File>, held: set<string>, gave: Gave)
    requires Drained(start, end, held, gave)
    ensures |Artifacts(end)| <= |Artifacts(start)| && (gave != [] ==> |Artifacts(end)| < |Artifacts(start)|)
  {
    StillThere(start, end, held, gave);
    SmallerSet(Artifacts(end), Artifacts(start));
    if gave != [] {
      HandedLay(start, end, held, gave, 0);
      assert gave[0].1 in Artifacts(start) - Artifacts(end);
    }
  }

  lemma SmallerSet(fewer: set<nat>, more: set<nat>)
    requires fewer <= more
    ensures |fewer| <= |more| && (fewer != more ==> |fewer| < |more|)
  {
    assert more == fewer + (more - fewer);
    assert fewer != more ==> more - fewer != {};
  }

  // ------------------------------------------------------------ what settling drains: nothing

  lemma SettlingDrains(before: map<string, File>, after: map<string, File>, was: set<string>, now: set<string>,
                       unasked: set<(Operation, string)>)
    requires Settling(before, after, was, now, {}, unasked) && Once(before)
    ensures Drained(before, after, was, []) && Once(after)
  {
    hide Settling, MayArrive, ClaimOf, DroppedName;
    forall n | n in after ensures LiesStill(before, after, was, n) {
      CameStill(before, after, was, now, unasked, n);
    }
    forall n | n in before ensures before[n].artifact in Artifacts(after) {
      WentStill(before, after, was, now, unasked, n);
    }
    SettlingOnce(before, after, was, now, unasked);
  }

  lemma CameStill(before: map<string, File>, after: map<string, File>, was: set<string>, now: set<string>,
                  unasked: set<(Operation, string)>, n: string)
    requires Settling(before, after, was, now, {}, unasked) && n in after
    ensures LiesStill(before, after, was, n)
  {
    var x := CameFrom(before, after, was, now, unasked, n);
    hide MayArrive, ClaimOf, DroppedName;
  }

  lemma WentStill(before: map<string, File>, after: map<string, File>, was: set<string>, now: set<string>,
                  unasked: set<(Operation, string)>, n: string)
    requires Settling(before, after, was, now, {}, unasked) && n in before
    ensures before[n].artifact in Artifacts(after)
  {
    hide MayArrive, ClaimOf, DroppedName;
    if n in was && n !in now {
      assert WentBack(before, after, n) && DroppedName(n) in after;
    } else {
      assert n in was ==> Stays(before, after, n);
      assert n in after;
    }
  }

  lemma SettlingOnce(before: map<string, File>, after: map<string, File>, was: set<string>, now: set<string>,
                     unasked: set<(Operation, string)>)
    requires Settling(before, after, was, now, {}, unasked) && Once(before)
    ensures Once(after)
  {
    hide Settling, MayArrive, ClaimOf, DroppedName;
    forall n, m | n in after && m in after && after[n].artifact == after[m].artifact ensures n == m {
      var x := CameFrom(before, after, was, now, unasked, n);
      var y := CameFrom(before, after, was, now, unasked, m);
    }
  }

  /** Where a file lay before the returns. */
  lemma CameFrom(before: map<string, File>, after: map<string, File>, was: set<string>, now: set<string>,
                 unasked: set<(Operation, string)>, n: string) returns (x: string)
    requires Settling(before, after, was, now, {}, unasked) && n in after
    ensures x in before && before[x] == after[n]
    ensures x == n || (x in was && x !in after && n == DroppedName(x))
  {
    hide ClaimOf, MayArrive, DroppedName;
    if n in before {
      x := n;
      assert n in was ==> n in now && Stays(before, after, n);
    } else {
      x :| x in before && x in was && x !in now && n == DroppedName(x);
      assert WentBack(before, after, x);
    }
  }

  /** What is claimed and waits for its verdict is beside what settles. */
  lemma SettlingBeside(before: map<string, File>, after: map<string, File>, was: set<string>, now: set<string>,
                       unasked: set<(Operation, string)>, beside: set<string>)
    requires Settling(before, after, was, now, {}, unasked)
    requires beside !! was && forall c | c in beside :: !MayArrive(c)
    ensures Settling(before - beside, after - beside, was, now, {}, unasked)
  {
    hide ClaimOf, MayArrive, DroppedName;
    var before', after' := before - beside, after - beside;
    forall n | n in after' ensures n in before' || exists c :: c in before' && c in was && c !in now && n == DroppedName(c) {
      if n !in before' {
        var c :| c in before && c in was && c !in now && n == DroppedName(c);
        assert c in before';
      }
    }
    forall c | c in now ensures Waits(before', after', c, unasked) {
      assert Waits(before, after, c, unasked);
    }
    forall c | c in was && c !in now ensures WentBack(before', after', c) {
      assert WentBack(before, after, c);
    }
  }

  // ------------------------------------------------------------ what a receive wins

  function ClaimedNames(taken: seq<Taken>): set<string> {
    set t | t in taken :: t.claimed
  }

  function GaveOf(start: map<string, File>, taken: seq<Taken>): (r: Gave)
    requires forall t | t in taken :: t.dropped in start
    ensures |r| == |taken| && forall i | 0 <= i < |r| :: r[i] == (taken[i].dropped, start[taken[i].dropped].artifact)
  {
    seq(|taken|, i requires 0 <= i < |taken| => (taken[i].dropped, start[taken[i].dropped].artifact))
  }

  /** What a receive won, and not yet its verdicts: claimed under names of the
      claimant's that nothing waits under. */
  ghost predicate WonBy(won: map<string, string>, who: string, held: set<string>) {
    forall d | d in won :: d != "" && MayArrive(d) && WrittenFor(d, who, won[d]) && won[d] !in held
  }

  lemma TookDrains(start: map<string, File>, files: map<string, File>, won: map<string, string>, taken: seq<Taken>)
    requires Took(start, files, won, None) && Tells(taken, won) && Once(start)
    ensures forall t | t in taken :: t.dropped in start
    ensures Drained(start, files - ClaimedNames(taken), {}, GaveOf(start, taken)) && Once(files - ClaimedNames(taken))
  {
    hide Took, Tells, Once, ClaimedNames, LayFor, Artifacts;
    TakenLay(start, files, won, taken);
    var end := files - ClaimedNames(taken);
    forall n | n in end ensures n in start && end[n] == start[n] && n !in won {
      LeftLay(start, files, won, taken, n);
    }
    forall n | n in start ensures start[n].artifact in Artifacts(end) || exists i :: 0 <= i < |taken| && taken[i].dropped == n {
      LeftOrGiven(start, files, won, taken, n);
    }
    forall i | 0 <= i < |taken| ensures start[taken[i].dropped].artifact !in Artifacts(end)
                                        && LayFor(start, {}, taken[i].dropped, start[taken[i].dropped].artifact) {
      GivenIsGone(start, files, won, taken, i);
    }
    GaveOnce(start, won, taken);
    OnceWithin(start, end);
    DrainsSo(start, end, taken);
  }

  lemma TakenLay(start: map<string, File>, files: map<string, File>, won: map<string, string>, taken: seq<Taken>)
    requires Took(start, files, won, None) && Tells(taken, won)
    ensures forall t | t in taken :: t.dropped in won && t.dropped in start
  {}

  lemma OnceWithin(start: map<string, File>, end: map<string, File>)
    requires Once(start) && forall n | n in end :: n in start && end[n] == start[n]
    ensures Once(end)
  {}

  lemma GivenIsGone(start: map<string, File>, files: map<string, File>, won: map<string, string>, taken: seq<Taken>, i: nat)
    requires Took(start, files, won, None) && Tells(taken, won) && Once(start) && i < |taken|
    ensures taken[i].dropped in start
    ensures start[taken[i].dropped].artifact !in Artifacts(files - ClaimedNames(taken))
    ensures LayFor(start, {}, taken[i].dropped, start[taken[i].dropped].artifact)
  {
    assert taken[i] in taken && taken[i].dropped in won;
    var end := files - ClaimedNames(taken);
    forall n | n in end ensures end[n].artifact != start[taken[i].dropped].artifact {
      LeftLay(start, files, won, taken, n);
    }
    hide Took, Tells, ClaimedNames;
  }

  lemma DrainsSo(start: map<string, File>, end: map<string, File>, taken: seq<Taken>)
    requires forall t | t in taken :: t.dropped in start
    requires forall n | n in end :: n in start && end[n] == start[n]
    requires forall n | n in start :: start[n].artifact in Artifacts(end) || exists i :: 0 <= i < |taken| && taken[i].dropped == n
    requires forall i | 0 <= i < |taken| :: start[taken[i].dropped].artifact !in Artifacts(end)
                                            && LayFor(start, {}, taken[i].dropped, start[taken[i].dropped].artifact)
    requires forall i, j | 0 <= i < j < |taken| :: GaveOf(start, taken)[i].1 != GaveOf(start, taken)[j].1
    ensures Drained(start, end, {}, GaveOf(start, taken))
  {
    hide LayFor, Artifacts;
    var gave := GaveOf(start, taken);
    forall n | n in start ensures start[n].artifact in Artifacts(end) || exists i :: 0 <= i < |gave| && gave[i].1 == start[n].artifact {
      if start[n].artifact !in Artifacts(end) {
        var i :| 0 <= i < |taken| && taken[i].dropped == n;
        assert gave[i].1 == start[n].artifact;
      }
    }
  }

  lemma GaveOnce(start: map<string, File>, won: map<string, string>, taken: seq<Taken>)
    requires Tells(taken, won) && Once(start) && forall t | t in taken :: t.dropped in start
    ensures forall i, j | 0 <= i < j < |taken| :: GaveOf(start, taken)[i].1 != GaveOf(start, taken)[j].1
  {
    forall i, j | 0 <= i < j < |taken| ensures start[taken[i].dropped].artifact != start[taken[j].dropped].artifact {
      assert taken[i] in taken && taken[j] in taken && taken[i].dropped != taken[j].dropped;
    }
  }

  lemma LeftLay(start: map<string, File>, files: map<string, File>, won: map<string, string>, taken: seq<Taken>, n: string)
    requires Took(start, files, won, None) && Tells(taken, won) && n in files - ClaimedNames(taken)
    ensures n in start && files[n] == start[n] && n !in won
  {
    if WonAs(won, n) { WonClaimed(won, taken, n); }
  }

  lemma WonClaimed(won: map<string, string>, taken: seq<Taken>, n: string)
    requires Tells(taken, won) && WonAs(won, n)
    ensures n in ClaimedNames(taken)
  {
    var d :| d in won && won[d] == n;
    assert Taken(d, n) in taken;
  }

  lemma LeftOrGiven(start: map<string, File>, files: map<string, File>, won: map<string, string>, taken: seq<Taken>, n: string)
    requires Took(start, files, won, None) && Tells(taken, won) && n in start
    ensures start[n].artifact in Artifacts(files - ClaimedNames(taken)) || exists i :: 0 <= i < |taken| && taken[i].dropped == n
  {
    if n in won {
      assert Taken(n, won[n]) in taken;
    } else {
      assert forall t | t in taken :: won[t.dropped] !in start;
      assert n in files - ClaimedNames(taken);
    }
  }

  // ------------------------------------------------------------ the verdicts

  /** Each is a claim nothing waits under. */
  ghost predicate Pending(taken: seq<Taken>, held: set<string>) {
    forall t | t in taken :: ClaimOf(t.claimed).Some? && MayArrive(DroppedName(t.claimed)) && t.claimed !in held
  }

  lemma PendingRest(taken: seq<Taken>, i: nat, held: set<string>, later: set<string>)
    requires Pending(taken, held) && later <= held && i < |taken|
    ensures Pending(taken[i..], later) && ClaimOf(taken[i].claimed).Some? && MayArrive(DroppedName(taken[i].claimed))
    ensures taken[i].claimed !in later && ClaimedNames(taken[i..]) == {taken[i].claimed} + ClaimedNames(taken[i + 1..])
    ensures Pending(taken[i + 1..], later)
    ensures ClaimedNames(taken[i + 1..]) !! later && forall c | c in ClaimedNames(taken[i + 1..]) :: !MayArrive(c)
  {
    hide ClaimOf, MayArrive, DroppedName;
    assert taken[i] in taken && taken[i..] == [taken[i]] + taken[i + 1..];
    forall t | t in taken[i + 1..] ensures t in taken && !MayArrive(t.claimed) {
      NoneArrives({t.claimed}, t.claimed);
    }
  }

  /** Each can be deleted. */
  predicate Deletable(taken: seq<Taken>, unasked: set<(Operation, string)>) {
    forall t | t in taken :: (Delete, t.claimed) !in unasked
  }

  /** Every artifact handed over accepted: gone from under its claimed name; what
      is held goes back where its name is free now. */
  method AcceptAll(claiming: Claiming, site: Memory, taken: seq<Taken>)
    requires claiming.Valid() && Reserved(site.dir.files) && Deletable(taken, site.unasked)
    requires Pending(taken, claiming.held.Keys) && Once(site.dir.files - ClaimedNames(taken))
    modifies claiming`held, claiming.refused, site`dir
    ensures claiming.Valid() && Reserved(site.dir.files) && site.dir.turns == old(site.dir).turns
    ensures claiming.held.Keys <= old(claiming.held).Keys
    ensures Drained(old(site.dir).files - ClaimedNames(taken), site.dir.files, old(claiming.held).Keys, []) && Once(site.dir.files)
    ensures taken == [] ==> site.dir == old(site.dir) && claiming.held == old(claiming.held) && claiming.refused.held == old(claiming.refused.held)
  {
    ghost var start, held := site.dir.files - ClaimedNames(taken), claiming.held.Keys;
    NothingDrained(start, held);
    HeldClaims(claiming);
    hide Drained, Once, Reserved, Pending, ClaimedNames, HeldAreClaims;
    for i := 0 to |taken|
      invariant claiming.Valid() && Reserved(site.dir.files) && site.dir.turns == old(site.dir).turns
      invariant claiming.held.Keys <= held
      invariant Drained(start, site.dir.files - ClaimedNames(taken[i..]), held, []) && Once(site.dir.files - ClaimedNames(taken[i..]))
      invariant i == 0 ==> site.dir == old(site.dir) && claiming.held == old(claiming.held) && claiming.refused.held == old(claiming.refused.held)
    {
      AcceptNext(claiming, site, taken, i, start, held);
    }
    NoneClaimed(site.dir.files);
    assert taken[|taken|..] == [];
  }

  lemma HeldClaims(claiming: Claiming)
    requires claiming.Valid()
    ensures HeldAreClaims(claiming.held.Keys)
  {}

  lemma NoneClaimed(files: map<string, File>)
    ensures files - ClaimedNames([]) == files
  {}

  method AcceptNext(claiming: Claiming, site: Memory, taken: seq<Taken>, i: nat, ghost start: map<string, File>, ghost held: set<string>)
    requires claiming.Valid() && Reserved(site.dir.files) && claiming.held.Keys <= held && HeldAreClaims(held)
    requires Deletable(taken, site.unasked)
    requires i < |taken| && Pending(taken, held) && Once(site.dir.files - ClaimedNames(taken[i..]))
    requires Drained(start, site.dir.files - ClaimedNames(taken[i..]), held, [])
    modifies claiming`held, claiming.refused, site`dir
    ensures claiming.Valid() && Reserved(site.dir.files) && site.dir.turns == old(site.dir).turns
    ensures claiming.held.Keys <= held
    ensures Drained(start, site.dir.files - ClaimedNames(taken[i + 1..]), held, [])
    ensures Once(site.dir.files - ClaimedNames(taken[i + 1..]))
  {
    hide Drained, Once, Reserved, Pending, ClaimedNames, HeldAreClaims, Settling, ClaimOf, MayArrive, DroppedName, Recalls;
    PendingRest(taken, i, held, claiming.held.Keys);
    ghost var before, later, was := site.dir, ClaimedNames(taken[i + 1..]), claiming.held.Keys;
    ghost var mid := site.dir.files - ClaimedNames(taken[i..]);
    ghost var deleted := Deleted(before, taken[i].claimed).files;
    assert deleted - later == mid;
    ReservedWithin(before.files, deleted);
    var told := claiming.Told(site, taken[i].claimed, Some(Accepted));
    SettlingShrinks(deleted, site.dir.files, was, claiming.held.Keys, site.unasked);
    SettlingReserved(deleted, site.dir.files, was, claiming.held.Keys, site.unasked);
    SettlingBeside(deleted, site.dir.files, was, claiming.held.Keys, site.unasked, later);
    SettlingDrains(mid, site.dir.files - later, was, claiming.held.Keys, site.unasked);
    DrainedAfter(start, mid, site.dir.files - later, held, was, []);
  }

  lemma SettlingShrinks(before: map<string, File>, after: map<string, File>, was: set<string>, now: set<string>,
                        unasked: set<(Operation, string)>)
    requires Settling(before, after, was, now, {}, unasked)
    ensures now <= was
  {}

  // ------------------------------------------------------------ one receive

  /** Whether `n` lies as it is remembered to have been refused. */
  predicate LiesRefused(files: map<string, File>, unstamped: set<string>, refused: map<string, nat>, n: string) {
    n in refused && StampIn(files, unstamped, n) == Some(refused[n])
  }

  /** Nothing held can go back. */
  ghost predicate AtRest(files: map<string, File>, held: set<string>, unasked: set<(Operation, string)>) {
    forall c | c in held && (Operation.Restore, c) !in unasked :: DroppedName(c) in files
  }

  /** Every drop lies as the listing before found it, or as it was refused. */
  ghost predicate Known(files: map<string, File>, unstamped: set<string>, listed: map<string, Option<nat>>, refused: map<string, nat>) {
    forall n | n in ArrivalsOf(files) ::
      LiesRefused(files, unstamped, refused, n) || (n in listed && listed[n] == StampIn(files, unstamped, n))
  }

  /** Nothing to be had lies there but what lies as it was refused. */
  ghost predicate AllHad(dir: Dir, far: Answers, refused: map<string, nat>) {
    forall n | n in ArrivalsOf(dir.files) && ToBeHad(dir, far, n) :: LiesRefused(dir.files, far.unstamped, refused, n)
  }

  /** The names a receive may claim: those lying there that may arrive, and those
      what is held would go back to. */
  function Reached(files: map<string, File>, held: set<string>): set<string> {
    ArrivalsOf(files) + set c | c in held :: DroppedName(c)
  }

  /** A claim of `n` can ask for what it needs, up to its acceptance. */
  ghost predicate Claimable(n: string, who: string, unasked: set<(Operation, string)>) {
    && (TakeTurn, TurnOf(n)) !in unasked && (DropTurn, TurnOf(n)) !in unasked
    && (Stamp, n) !in unasked && (Operation.Rename, n) !in unasked
    && forall c: string | ClaimedBy(c, who) && DroppedName(c) == n :: (Delete, c) !in unasked
  }

  ghost predicate AllClaimable(names: set<string>, who: string, unasked: set<(Operation, string)>) {
    forall n | n in names :: Claimable(n, who, unasked)
  }

  /** A Location whose recovery is done, at a far end that can be listed and asked
      for what the claims of the names lying there need. */
  ghost predicate Bound(claiming: Claiming, site: Memory)
    reads claiming, site
  {
    && claiming.Valid() && !claiming.recovering && Reserved(site.dir.files) && Once(site.dir.files)
    && (List, "") !in site.unasked
    && AllClaimable(Reached(site.dir.files, claiming.held.Keys), claiming.claimant, site.unasked)
  }

  /** No name comes to a location but those what is held goes back to. */
  lemma ReachShrinks(start: map<string, File>, end: map<string, File>, held: set<string>, later: set<string>, gave: Gave)
    requires Drained(start, end, held, gave) && later <= held
    ensures Reached(end, later) <= Reached(start, held)
  {
    hide MayArrive, ClaimOf, DroppedName;
    forall n | n in ArrivalsOf(end) ensures n in Reached(start, held) {
      assert LiesStill(start, end, held, n);
    }
  }

  lemma NothingFails(dir: Dir, far: Answers, listed: map<string, Option<nat>>, found: Found, who: string)
    requires forall item | item in found :: Claimable(item.0, who, far.unasked)
    ensures ChancesOf(dir, far, listed, found).fails == {}
  {
    forall item | item in found ensures !FailsIn(dir, far, item.0, item.1) {
      assert Claimable(item.0, who, far.unasked);
    }
    hide FinishedIn, WinnableIn, FailsIn, RenamableIn;
  }

  /** Where no claim fails none breaks off. */
  lemma TakenWhole(start: Dir, dir: Dir, looked: map<string, Option<nat>>, most: nat, taken: seq<Taken>, seen: map<string, Option<nat>>,
                   won: map<string, string>, broken: Broken, chances: Chances, who: string, held: set<string>)
    requires Taking(start, dir, looked, most, taken, seen, won, broken, chances, who) && chances.fails == {}
    requires forall x | x in looked :: MayArrive(x) && x != ""
    requires forall d | d in won :: won[d] !in held
    ensures broken.None? && dir.turns == start.turns && |taken| == |won| <= most
    ensures Took(start.files, dir.files, won, None) && Tells(taken, won) && WonBy(won, who, held)
    ensures forall n | n in looked && n !in won :: n in seen && seen[n] == looked[n]
    ensures |won| < most ==> forall d | d in looked && d in chances.could :: d in won
  {
    hide MayArrive, WrittenFor, Took, Tells;
    TakenCount(start, dir, looked, most, taken, seen, won, broken, chances, who);
  }

  lemma NoneTaken(start: map<string, File>, files: map<string, File>, won: map<string, string>)
    requires Took(start, files, won, None) && |won| == 0
    ensures files == start && won == map[]
  {
    assert forall n | n in files :: n in start || WonAs(won, n);
    assert files.Keys == start.Keys;
  }

  /** Each drop is found as it lies, or lies as it was refused. */
  lemma FoundOrRefused(files: map<string, File>, unstamped: set<string>, listing: Found, hidden: map<string, nat>)
    requires ListsOf(files, unstamped, listing) && "" !in files
    ensures var found := FoundIn(listing, hidden);
            && Arrivals(files, found)
            && (forall x | x in ByName(found) :: MayArrive(x) && x != "" && x in files)
            && forall n | n in ArrivalsOf(files) ::
                 || LiesRefused(files, unstamped, RefusedItems.Still(hidden, Arriving(listing), RefusedItems.NameOf, RefusedItems.StampOf), n)
                 || (n in ByName(found) && ByName(found)[n] == StampIn(files, unstamped, n) && (n, StampIn(files, unstamped, n)) in found)
  {
    FoundArrives(files, unstamped, listing, hidden);
    ArrivingOnce(listing);
    var items, found := Arriving(listing), FoundIn(listing, hidden);
    RefusedItems.SiftedOrStill(hidden, items);
    hide MayArrive, ByName;
    forall n | n in ArrivalsOf(files)
      ensures (n, StampIn(files, unstamped, n)) in items
    {
      var i :| 0 <= i < |listing| && listing[i].0 == n;
      assert listing[i] in listing;
    }
    forall item | item in found ensures item.0 in ByName(found) && ByName(found)[item.0] == item.1 {
      var i :| 0 <= i < |found| && found[i] == item;
      ByNameAt(found, i);
    }
    forall x | x in ByName(found) ensures MayArrive(x) && x != "" && x in files { FoundByName(files, found, x); }
  }

  lemma {:induction false} ByNameAt(found: Found, i: nat)
    requires RefusedItems.Once(found) && i < |found|
    ensures found[i].0 in ByName(found) && ByName(found)[found[i].0] == found[i].1
  {
    if i < |found| - 1 {
      ByNameAt(found[..|found| - 1], i);
    }
  }

  /** What is held goes nowhere where every name is taken, and nothing else moves. */
  lemma SettlingAtRest(before: map<string, File>, after: map<string, File>, was: set<string>, now: set<string>,
                       unasked: set<(Operation, string)>)
    requires Settling(before, after, was, now, {}, unasked) && AtRest(before, was, unasked)
    ensures after == before
  {
    hide ClaimOf, MayArrive, DroppedName;
    forall c | c in was && c in before ensures c in now {
      assert WentBack(before, after, c) ==> DroppedName(c) !in before;
    }
    assert forall n | n in after :: n in before;
    forall n | n in before ensures n in after && after[n] == before[n] {
      assert n in was ==> n in now && Stays(before, after, n);
    }
    assert after.Keys == before.Keys;
  }

  lemma SettledAtRest(before: map<string, File>, after: map<string, File>, was: set<string>, now: set<string>,
                      unasked: set<(Operation, string)>)
    requires Settling(before, after, was, now, {}, unasked)
    ensures AtRest(after, now, unasked)
  {
    hide ClaimOf, MayArrive, DroppedName;
    forall c | c in now && (Operation.Restore, c) !in unasked ensures DroppedName(c) in after {
      assert Waits(before, after, c, unasked);
    }
  }

  /** Whether two memories say the same of all that lies in `files`. */
  ghost predicate SameOver(files: map<string, File>, one: map<string, nat>, other: map<string, nat>) {
    forall n | n in files :: SameAt(one, other, n)
  }

  /** What goes back goes to names nothing lay under: what lay there is remembered as it was. */
  lemma RecallsSame(before: map<string, File>, after: map<string, File>, was: map<string, bool>, now: set<string>, far: Answers,
                    one: map<string, nat>, other: map<string, nat>)
    requires Settling(before, after, was.Keys, now, {}, far.unasked) && Recalls(before, was, now, far, one, other)
    ensures SameOver(before, one, other)
  {
    hide ClaimOf, MayArrive, DroppedName, SameAt;
    forall n | n in before ensures SameAt(one, other, n) {
      if c :| WentRefused(before, was, now, far, c) && DroppedName(c) == n {
        assert WentBack(before, after, c);
      }
    }
  }

  lemma StillKnown(files: map<string, File>, unstamped: set<string>, listed: map<string, Option<nat>>,
                   refused: map<string, nat>, hidden: map<string, nat>)
    requires Known(files, unstamped, listed, refused) && SameOver(files, refused, hidden)
    ensures Known(files, unstamped, listed, hidden)
  {
    hide MayArrive;
  }

  /** What a receive left is known to the next. */
  lemma KnownNow(files: map<string, File>, unstamped: set<string>, listing: Found, hidden: map<string, nat>,
                 listed: map<string, Option<nat>>, refused: map<string, nat>)
    requires ListsOf(files, unstamped, listing) && "" !in files
    requires refused == RefusedItems.Still(hidden, Arriving(listing), RefusedItems.NameOf, RefusedItems.StampOf)
    requires forall n | n in ByName(FoundIn(listing, hidden)) :: n in listed && listed[n] == ByName(FoundIn(listing, hidden))[n]
    ensures Known(files, unstamped, listed, refused)
  {
    FoundOrRefused(files, unstamped, listing, hidden);
    hide MayArrive, ByName, FoundIn, LiesRefused;
  }

  /** Where every drop was known and nothing was won, nothing was to be had. */
  lemma NoneToBeHad(dir: Dir, far: Answers, listing: Found, hidden: map<string, nat>, listed: map<string, Option<nat>>,
                    refused: map<string, nat>, who: string)
    requires ListsOf(dir.files, far.unstamped, listing) && "" !in dir.files && AllClaimable(ArrivalsOf(dir.files), who, far.unasked)
    requires refused == RefusedItems.Still(hidden, Arriving(listing), RefusedItems.NameOf, RefusedItems.StampOf)
    requires Known(dir.files, far.unstamped, listed, hidden)
    requires forall d | d in ByName(FoundIn(listing, hidden)) :: d !in ChancesOf(dir, far, listed, FoundIn(listing, hidden)).could
    ensures AllHad(dir, far, refused)
  {
    var found := FoundIn(listing, hidden);
    FoundOrRefused(dir.files, far.unstamped, listing, hidden);
    forall n | n in ArrivalsOf(dir.files) && ToBeHad(dir, far, n) ensures LiesRefused(dir.files, far.unstamped, refused, n) {
      if !LiesRefused(dir.files, far.unstamped, refused, n) {
        FoundIsNotRefused(dir.files, far.unstamped, listing, hidden, n);
        CouldBeHad(dir, far, listed, found, n, who);
      }
    }
  }

  /** What is handed on does not lie as it was refused. */
  lemma FoundIsNotRefused(files: map<string, File>, unstamped: set<string>, listing: Found, hidden: map<string, nat>, n: string)
    requires ListsOf(files, unstamped, listing) && "" !in files && n in ArrivalsOf(files)
    requires (n, StampIn(files, unstamped, n)) in FoundIn(listing, hidden)
    ensures !LiesRefused(files, unstamped, hidden, n)
  {
    ArrivingOnce(listing);
    hide MayArrive;
    RefusedItems.OnceLeavesOut(hidden, Arriving(listing));
    assert !RefusedItems.Lies(hidden, (n, StampIn(files, unstamped, n)));
  }

  lemma CouldBeHad(dir: Dir, far: Answers, listed: map<string, Option<nat>>, found: Found, n: string, who: string)
    requires Claimable(n, who, far.unasked) && ToBeHad(dir, far, n)
    requires (n, StampIn(dir.files, far.unstamped, n)) in found
    requires n in listed && listed[n] == StampIn(dir.files, far.unstamped, n)
    ensures n in ChancesOf(dir, far, listed, found).could
  {
    var item := (n, StampIn(dir.files, far.unstamped, n));
    hide MayArrive, TurnOf;
    assert FinishedIn(far, listed, item) && WinnableIn(dir, far, item.0, item.1);
    hide FinishedIn, WinnableIn, FailsIn, RenamableIn;
  }

  /** What a receive hands over is what it gave. */
  ghost predicate NamedBy(handed: seq<Taken>, gave: Gave) {
    |handed| == |gave| && AllArrive(gave) && forall i | 0 <= i < |gave| :: handed[i].dropped == gave[i].0
  }

  /** What a take won of a location, before its verdicts: what it gave is gone but
      from under the names claimed. */
  method TakeBound(claiming: Claiming, site: Memory, most: nat, inFlight: set<string>)
    returns (taken: seq<Taken>, ghost gave: Gave)
    requires Bound(claiming, site)
    modifies claiming, claiming.refused, site`dir
    ensures claiming.Valid() && !claiming.recovering && Reserved(site.dir.files) && site.dir.turns == old(site.dir).turns
    ensures claiming.held.Keys <= old(claiming.held).Keys && |taken| <= most && NamedBy(taken, gave)
    ensures Pending(taken, claiming.held.Keys) && Once(site.dir.files - ClaimedNames(taken)) && Deletable(taken, site.unasked)
    ensures Drained(old(site.dir).files, site.dir.files - ClaimedNames(taken), old(claiming.held).Keys, gave)
    ensures taken == [] ==> AtRest(site.dir.files, claiming.held.Keys, site.unasked)
                            && Known(site.dir.files, site.unstamped, claiming.listed, claiming.refused.held)
    ensures taken == [] && most > 0 && old(AtRest(site.dir.files, claiming.held.Keys, site.unasked)
                                          && Known(site.dir.files, site.unstamped, claiming.listed, claiming.refused.held)) ==>
              AllHad(site.dir, site.AnswersNow(), claiming.refused.held)
  {
    ghost var start, far, listed, refused, held := site.dir, site.AnswersNow(), claiming.listed, claiming.refused.held, claiming.held.Keys;
    HeldClaims(claiming);
    hide Settling, Taking, ChancesOf, FoundIn, ListsOf, MayArrive, ArrivalsOf, WrittenFor, ByName, Reserved, Took, Tells, Once,
         Drained, AtRest, Known, AllHad, SameOver, Recalls, HeldAreClaims, ClaimedNames, Pending, NamedBy, WonBy, DroppedName, AllArrive, RecoveredTo, Untouched, PartlyCleared, Recoverable,
         Arriving, GaveOf, Readable, AllClaimable, Reached, Deletable;
    var r;
    ghost var course;
    r, course := claiming.Take(site, most, inFlight);
    ghost var before := course.before;
    SettlingShrinks(start.files, before.files, held, claiming.held.Keys, site.unasked);
    SettlingDrains(start.files, before.files, held, claiming.held.Keys, site.unasked);
    ReservedNamed(start.files, before.files, held, claiming.held.Keys, site.unasked);
    ReachShrinks(start.files, before.files, held, claiming.held.Keys, []);
    StillClaimable(start.files, before.files, held, claiming.held.Keys, claiming.claimant, site.unasked);
    TakenOf(claiming, site.dir, far, listed, course, most, if r.Ok? then r.value else []);
    taken, gave := r.value, GaveOf(before.files, r.value);
    DrainedBefore(start.files, before.files, site.dir.files - ClaimedNames(taken), held, {}, gave);
    RecallsSame(start.files, before.files, course.waiting, claiming.held.Keys, far, refused, course.hidden);
    Rested(start.files, before.files, held, claiming.held.Keys, far, listed, refused, course.hidden);
  }

  /** Where all is at rest a settling changes nothing, and what was known is known still. */
  lemma Rested(start: map<string, File>, before: map<string, File>, held: set<string>, now: set<string>, far: Answers,
               listed: map<string, Option<nat>>, refused: map<string, nat>, hidden: map<string, nat>)
    requires Settling(start, before, held, now, {}, far.unasked) && SameOver(start, refused, hidden)
    ensures AtRest(before, now, far.unasked)
    ensures AtRest(start, held, far.unasked) && Known(start, far.unstamped, listed, refused) ==> before == start && Known(before, far.unstamped, listed, hidden)
  {
    hide Settling, SameOver, AtRest, Known;
    SettledAtRest(start, before, held, now, far.unasked);
    if AtRest(start, held, far.unasked) && Known(start, far.unstamped, listed, refused) {
      SettlingAtRest(start, before, held, now, far.unasked);
      StillKnown(start, far.unstamped, listed, refused, hidden);
    }
  }

  /** What was taken of a listing, where no claim fails. */
  lemma TakenOf(claiming: Claiming, dir: Dir, far: Answers, listed: map<string, Option<nat>>, course: Course, most: nat, taken: seq<Taken>)
    requires claiming.Valid() && ListsOf(course.before.files, far.unstamped, course.listing)
    requires AllClaimable(ArrivalsOf(course.before.files), claiming.claimant, far.unasked)
    requires "" !in course.before.files && Once(course.before.files)
    requires var found := FoundIn(course.listing, course.hidden);
             Taking(course.before, dir, ByName(found), most, taken, claiming.listed, course.won, course.broken,
                    ChancesOf(course.before, far, listed, found), claiming.claimant)
    requires forall d | d in course.won :: course.won[d] !in claiming.held
    requires claiming.refused.held == RefusedItems.Still(course.hidden, Arriving(course.listing), RefusedItems.NameOf, RefusedItems.StampOf)
    ensures course.broken.None? && dir.turns == course.before.turns && |taken| <= most
    ensures forall t | t in taken :: t.dropped in course.before.files
    ensures Drained(course.before.files, dir.files - ClaimedNames(taken), {}, GaveOf(course.before.files, taken))
    ensures Once(dir.files - ClaimedNames(taken)) && Pending(taken, claiming.held.Keys) && Deletable(taken, far.unasked)
    ensures NamedBy(taken, GaveOf(course.before.files, taken)) && AllArrive(GaveOf(course.before.files, taken))
    ensures taken == [] ==> dir == course.before && Known(dir.files, far.unstamped, claiming.listed, claiming.refused.held)
    ensures taken == [] && most > 0 && Known(dir.files, far.unstamped, listed, course.hidden) ==> AllHad(dir, far, claiming.refused.held)
  {
    hide Taking, ChancesOf, FoundIn, ListsOf, MayArrive, ArrivalsOf, WrittenFor, ByName, Took, Tells, Once,
         Drained, Known, AllHad, ClaimedNames, Pending, WonBy, DroppedName, AllArrive, LiesRefused, Claimable, AllClaimable, Deletable;
    var before, found := course.before, FoundIn(course.listing, course.hidden);
    FoundOrRefused(before.files, far.unstamped, course.listing, course.hidden);
    FoundClaimable(before.files, found, claiming.claimant, far.unasked);
    NothingFails(before, far, listed, found, claiming.claimant);
    TakenWhole(before, dir, ByName(found), most, taken, claiming.listed, course.won, course.broken,
               ChancesOf(before, far, listed, found), claiming.claimant, claiming.held.Keys);
    TookDrains(before.files, dir.files, course.won, taken);
    WonArePending(claiming, course.won, taken, before.files);
    WonAreDeletable(claiming, course.won, taken, before.files, far.unasked);
    if taken == [] {
      NoneTaken(before.files, dir.files, course.won);
      KnownNow(before.files, far.unstamped, course.listing, course.hidden, claiming.listed, claiming.refused.held);
      if most > 0 && Known(dir.files, far.unstamped, listed, course.hidden) {
        NoneToBeHad(before, far, course.listing, course.hidden, listed, claiming.refused.held, claiming.claimant);
      }
    }
  }

  lemma FoundClaimable(files: map<string, File>, found: Found, who: string, unasked: set<(Operation, string)>)
    requires Arrivals(files, found) && AllClaimable(ArrivalsOf(files), who, unasked)
    ensures forall item | item in found :: Claimable(item.0, who, unasked)
  {
    hide MayArrive, Claimable;
  }

  lemma StillClaimable(start: map<string, File>, end: map<string, File>, held: set<string>, later: set<string>, who: string,
                       unasked: set<(Operation, string)>)
    requires AllClaimable(Reached(start, held), who, unasked) && Reached(end, later) <= Reached(start, held)
    ensures AllClaimable(Reached(end, later), who, unasked) && AllClaimable(ArrivalsOf(end), who, unasked)
  {
    hide MayArrive, Claimable;
  }

  lemma WonAreDeletable(claiming: Claiming, won: map<string, string>, taken: seq<Taken>, start: map<string, File>,
                        unasked: set<(Operation, string)>)
    requires claiming.Valid() && Tells(taken, won) && WonBy(won, claiming.claimant, claiming.held.Keys)
    requires AllClaimable(ArrivalsOf(start), claiming.claimant, unasked) && forall t | t in taken :: t.dropped in start
    ensures Deletable(taken, unasked)
  {
    hide MayArrive, ClaimOf, WrittenFor, DroppedName;
    forall t | t in taken ensures (Delete, t.claimed) !in unasked {
      assert t.dropped in ArrivalsOf(start) && Claimable(t.dropped, claiming.claimant, unasked);
      claiming.ClaimedNames(t.dropped, t.claimed);
    }
  }

  lemma ReservedNamed(before: map<string, File>, after: map<string, File>, was: set<string>, now: set<string>,
                      unasked: set<(Operation, string)>)
    requires Settling(before, after, was, now, {}, unasked) && Reserved(before)
    ensures "" !in after
  {
    SettlingReserved(before, after, was, now, unasked);
  }

  lemma WonArePending(claiming: Claiming, won: map<string, string>, taken: seq<Taken>, start: map<string, File>)
    requires claiming.Valid() && Tells(taken, won) && WonBy(won, claiming.claimant, claiming.held.Keys)
    requires forall t | t in taken :: t.dropped in start
    ensures Pending(taken, claiming.held.Keys) && NamedBy(taken, GaveOf(start, taken))
  {
    hide MayArrive, ClaimOf, WrittenFor, DroppedName;
    forall t | t in taken
      ensures ClaimOf(t.claimed).Some? && DroppedName(t.claimed) == t.dropped && MayArrive(t.dropped) && t.claimed !in claiming.held
    {
      claiming.ClaimedNames(t.dropped, t.claimed);
    }
  }

  /** One receive, each of what it handed over accepted: that is gone, and the rest
      is left, but what was held and went back. One that hands nothing over leaves
      everything known; and where everything was known already, nothing was to be
      had but what lies refused. */
  method Receive(claiming: Claiming, site: Memory, most: nat, inFlight: set<string>) returns (handed: seq<Taken>, ghost gave: Gave)
    requires Bound(claiming, site)
    modifies claiming, claiming.refused, site`dir
    ensures Bound(claiming, site) && site.dir.turns == old(site.dir).turns && claiming.held.Keys <= old(claiming.held).Keys
    ensures |handed| <= most && NamedBy(handed, gave)
    ensures Drained(old(site.dir).files, site.dir.files, old(claiming.held).Keys, gave)
    ensures handed == [] ==> AtRest(site.dir.files, claiming.held.Keys, site.unasked)
                             && Known(site.dir.files, site.unstamped, claiming.listed, claiming.refused.held)
    ensures handed == [] && most > 0 && old(AtRest(site.dir.files, claiming.held.Keys, site.unasked)
                                           && Known(site.dir.files, site.unstamped, claiming.listed, claiming.refused.held)) ==>
              AllHad(site.dir, site.AnswersNow(), claiming.refused.held)
  {
    hide Reserved, Once, Drained, AtRest, Known, AllHad, Pending, ClaimedNames, NamedBy, HeldAreClaims, AllClaimable, Reached, Deletable;
    HeldClaims(claiming);
    ghost var start, held := site.dir.files, claiming.held.Keys;
    handed, gave := TakeBound(claiming, site, most, inFlight);
    ghost var mid, later := site.dir.files - ClaimedNames(handed), claiming.held.Keys;
    AcceptAll(claiming, site, handed);
    DrainedAfter(start, mid, site.dir.files, held, later, gave);
    ReachShrinks(start, site.dir.files, held, claiming.held.Keys, gave);
    StillClaimable(start, site.dir.files, held, claiming.held.Keys, claiming.claimant, site.unasked);
  }

  /** Received until two receives in a row bring nothing: whatever was refused, was
      held or cannot be had now, every artifact to be had is handed over, each
      once, and the rest is left. */
  method Drain(claiming: Claiming, site: Memory, most: nat, inFlight: set<string>) returns (handed: seq<Taken>, ghost gave: Gave)
    requires Bound(claiming, site) && most > 0
    modifies claiming, claiming.refused, site`dir
    ensures Bound(claiming, site) && site.dir.turns == old(site.dir).turns
    ensures Drained(old(site.dir).files, site.dir.files, old(claiming.held).Keys, gave) && NamedBy(handed, gave)
    ensures AllHad(site.dir, site.AnswersNow(), claiming.refused.held)
  {
    ghost var start, held := site.dir.files, claiming.held.Keys;
    handed, gave := [], [];
    NothingDrained(start, held);
    HeldClaims(claiming);
    hide Reserved, Once, Drained, AtRest, Known, AllHad, NamedBy, HeldAreClaims;
    NothingNamed();
    var empty := 0;
    while empty < 2
      invariant Bound(claiming, site) && site.dir.turns == old(site.dir).turns && empty <= 2 && claiming.held.Keys <= held
      invariant Drained(start, site.dir.files, held, gave) && NamedBy(handed, gave)
      invariant empty > 0 ==> AtRest(site.dir.files, claiming.held.Keys, site.unasked)
                              && Known(site.dir.files, site.unstamped, claiming.listed, claiming.refused.held)
      invariant empty == 2 ==> AllHad(site.dir, site.AnswersNow(), claiming.refused.held)
      decreases |Artifacts(site.dir.files)|, 2 - empty
    {
      ghost var before, later := site.dir.files, claiming.held.Keys;
      var more;
      ghost var given;
      more, given := Receive(claiming, site, most, inFlight);
      NamedJoin(handed, gave, more, given);
      Fewer(before, site.dir.files, later, given);
      DrainedJoin(start, before, site.dir.files, held, later, gave, given);
      handed, gave := handed + more, gave + given;
      empty := if more == [] then empty + 1 else 0;
    }
  }

  lemma NothingNamed()
    ensures NamedBy([], [])
  {}

  lemma NamedJoin(handed: seq<Taken>, gave: Gave, more: seq<Taken>, given: Gave)
    requires NamedBy(handed, gave) && NamedBy(more, given)
    ensures NamedBy(handed + more, gave + given) && (given == [] <==> more == [])
    ensures AllArrive(given)
  {
    hide MayArrive;
  }
}
