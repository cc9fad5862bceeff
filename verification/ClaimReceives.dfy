/**
 A whole receive of one Receive Location is steps of the protocol: its recovery
 where it is to do, what it settles, and its claims.
 */
module ClaimReceives {

  import opened Wrappers
  import opened Names
  import opened Nodes
  import opened Directory
  import opened ClaimProtocol
  import opened ClaimConservation
  import opened ClaimRuns
  import opened ClaimCalls
  import Claims
  import ClaimSite
  import Takes

  /** Nothing stands in the way of a claim of `d` under `c`. */
  ghost predicate Free(s: State, node: string, d: string, c: string) {
    && d in s.dir.files && d != "" && MayArrive(d) && Takes.WrittenFor(d, node, c)
    && c !in s.dir.files && c !in s.minted && c !in s.owners && c !in s.attempts
    && TurnOf(d) !in s.dir.files && TurnOf(d) !in s.dir.turns
  }

  /** What claims won leave of all but the location: an owner more for each. */
  ghost predicate TookOver(s: State, t: State, node: string, won: map<string, string>) {
    && t.held == s.held && t.attempts == s.attempts && t.sending == s.sending && t.recovering == s.recovering
    && (forall d | d in won :: d in s.dir.files && won[d] in t.owners && t.owners[won[d]] == Owner(node, s.dir.files[d].artifact))
    && (forall c | c in s.owners :: c in t.owners && t.owners[c] == s.owners[c])
    && (forall c | c in t.owners :: c in s.owners || Takes.WonAs(won, c))
  }

  lemma LeadsAll(s: State, kind: Kind, steps: seq<Step>, t: State)
    requires After(s, steps) == Some(t) && forall i | 0 <= i < |steps| :: Of(kind, steps[i])
    ensures Leads(s, kind, t)
  {}

  /** A claim won. */
  lemma OneWon(s: State, node: string, d: string, c: string) returns (t: State)
    requires Readable(node) && Free(s, node, d, c)
    ensures Leads(s, Takes(node), t) && Claimed(s, t, node, d, c, true, false, true)
  {
    t := OneClaimed(s, node, d, c, true, false, true);
  }

  lemma OneClaimed(s: State, node: string, d: string, c: string, renamed: bool, left: bool, won: bool) returns (t: State)
    requires Readable(node) && Free(s, node, d, c) && (won ==> renamed && !left)
    ensures Leads(s, Takes(node), t) && Claimed(s, t, node, d, c, renamed, left, won)
  {
    hide After, Claimed, Leads, TurnOf, Enabled, Spelled, ClaimedBy, Free;
    var nanos := FreeEnabled(s, node, d, c);
    var taking := TakeTurn(node, d, nanos);
    var steps := if renamed then [taking, Rename(c), EndClaim(c, left, won)] else [taking, EndClaim(c, left, won)];
    if renamed { RenamedClaim(s, node, d, nanos, left, won); } else { PassedClaim(s, node, d, nanos, left); }
    t := After(s, steps).value;
    LeadsAll(s, Takes(node), steps, t);
  }

  lemma FreeEnabled(s: State, node: string, d: string, c: string) returns (nanos: nat)
    requires Readable(node) && Free(s, node, d, c)
    ensures var taking := TakeTurn(node, d, nanos); Enabled(s, taking) && Spelled(taking) == c && ClaimedBy(c, node)
    ensures d in s.dir.files && TurnOf(d) !in s.dir.turns && TurnOf(d) !in s.dir.files
  {
    nanos :| c == ClaimName(d, node, Decimal(nanos));
    ClaimSpells(node, d, nanos);
    hide MayArrive, ClaimOf, SenderOf, TurnOf, ClaimName;
  }

  /** The others are as free as they were. */
  lemma FreeStill(s: State, t: State, node: string, d: string, c: string, d': string, c': string)
    requires Readable(node) && Free(s, node, d, c) && Free(s, node, d', c') && d != d' && c != c'
    requires Claimed(s, t, node, d, c, true, false, true)
    ensures Free(t, node, d', c')
  {
    var nanos :| c == ClaimName(d, node, Decimal(nanos));
    Takes.TurnApart(d', d, node, nanos);
    hide MayArrive, TurnOf, Takes.WrittenFor;
  }

  lemma TookRest(start: map<string, File>, files: map<string, File>, won: map<string, string>, d: string)
    requires Takes.Took(start, files, won, None) && d in won
    ensures d in start && Takes.Took(Moved(start, d, won[d]), files, won - {d}, None)
  {
    var c, mid, rest := won[d], Moved(start, d, won[d]), won - {d};
    forall n | n in files ensures n in mid || Takes.WonAs(rest, n) {
      if n !in start {
        var x :| x in won && won[x] == n;
        assert x != d ==> x in rest && rest[x] == n;
      }
    }
  }

  lemma NoneTook(start: map<string, File>, files: map<string, File>)
    requires Takes.Took(start, files, map[], None)
    ensures files == start
  {
    assert forall n | n in files :: n in start || Takes.WonAs(map[], n);
    assert files.Keys == start.Keys;
  }

  /** What was won, claimed one after another. */
  lemma {:induction false} TakenGoes(s: State, node: string, files: map<string, File>, won: map<string, string>) returns (t: State)
    requires Readable(node) && Takes.Took(s.dir.files, files, won, None)
    requires forall d | d in won :: Free(s, node, d, won[d])
    requires forall d, d' | d in won && d' in won && won[d] == won[d'] :: d == d'
    ensures Leads(s, Takes(node), t) && t.dir == Dir(files, s.dir.turns) && TookOver(s, t, node, won)
    ensures forall c | c in t.minted :: c in s.minted || Takes.WonAs(won, c)
    decreases |won|
  {
    hide Leads, Takes.Took, Takes.WonAs, Free, Claimed, TookOver;
    if won == map[] {
      NoneTook(s.dir.files, files);
      Stays(s, Takes(node));
      NoneOver(s, node);
      t := s;
    } else {
      var d :| d in won;
      var rest := won - {d};
      TookRest(s.dir.files, files, won, d);
      var next := OneWon(s, node, d, won[d]);
      ClaimedFiles(s, next, node, d, won[d]);
      forall d' | d' in rest ensures Free(next, node, d', rest[d']) {
        FreeStill(s, next, node, d, won[d], d', won[d']);
      }
      t := TakenGoes(next, node, files, rest);
      LeadsOn(s, Takes(node), next, t);
      TookOverJoin(s, next, t, node, won, d);
    }
  }

  lemma NoneOver(s: State, node: string)
    ensures TookOver(s, s, node, map[])
  {}

  lemma ClaimedFiles(s: State, t: State, node: string, d: string, c: string)
    requires Claimed(s, t, node, d, c, true, false, true)
    ensures d in s.dir.files && t.dir == Dir(Moved(s.dir.files, d, c), s.dir.turns)
  {}

  lemma TookOverJoin(s: State, mid: State, t: State, node: string, won: map<string, string>, d: string)
    requires d in won && forall x | x in won :: Free(s, node, x, won[x])
    requires forall x, y | x in won && y in won && won[x] == won[y] :: x == y
    requires Claimed(s, mid, node, d, won[d], true, false, true) && TookOver(mid, t, node, won - {d})
    requires forall c | c in t.minted :: c in mid.minted || Takes.WonAs(won - {d}, c)
    ensures TookOver(s, t, node, won) && forall c | c in t.minted :: c in s.minted || Takes.WonAs(won, c)
  {
    hide MayArrive, Takes.WrittenFor, TurnOf;
    var rest := won - {d};
    assert Free(s, node, d, won[d]) && Takes.WonAs(won, won[d]);
    forall c | Takes.WonAs(rest, c) ensures Takes.WonAs(won, c) {
      var x :| x in rest && rest[x] == c;
      assert x in won && won[x] == c;
    }
    forall x | x in won ensures won[x] in t.owners && t.owners[won[x]] == Owner(node, s.dir.files[x].artifact) {
      if x != d { assert x in rest && Free(s, node, x, won[x]); }
    }
  }

  // ------------------------------------------------- where a claim breaks off

  /** Where the files stood before the claim that failed. */
  lemma BeforeBreak(start: map<string, File>, files: map<string, File>, won: map<string, string>, d: string, c: string)
    returns (mid: map<string, File>)
    requires Takes.Took(start, files, won, Some((d, c))) && d in start && c !in start && !Takes.WonAs(won, c)
    requires c in files <==> d !in files
    ensures Takes.Took(start, mid, won, None) && d in mid && mid[d] == start[d] && c !in mid
    ensures files == if d in files then mid else Moved(mid, d, c)
  {
    mid := if d in files then files else (files - {c})[d := start[d]];
    assert forall x | x in won :: Takes.WonAs(won, won[x]);
    if d !in files { assert Moved(mid, d, c) == files; }
  }

  /** A name never spelled lies nowhere and is nobody's. */
  lemma Unspelled(s: State, node: string, d: string, c: string)
    requires Conserved(s) && Readable(node) && d != "" && Takes.WrittenFor(d, node, c) && c !in s.minted
    ensures c !in s.dir.files && c !in s.owners && c !in s.attempts
    ensures ClaimOf(c) == Some(Claim(d, node))
  {
    var nanos :| c == ClaimName(d, node, Decimal(nanos));
    ClaimSpells(node, d, nanos);
    hide MayArrive, ClaimOf, SenderOf, ClaimName, Accounted, SendsSpelt, RecoveriesSpelt, SendsSpared;
  }

  /** What a listing's claims came to, of each that they renamed or took the turn of. */
  lemma ClaimsFree(s: State, node: string, after: Dir, far: ClaimSite.Answers, listed: map<string, Option<nat>>, found: Takes.Found,
                   most: nat, taken: seq<Takes.Taken>, seen: map<string, Option<nat>>, won: map<string, string>, broken: Takes.Broken)
    requires Conserved(s) && Readable(node) && Takes.Arrivals(s.dir.files, found)
    requires Takes.Taking(s.dir, after, Takes.ByName(found), most, taken, seen, won, broken, Takes.ChancesOf(s.dir, far, listed, found), node)
    requires forall x | x in won :: won[x] !in s.minted
    ensures Takes.Took(s.dir.files, after.files, won, broken)
    ensures forall x | x in won :: Free(s, node, x, won[x])
  {
    hide Conserved, Takes.Took, MayArrive, Takes.WrittenFor, Takes.ByName, TurnOf;
    forall x | x in won ensures Free(s, node, x, won[x]) {
      Takes.FoundByName(s.dir.files, found, x);
      Unspelled(s, node, x, won[x]);
      var item :| item in found && item.0 == x && Takes.WinnableIn(s.dir, far, item.0, item.1);
    }
  }

  /** The claim it broke off at, and what that left. */
  lemma BreakIs(s: State, node: string, after: Dir, far: ClaimSite.Answers, listed: map<string, Option<nat>>, found: Takes.Found,
                most: nat, taken: seq<Takes.Taken>, seen: map<string, Option<nat>>, won: map<string, string>, d: string, c: string)
    requires Conserved(s) && Readable(node) && Takes.Arrivals(s.dir.files, found) && c !in s.minted
    requires Takes.Taking(s.dir, after, Takes.ByName(found), most, taken, seen, won, Some((d, c)),
                          Takes.ChancesOf(s.dir, far, listed, found), node)
    ensures d !in won && d in s.dir.files && d != "" && MayArrive(d) && Takes.WrittenFor(d, node, c)
    ensures c !in s.dir.files && !Takes.WonAs(won, c) && (c in after.files <==> d !in after.files)
    ensures var left := after.turns != s.dir.turns;
            && (left ==> after.turns == s.dir.turns[TurnOf(d) := node])
            && (left || d !in after.files ==> TurnOf(d) !in s.dir.files && TurnOf(d) !in s.dir.turns)
  {
    hide Conserved, MayArrive, Takes.ByName, TurnOf;
    Takes.FoundByName(s.dir.files, found, d);
    Unspelled(s, node, d, c);
    if Takes.WonAs(won, c) {
      var x :| x in won && won[x] == c;
      Takes.FoundByName(s.dir.files, found, x);
      SpelledOnce(node, x, d, c);
    }
    hide Takes.Took, Takes.WrittenFor;
  }

  lemma SpelledOnce(node: string, d: string, d': string, c: string)
    requires Readable(node) && d != "" && d' != "" && Takes.WrittenFor(d, node, c) && Takes.WrittenFor(d', node, c)
    ensures d == d'
  {
    var t :| c == ClaimName(d, node, Decimal(t));
    var t' :| c == ClaimName(d', node, Decimal(t'));
    ClaimSpells(node, d, t);
    ClaimSpells(node, d', t');
  }

  /** A listing's claims are the steps of each that was won, and of the one that
      failed as far as it came: what `Claims.Claiming.TakeFound` makes of a location. */
  lemma TakeFoundIsSteps(s: State, node: string, after: Dir, far: ClaimSite.Answers, listed: map<string, Option<nat>>, found: Takes.Found,
                         most: nat, taken: seq<Takes.Taken>, seen: map<string, Option<nat>>, won: map<string, string>, broken: Takes.Broken)
    requires Conserved(s) && Readable(node) && Takes.Arrivals(s.dir.files, found)
    requires Takes.Taking(s.dir, after, Takes.ByName(found), most, taken, seen, won, broken, Takes.ChancesOf(s.dir, far, listed, found), node)
    requires forall x | x in won :: won[x] !in s.minted
    requires broken.Some? ==> broken.value.1 !in s.minted
    ensures exists t :: Leads(s, Takes(node), t) && t.dir == after && TookOver(s, t, node, won)
  {
    ClaimsFree(s, node, after, far, listed, found, most, taken, seen, won, broken);
    WonApart(s.dir.files, after.files, won, broken);
    if broken.None? {
      assert after.turns == s.dir.turns;
      hide Conserved, Takes.Took, Free, Leads, TookOver;
      var t := TakenGoes(s, node, after.files, won);
    } else {
      var (d, c) := broken.value;
      BreakIs(s, node, after, far, listed, found, most, taken, seen, won, d, c);
      Unspelled(s, node, d, c);
      hide Conserved, Takes.Took, Takes.Taking, Free, Leads, TookOver, Takes.WonAs, TurnOf, MayArrive, ClaimOf, Takes.WrittenFor;
      var t := BrokenGoes(s, node, after, won, d, c);
    }
  }

  lemma WonApart(start: map<string, File>, files: map<string, File>, won: map<string, string>, broken: Takes.Broken)
    requires Takes.Took(start, files, won, broken)
    ensures forall d, d' | d in won && d' in won && won[d] == won[d'] :: d == d'
  {}

  lemma BrokenGoes(s: State, node: string, after: Dir, won: map<string, string>, d: string, c: string) returns (t: State)
    requires Readable(node) && Takes.Took(s.dir.files, after.files, won, Some((d, c)))
    requires forall x | x in won :: Free(s, node, x, won[x])
    requires forall x, y | x in won && y in won && won[x] == won[y] :: x == y
    requires d !in won && d in s.dir.files && d != "" && MayArrive(d) && Takes.WrittenFor(d, node, c)
    requires c !in s.dir.files && c !in s.minted && c !in s.owners && c !in s.attempts
    requires !Takes.WonAs(won, c) && (c in after.files <==> d !in after.files)
    requires var left := after.turns != s.dir.turns;
             && (left ==> after.turns == s.dir.turns[TurnOf(d) := node])
             && (left || d !in after.files ==> TurnOf(d) !in s.dir.files && TurnOf(d) !in s.dir.turns)
    ensures Leads(s, Takes(node), t) && t.dir == after && TookOver(s, t, node, won)
  {
    hide Leads, Free, TookOver, Takes.WonAs, Takes.Took, TurnOf, MayArrive, Takes.WrittenFor, Claimed;
    var files := BeforeBreak(s.dir.files, after.files, won, d, c);
    var mid := TakenGoes(s, node, files, won);
    var left := after.turns != s.dir.turns;
    if left || d !in after.files {
      FreeAfter(s, mid, node, won, d, c);
      t := OneClaimed(mid, node, d, c, d !in after.files, left, false);
      LeadsOn(s, Takes(node), mid, t);
      BrokenOver(s, mid, t, node, won, d, c, d !in after.files, left);
    } else {
      t := mid;
      assert t.dir == after;
    }
  }

  /** What was won is no hindrance to the claim after it. */
  lemma FreeAfter(s: State, mid: State, node: string, won: map<string, string>, d: string, c: string)
    requires Readable(node) && (forall x | x in won :: Free(s, node, x, won[x])) && TookOver(s, mid, node, won)
    requires d != "" && MayArrive(d) && Takes.WrittenFor(d, node, c) && d in mid.dir.files && c !in mid.dir.files
    requires c !in s.minted && c !in s.owners && c !in s.attempts && !Takes.WonAs(won, c)
    requires TurnOf(d) !in s.dir.files && TurnOf(d) !in s.dir.turns
    requires Takes.Took(s.dir.files, mid.dir.files, won, None) && mid.dir.turns == s.dir.turns
    requires forall x | x in mid.minted :: x in s.minted || Takes.WonAs(won, x)
    ensures Free(mid, node, d, c)
  {
    hide MayArrive, Takes.WrittenFor;
    if TurnOf(d) in mid.dir.files {
      var x :| x in won && won[x] == TurnOf(d);
      assert Free(s, node, x, won[x]);
      TurnNeverSpelled(node, x, won[x], d);
    }
  }

  lemma TurnNeverSpelled(node: string, x: string, c: string, d: string)
    requires d != "" && Takes.WrittenFor(x, node, c)
    ensures TurnOf(d) != c
  {
    var t :| c == ClaimName(x, node, Decimal(t));
    Takes.TurnApart(d, x, node, t);
  }

  lemma BrokenOver(s: State, mid: State, t: State, node: string, won: map<string, string>, d: string, c: string, renamed: bool, left: bool)
    requires TookOver(s, mid, node, won) && Claimed(mid, t, node, d, c, renamed, left, false)
    requires Free(mid, node, d, c)
    ensures TookOver(s, t, node, won)
    ensures t.dir.files == if renamed && d in mid.dir.files then Moved(mid.dir.files, d, c) else mid.dir.files
    ensures t.dir.turns == if left then mid.dir.turns[TurnOf(d) := node] else mid.dir.turns
  {
    hide TurnOf;
    assert t.owners == mid.owners && t.attempts == mid.attempts;
  }

  // ------------------------------------------------------------ a whole receive

  /** What a recovery made of a location, where one was to do: completed, or not. */
  ghost predicate RecoveredSo(s: State, node: string, recovers: bool, after: Dir, kept: set<string>,
                              unasked: set<(ClaimSite.Operation, string)>) {
    if !recovers then after == s.dir && kept == {}
    else
      || Claims.RecoveredTo(s.dir, after, node, s.sending.Keys, kept, unasked)
      || (kept == {} && Claims.PartlyCleared(s.dir, after, node, s.sending.Keys))
  }

  lemma RecoversBySteps(s: State, node: string, recovers: bool, after: Dir, kept: set<string>,
                        unasked: set<(ClaimSite.Operation, string)>) returns (t: State)
    requires Conserved(s) && Readable(node) && node !in s.recovering && RecoveredSo(s, node, recovers, after, kept, unasked)
    ensures Leads(s, Receives(node), t) && Recovered(s, t, after, kept)
  {
    hide Conserved, Leads, Recovered, Claims.RecoveredTo, Claims.PartlyCleared;
    if !recovers {
      Stays(s, Receives(node));
      AsBefore(s);
      t := s;
    } else {
      if Claims.RecoveredTo(s.dir, after, node, s.sending.Keys, kept, unasked) {
        RecoverIsSteps(s, after, node, kept, unasked);
      } else {
        RecoverFailsIsSteps(s, after, node);
      }
      t :| Leads(s, Recovers(node), t) && Recovered(s, t, after, kept);
      LeadsWider(s, Recovers(node), t, node);
    }
  }

  lemma AsBefore(s: State)
    ensures Recovered(s, s, s.dir, {})
  {
    assert s.held + {} == s.held;
  }

  lemma LeadsConserves(s: State, kind: Kind, t: State)
    requires Conserved(s) && Leads(s, kind, t)
    ensures Conserved(t)
  {
    hide Conserved, After, Of;
    var steps :| After(s, steps) == Some(t) && forall i | 0 <= i < |steps| :: Of(kind, steps[i]);
    AfterConserves(s, steps);
  }

  /** Where a receive listed: its node's recovery made, and what was held settled. */
  ghost predicate ListedAt(s: State, u: State, node: string, course: Claims.Course, now: set<string>) {
    && Leads(s, Receives(node), u) && u.dir == course.before && u.held == s.held + course.kept - (course.waiting.Keys - now)
    && u.owners == s.owners && u.attempts == s.attempts && u.sending == s.sending && u.recovering == s.recovering && u.minted == s.minted
  }

  /** What `Claims.Claiming.Take` makes of a location, `recovers` where it was to
      recover, is steps of its node: those of its recovery, completed or not, and
      of what it settles, to where it listed; and those of its claims. */
  lemma TakeIsSteps(s: State, node: string, recovers: bool, course: Claims.Course, now: set<string>, after: Dir, far: ClaimSite.Answers,
                    listed: map<string, Option<nat>>, most: nat, taken: seq<Takes.Taken>, seen: map<string, Option<nat>>)
    requires Conserved(s) && Claims.Reserved(s.dir.files) && Readable(node) && node !in s.recovering
    requires course.waiting.Keys <= s.held + course.kept && RecoveredSo(s, node, recovers, course.recovered, course.kept, far.unasked)
    requires Claims.Settling(course.recovered.files, course.before.files, course.waiting.Keys, now, {}, far.unasked)
    requires course.before.turns == course.recovered.turns
    requires var found := Takes.FoundIn(course.listing, course.hidden);
             if (ClaimSite.List, "") in far.unasked then after == course.before && course.won == map[]
             else ClaimSite.ListsOf(course.before.files, far.unstamped, course.listing)
                  && Takes.Taking(course.before, after, Takes.ByName(found), most, taken, seen, course.won, course.broken,
                                  Takes.ChancesOf(course.before, far, listed, found), node)
    requires forall d | d in course.won :: course.won[d] !in s.minted
    requires course.broken.Some? ==> course.broken.value.1 !in s.minted
    ensures exists u, t ::
              ListedAt(s, u, node, course, now) && Leads(u, Takes(node), t) && t.dir == after && TookOver(u, t, node, course.won)
  {
    hide Conserved, Leads, Takes.Taking, Takes.ByName, Takes.ChancesOf, Takes.Arrivals, Claims.Settling, Takes.FoundIn, RecoveredSo, TookOver;
    var u := ListsAfter(s, node, recovers, course, now, far.unasked);
    LeadsConserves(s, Receives(node), u);
    var found := Takes.FoundIn(course.listing, course.hidden);
    if (ClaimSite.List, "") in far.unasked {
      Stays(u, Takes(node));
      NoneOver(u, node);
      assert ListedAt(s, u, node, course, now) && Leads(u, Takes(node), u) && u.dir == after && TookOver(u, u, node, course.won);
    } else {
      ReservedThrough(s, node, recovers, course, now, far.unasked);
      Takes.FoundArrives(course.before.files, far.unstamped, course.listing, course.hidden);
      TakeFoundIsSteps(u, node, after, far, listed, found, most, taken, seen, course.won, course.broken);
      var t :| Leads(u, Takes(node), t) && t.dir == after && TookOver(u, t, node, course.won);
      assert ListedAt(s, u, node, course, now);
    }
  }

  /** No file comes to have no name. */
  lemma ReservedThrough(s: State, node: string, recovers: bool, course: Claims.Course, now: set<string>,
                        unasked: set<(ClaimSite.Operation, string)>)
    requires Claims.Reserved(s.dir.files) && RecoveredSo(s, node, recovers, course.recovered, course.kept, unasked)
    requires Claims.Settling(course.recovered.files, course.before.files, course.waiting.Keys, now, {}, unasked)
    ensures "" !in course.before.files
  {
    hide MayArrive, ClaimOf, SenderOf, ClaimedBy, Claims.Settling, Claims.MineOf, Claims.LeftOf;
    if recovers && Claims.RecoveredTo(s.dir, course.recovered, node, s.sending.Keys, course.kept, unasked) {
      var cleared := s.dir.files - Claims.LeftOf(s.dir.files, node, s.sending.Keys);
      Claims.ReservedWithin(s.dir.files, cleared);
      Claims.SettlingReserved(cleared, course.recovered.files, Claims.MineOf(s.dir.files, node), course.kept, unasked);
    } else {
      Claims.ReservedWithin(s.dir.files, course.recovered.files);
    }
    Claims.SettlingReserved(course.recovered.files, course.before.files, course.waiting.Keys, now, unasked);
  }

  lemma ListsAfter(s: State, node: string, recovers: bool, course: Claims.Course, now: set<string>,
                   unasked: set<(ClaimSite.Operation, string)>) returns (u: State)
    requires Conserved(s) && Readable(node) && node !in s.recovering && course.waiting.Keys <= s.held + course.kept
    requires RecoveredSo(s, node, recovers, course.recovered, course.kept, unasked)
    requires Claims.Settling(course.recovered.files, course.before.files, course.waiting.Keys, now, {}, unasked)
    requires course.before.turns == course.recovered.turns
    ensures ListedAt(s, u, node, course, now)
  {
    hide Conserved, Leads, Claims.Settling, RecoveredSo;
    var recovered := RecoversBySteps(s, node, recovers, course.recovered, course.kept, unasked);
    LeadsConserves(s, Receives(node), recovered);
    SettleIsSteps(recovered, course.before.files, course.waiting.Keys, now, unasked);
    u := recovered.(dir := Dir(course.before.files, recovered.dir.turns), held := recovered.held - (course.waiting.Keys - now));
    LeadsWider(recovered, Settles, u, node);
    LeadsOn(s, Receives(node), recovered, u);
  }
}
