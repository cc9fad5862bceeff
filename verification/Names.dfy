/**
 The names the file family writes at a far end: a claimed name, a turn, and a
 sent file not yet in place; and how each is read back.
 */
module Names {

  import opened Wrappers

  const MARK: string := ".xmip-claim."
  const TURN: string := ".xmip-claim"
  const SENDING: string := ".xmip-sending."

  /** The sending mark up to the dot that ends it. */
  const SENT: string := ".xmip-sending"

  /** The one claimant whose claimed names do not read back. */
  const UNREADABLE: string := "xmip-claim"

  // ---------------------------------------------------------------- writing

  predicate IsDigit(c: char) { '0' <= c <= '9' }

  /** A count or a time as a name carries it: digits, at least one. */
  predicate Digits(s: string) { s != "" && forall i :: 0 <= i < |s| ==> IsDigit(s[i]) }

  function ClaimName(dropped: string, claimant: string, nanos: string): string {
    dropped + MARK + claimant + "." + nanos
  }

  function TurnOf(dropped: string): string { dropped + TURN }

  function SendingName(target: string, claimant: string, count: string, nanos: string): string {
    target + SENDING + claimant + "." + count + "." + nanos
  }

  // ---------------------------------------------------------------- reading

  predicate At(s: string, mark: string, at: nat) {
    at + |mark| <= |s| && s[at..at + |mark|] == mark
  }

  /** The last place `mark` lies in `s`, at or before `from`. */
  function LastAt(s: string, mark: string, from: nat): (r: Option<nat>)
    ensures r.Some? ==> r.value <= from && At(s, mark, r.value)
    ensures r.Some? ==> forall k: nat :: r.value < k <= from ==> !At(s, mark, k)
    ensures r.None? ==> forall k: nat :: k <= from ==> !At(s, mark, k)
  {
    if At(s, mark, from) then Some(from)
    else if from == 0 then None
    else LastAt(s, mark, from - 1)
  }

  /** The first place `c` lies in `s`. */
  function IndexOf(s: string, c: char): (r: Option<nat>)
    ensures r.Some? ==> r.value < |s| && s[r.value] == c && c !in s[..r.value]
    ensures r.None? ==> c !in s
  {
    if s == "" then None
    else if s[0] == c then Some(0)
    else match IndexOf(s[1..], c)
      case None => None
      case Some(at) => assert s[..at + 1] == [s[0]] + s[1..][..at]; Some(at + 1)
  }

  datatype Claim = Claim(dropped: string, claimant: string)

  /** The claim `name` records; nothing where it records none. */
  function ClaimOf(name: string): Option<Claim> {
    match LastAt(name, MARK, |name|)
    case None => None
    case Some(at) =>
      var rest := name[at + |MARK|..];
      match IndexOf(rest, '.')
      case None => None
      case Some(dot) =>
        if at > 0 && dot > 0 && Digits(rest[dot + 1..])
        then Some(Claim(name[..at], rest[..dot]))
        else None
  }

  predicate IsTurn(name: string) {
    |name| > |TURN| && name[|name| - |TURN|..] == TURN
  }

  /** Where the run of `s` up to `end` that `kept` takes begins. */
  function RunStart(s: string, end: nat, kept: char -> bool): (at: nat)
    requires end <= |s|
    ensures at <= end
    ensures forall i :: at <= i < end ==> kept(s[i])
    ensures at > 0 ==> !kept(s[at - 1])
  {
    if end > 0 && kept(s[end - 1]) then RunStart(s, end - 1, kept) else end
  }

  /** Where the dot lies before that run: nothing where it is empty, or no dot ends it. */
  function Before(s: string, end: nat, kept: char -> bool): (r: Option<nat>)
    requires end <= |s|
    ensures r.Some? ==> r.value + 1 < end && s[r.value] == '.'
    ensures r.Some? ==> forall i :: r.value < i < end ==> kept(s[i])
  {
    var at := RunStart(s, end, kept);
    if at < end && at > 0 && s[at - 1] == '.' then Some(at - 1) else None
  }

  function NotDot(c: char): bool { c != '.' }

  /** The dots before the node, the count and the time a sent file's name ends with. */
  function Cuts(name: string): (r: Option<(nat, nat, nat)>)
    ensures r.Some? ==> var (named, numbered, counted) := r.value;
              named + 1 < numbered && numbered + 1 < counted && counted + 1 < |name|
  {
    match Before(name, |name|, IsDigit)
    case None => None
    case Some(counted) =>
      match Before(name, counted, IsDigit)
      case None => None
      case Some(numbered) =>
        match Before(name, numbered, NotDot)
        case None => None
        case Some(named) => Some((named, numbered, counted))
  }

  /** The claimant whose send is writing, or left, the file `name`. */
  function SenderOf(name: string): Option<string> {
    match Cuts(name)
    case None => None
    case Some((named, numbered, _)) =>
      if |SENT| < named && name[named - |SENT|..named] == SENT
      then Some(name[named + 1..numbered])
      else None
  }

  predicate ClaimedBy(name: string, node: string) {
    ClaimOf(name).Some? && ClaimOf(name).value.claimant == node
  }

  /** The name a claimed name records was dropped; none of any other. */
  function DroppedName(claimed: string): string {
    if ClaimOf(claimed).Some? then ClaimOf(claimed).value.dropped else ""
  }

  /** A sent file of `node`'s not yet in place, as its recovery sorts the names it lists. */
  predicate SentBy(name: string, node: string) {
    !ClaimedBy(name, node) && SenderOf(name) == Some(node)
  }

  predicate IsClaimed(name: string) { IsTurn(name) || ClaimOf(name).Some? }

  predicate IsUnfinished(name: string) { SenderOf(name).Some? }

  /** Whether `name` may be an arrival. */
  predicate MayArrive(name: string) { !IsClaimed(name) && !IsUnfinished(name) }

  // ------------------------------------------------- the reading, as loops

  method ReadBefore(s: string, end: nat, kept: char -> bool) returns (r: Option<nat>)
    requires end <= |s|
    ensures r == Before(s, end, kept)
  {
    var at := end;
    while at > 0 && kept(s[at - 1])
      invariant 0 <= at <= end
      invariant RunStart(s, at, kept) == RunStart(s, end, kept)
    {
      at := at - 1;
    }
    if at < end && at > 0 && s[at - 1] == '.' { return Some(at - 1); }
    return None;
  }

  // ------------------------------------------------------- reading is exact

  /** A string is cut at its last dot in one way. */
  lemma LastDot(u: string, v: string, u': string, v': string)
    requires u + "." + v == u' + "." + v'
    requires '.' !in v && '.' !in v'
    ensures u == u' && v == v'
  {
    var s, s' := u + "." + v, u' + "." + v';
    assert s[|u|] == '.' && forall i :: |u| < i < |s| ==> s[i] == v[i - |u| - 1] != '.';
    assert s'[|u'|] == '.' && forall i :: |u'| < i < |s'| ==> s'[i] == v'[i - |u'| - 1] != '.';
    assert |u| == |u'|;
    assert s[..|u|] == u && s'[..|u'|] == u';
    assert s[|u| + 1..] == v && s'[|u'| + 1..] == v';
  }

  /** A claimed name, joined at its dots. */
  lemma ClaimJoined(d: string, c: string, nanos: string)
    ensures ClaimName(d, c, nanos) == d + "." + UNREADABLE + "." + c + "." + nanos
  {
    assert MARK == "." + UNREADABLE + ".";
    assert d + MARK == d + "." + UNREADABLE + ".";
  }

  /** Whose claimed names read back. */
  predicate Readable(claimant: string) {
    claimant != "" && '.' !in claimant && claimant != UNREADABLE
  }

  /** After the mark a claimed name was written with, the mark lies again only
      where the claimant is the mark's own word. */
  lemma NoLaterMark(d: string, c: string, nanos: string, k: nat)
    requires '.' !in c && Digits(nanos)
    requires |d| < k && At(ClaimName(d, c, nanos), MARK, k)
    ensures k == |d| + |TURN| && c == UNREADABLE
  {
    var name := ClaimName(d, c, nanos);
    var first := |d| + |MARK|;
    var dot := first + |c|;
    assert forall i :: 0 <= i < |MARK| ==> name[k + i] == name[k..k + |MARK|][i] == MARK[i];
    assert forall i :: 0 < i < 11 ==> MARK[i] != '.';
    assert forall i :: |d| < i < |d| + 11 ==> name[i] == MARK[i - |d|];
    assert forall i :: first <= i < dot ==> name[i] == c[i - first];
    assert forall i :: dot < i < |name| ==> name[i] == nanos[i - dot - 1];
    assert name[k + 0] == '.' && name[k + 11] == '.' && name[k + 1] == 'x';
    assert k == |d| + 11 && k + 11 == dot;
    assert forall i :: 0 <= i < 10 ==> c[i] == name[k + (i + 1)] == UNREADABLE[i];
  }

  /** What `ClaimOf` reads back of a name written as a claim: the claim itself,
      and exactly when the artifact has a name and the claimant is readable. */
  lemma ClaimReadsBack(d: string, c: string, nanos: string)
    requires '.' !in c && Digits(nanos)
    ensures ClaimOf(ClaimName(d, c, nanos)) == Some(Claim(d, c)) <==> d != "" && Readable(c)
  {
    var name := ClaimName(d, c, nanos);
    assert name[|d|..|d| + |MARK|] == MARK;
    assert At(name, MARK, |d|);
    if c == UNREADABLE {
      var later := |d| + |TURN|;
      assert name[later..later + |MARK|] == MARK;
      assert At(name, MARK, later);
      forall k: nat | later < k && At(name, MARK, k) ensures false { NoLaterMark(d, c, nanos, k); }
      assert LastAt(name, MARK, |name|) == Some(later);
      assert name[later + |MARK|..] == nanos;
      assert '.' !in nanos;
    } else {
      forall k: nat | |d| < k && At(name, MARK, k) ensures false { NoLaterMark(d, c, nanos, k); }
      assert LastAt(name, MARK, |name|) == Some(|d|);
      var rest := name[|d| + |MARK|..];
      assert rest == c + "." + nanos;
      assert rest[|c|] == '.' && forall i :: 0 <= i < |c| ==> rest[i] == c[i] != '.';
      assert IndexOf(rest, '.') == Some(|c|);
      assert rest[..|c|] == c && rest[|c| + 1..] == nanos && name[..|d|] == d;
    }
  }

  /** What reads as a claim was written as one. */
  lemma ClaimOfWrote(name: string, d: string, c: string)
    requires ClaimOf(name) == Some(Claim(d, c))
    ensures d != "" && '.' !in c && exists nanos :: Digits(nanos) && name == ClaimName(d, c, nanos)
  {
    var at := LastAt(name, MARK, |name|).value;
    var rest := name[at + |MARK|..];
    var dot := IndexOf(rest, '.').value;
    var nanos := rest[dot + 1..];
    assert Digits(nanos) && d == name[..at] && c == rest[..dot];
    Rejoined(name, at, rest, dot);
    hide LastAt, IndexOf, ClaimOf;
    assert name == ClaimName(d, c, nanos);
  }

  lemma Rejoined(name: string, at: nat, rest: string, dot: nat)
    requires At(name, MARK, at) && rest == name[at + |MARK|..] && dot < |rest| && rest[dot] == '.'
    ensures name == ClaimName(name[..at], rest[..dot], rest[dot + 1..])
  {
    assert rest == rest[..dot] + "." + rest[dot + 1..];
    assert name == name[..at] + MARK + rest;
  }

  /** A claim is read off exactly the names a readable claimant writes one as. */
  lemma ClaimOfExactly(name: string, d: string, c: string)
    ensures ClaimOf(name) == Some(Claim(d, c))
       <==> d != "" && Readable(c) && exists nanos :: Digits(nanos) && name == ClaimName(d, c, nanos)
  {
    hide ClaimOf, ClaimName;
    if ClaimOf(name) == Some(Claim(d, c)) {
      ClaimOfWrote(name, d, c);
      var nanos :| Digits(nanos) && name == ClaimName(d, c, nanos);
      ClaimReadsBack(d, c, nanos);
    }
    forall nanos | Digits(nanos) && Readable(c) && d != "" && name == ClaimName(d, c, nanos)
      ensures ClaimOf(name) == Some(Claim(d, c))
    {
      ClaimReadsBack(d, c, nanos);
    }
  }

  /** Where a run lies behind a dot, `Before` finds that dot. */
  lemma BeforeFinds(s: string, dot: nat, end: nat, kept: char -> bool)
    requires dot + 1 < end <= |s| && s[dot] == '.' && !kept('.')
    requires forall i :: dot < i < end ==> kept(s[i])
    ensures Before(s, end, kept) == Some(dot)
  {
    assert RunStart(s, end, kept) == dot + 1;
  }

  /** A sent file's name, joined at its dots. */
  lemma SendingJoined(t: string, c: string, count: string, nanos: string)
    ensures SendingName(t, c, count, nanos) == t + SENT + "." + c + "." + count + "." + nanos
  {
    assert SENDING == SENT + ".";
    assert t + SENDING == t + SENT + ".";
  }

  lemma CutsFound(front: string, c: string, count: string, nanos: string)
    requires c != "" && '.' !in c && Digits(count) && Digits(nanos)
    ensures var name := front + "." + c + "." + count + "." + nanos;
            var named := |front|;
            var numbered := named + 1 + |c|;
            && Cuts(name) == Some((named, numbered, numbered + 1 + |count|))
            && name[..named] == front && name[named + 1..numbered] == c
  {
    var name := front + "." + c + "." + count + "." + nanos;
    var named := |front|;
    var numbered := named + 1 + |c|;
    var counted := numbered + 1 + |count|;
    assert name[named] == '.' && name[numbered] == '.' && name[counted] == '.';
    assert forall i :: counted < i < |name| ==> name[i] == nanos[i - counted - 1];
    assert forall i :: numbered < i < counted ==> name[i] == count[i - numbered - 1];
    assert forall i :: named < i < numbered ==> name[i] == c[i - named - 1];
    BeforeFinds(name, counted, |name|, IsDigit);
    BeforeFinds(name, numbered, counted, IsDigit);
    BeforeFinds(name, named, numbered, NotDot);
  }

  /** A sent file's name reads back its sender, whatever the target and the node. */
  lemma SenderReadsBack(t: string, c: string, count: string, nanos: string)
    requires t != "" && c != "" && '.' !in c && Digits(count) && Digits(nanos)
    ensures SenderOf(SendingName(t, c, count, nanos)) == Some(c)
  {
    SendingJoined(t, c, count, nanos);
    CutsFound(t + SENT, c, count, nanos);
    var name := SendingName(t, c, count, nanos);
    assert name[|t|..|t + SENT|] == name[..|t + SENT|][|t|..] == SENT;
  }

  ghost predicate WrittenByClaim(name: string) {
    exists d, c, nanos :: d != "" && Readable(c) && Digits(nanos) && name == ClaimName(d, c, nanos)
  }

  /** What a sent file not yet in place is, as its name is written. */
  ghost predicate WrittenBySend(name: string, c: string) {
    exists t, count, nanos ::
      t != "" && Digits(count) && Digits(nanos) && name == SendingName(t, c, count, nanos)
  }

  /** Joined at three dots, a string's parts are where the dots say. */
  lemma CutAtDots(s: string, i: nat, j: nat, k: nat)
    requires i < j < k < |s| && s[i] == s[j] == s[k] == '.'
    ensures s == s[..i] + "." + s[i + 1..j] + "." + s[j + 1..k] + "." + s[k + 1..]
  {}

  lemma CutsAreDots(name: string)
    requires Cuts(name).Some?
    ensures var (named, numbered, counted) := Cuts(name).value;
            && name[named] == name[numbered] == name[counted] == '.'
            && '.' !in name[named + 1..numbered]
            && Digits(name[numbered + 1..counted]) && Digits(name[counted + 1..])
  {}

  lemma WrittenAs(t: string, c: string, count: string, nanos: string)
    requires t != "" && Digits(count) && Digits(nanos)
    ensures WrittenBySend(t + SENT + "." + c + "." + count + "." + nanos, c)
  {
    SendingJoined(t, c, count, nanos);
  }

  /** What reads as a sent file not yet in place was written as one. */
  lemma SenderOfWrote(name: string, c: string)
    requires SenderOf(name) == Some(c)
    ensures c != "" && '.' !in c && WrittenBySend(name, c)
  {
    var (named, numbered, counted) := Cuts(name).value;
    CutsAreDots(name);
    var t, count, nanos := name[..named - |SENT|], name[numbered + 1..counted], name[counted + 1..];
    CutAtDots(name, named, numbered, counted);
    assert name[..named] == t + name[named - |SENT|..named];
    assert name[named - |SENT|..named] == SENT && name[named + 1..numbered] == c;
    assert name == t + SENT + "." + c + "." + count + "." + nanos;
    WrittenAs(t, c, count, nanos);
  }

  /** Only a sent file not yet in place reads as one. */
  lemma SenderOfExactly(name: string, c: string)
    ensures SenderOf(name) == Some(c) <==> c != "" && '.' !in c && WrittenBySend(name, c)
  {
    if SenderOf(name) == Some(c) {
      SenderOfWrote(name, c);
    }
    if c != "" && '.' !in c && WrittenBySend(name, c) {
      var t, count, nanos :|
        t != "" && Digits(count) && Digits(nanos) && name == SendingName(t, c, count, nanos);
      SenderReadsBack(t, c, count, nanos);
    }
  }

  // --------------------------------------------- the two families are apart

  /** The one string that is both a claimed and a sent name's spelling. */
  lemma BothSpellings(d: string, c: string, nanos: string, t: string, x: string, count: string, nanos': string)
    requires '.' !in c && '.' !in x && Digits(nanos) && Digits(nanos') && Digits(count)
    requires ClaimName(d, c, nanos) == SendingName(t, x, count, nanos')
    ensures x == UNREADABLE && c == count && d == t + SENT
  {
    ClaimJoined(d, c, nanos);
    SendingJoined(t, x, count, nanos');
    LastDot(d + "." + UNREADABLE + "." + c, nanos, t + SENT + "." + x + "." + count, nanos');
    LastDot(d + "." + UNREADABLE, c, t + SENT + "." + x, count);
    LastDot(d, UNREADABLE, t + SENT, x);
  }

  /** A claimed name is no readable claimant's unfinished send, and the other way about. */
  lemma FamiliesApart(name: string)
    ensures ClaimOf(name).Some? ==> SenderOf(name) in {None, Some(UNREADABLE)}
    ensures SenderOf(name).Some? && SenderOf(name).value != UNREADABLE ==> ClaimOf(name).None?
  {
    if ClaimOf(name).Some? && SenderOf(name).Some? {
      var Claim(d, c) := ClaimOf(name).value;
      var x := SenderOf(name).value;
      ClaimOfExactly(name, d, c);
      SenderOfExactly(name, x);
      var nanos :| Digits(nanos) && name == ClaimName(d, c, nanos);
      var t, count, nanos' :|
        t != "" && Digits(count) && Digits(nanos') && name == SendingName(t, x, count, nanos');
      BothSpellings(d, c, nanos, t, x, count, nanos');
    }
  }

  /** A node located at the mark's own word is where they meet: what it left
      unfinished reads as another's claim. */
  lemma UnreadableMeets(t: string, count: string, nanos: string)
    requires t != "" && Digits(count) && Digits(nanos)
    ensures SenderOf(SendingName(t, UNREADABLE, count, nanos)) == Some(UNREADABLE)
    ensures count != UNREADABLE ==>
              ClaimOf(SendingName(t, UNREADABLE, count, nanos)) == Some(Claim(t + SENT, count))
  {
    SenderReadsBack(t, UNREADABLE, count, nanos);
    var d := t + SENT;
    ClaimJoined(d, count, nanos);
    SendingJoined(t, UNREADABLE, count, nanos);
    ClaimReadsBack(d, count, nanos);
  }

  /** A name may arrive exactly where it is no name's turn, and neither a readable
      claimant's claim nor a send writes it. */
  lemma MayArriveExactly(name: string)
    ensures MayArrive(name) <==>
            && (forall d | d != "" :: name != d + ".xmip-claim")
            && !WrittenByClaim(name) && forall c | c != "" && '.' !in c :: !WrittenBySend(name, c)
  {
    ClaimsWritten(name);
    SendsWritten(name);
    if IsTurn(name) { assert name == name[..|name| - |TURN|] + ".xmip-claim"; }
    hide ClaimOf, SenderOf, WrittenByClaim, WrittenBySend;
  }

  lemma ClaimsWritten(name: string)
    ensures ClaimOf(name).Some? <==> WrittenByClaim(name)
  {
    hide ClaimOf, ClaimName;
    if ClaimOf(name).Some? {
      var Claim(d, c) := ClaimOf(name).value;
      ClaimOfExactly(name, d, c);
    }
    forall d, c, nanos | d != "" && Readable(c) && Digits(nanos) && name == ClaimName(d, c, nanos)
      ensures ClaimOf(name) == Some(Claim(d, c))
    {
      ClaimOfExactly(name, d, c);
    }
  }

  lemma SendsWritten(name: string)
    ensures SenderOf(name).Some? <==> exists c :: c != "" && '.' !in c && WrittenBySend(name, c)
  {
    hide SenderOf, WrittenBySend;
    if SenderOf(name).Some? { SenderOfExactly(name, SenderOf(name).value); }
    forall c | c != "" && '.' !in c && WrittenBySend(name, c) ensures SenderOf(name) == Some(c) { SenderOfExactly(name, c); }
  }

  /** The names as they are written, of one artifact and one node. */
  lemma NamesLook()
    ensures TurnOf("order.edi") == "order.edi.xmip-claim"
    ensures ClaimName("order.edi", "n", "17") == "order.edi.xmip-claim.n.17"
    ensures SendingName("order.edi", "n", "2", "17") == "order.edi.xmip-sending.n.2.17"
  {}
}
