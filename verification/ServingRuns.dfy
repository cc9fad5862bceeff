/**
 One Receive Location's receives, the peers of its kept connections and the
 threads that give the answers it owes: a transition system, each busy flag
 read and set on its own, in any interleaving.
 */
module ServingRuns {

  import opened Wrappers
  import opened Serving

  /** What a connection's exchanges came to: how many were taken, by number which
      were answered, in the order they were, and which were let go unanswered, the
      connection shut or broken; and the one whose answer is owed. */
  datatype Ledger = Ledger(taken: nat, replies: seq<nat>, lost: set<nat>, owed: Option<nat>, ended: bool)

  const NEW_LEDGER := Ledger(0, [], {}, None, false)

  /** Where a receive stands: scanning the connections for an exchange read already;
      gathering those not busy; waiting for these; woken; or taking a turn. */
  datatype Phase =
    | Away
    | Scanning(at: nat)
    | Gathering(at: nat, idle: set<nat>)
    | Waiting(idle: set<nat>)
    | Woken(listener: bool, told: bool, spoke: Option<nat>)
    | Heard(listener: bool, spoke: Option<nat>)
    | Turning(at: nat)

  datatype State = State(
    open: seq<nat>,               // the connections kept, by number
    next: nat,
    busy: set<nat>,               // the flags
    ledgers: map<nat, Ledger>,
    waiting: set<nat>,            // an exchange read already waits on this side
    spoken: set<nat>,             // the socket is readable
    peers: nat,                   // queued at the listener
    word: bool,                   // a connection's being freed was told and not heard
    telling: nat,                 // answers that freed a connection and are about to tell
    since: map<nat, nat>,         // when each connection was kept or last served
    clock: nat,
    phase: Phase
  )

  const INIT := State([], 0, {}, map[], {}, {}, 0, false, 0, map[], 0, Away)

  datatype How = Reply | LetGo

  datatype Step =
    | Receive
    | Scan
    | Gather
    | Timeout
    | Poll
    | Hear
    | Accept(peer: Accepted<()>)
    | Turn(turn: Serving.Turn, deferred: bool, waits: bool, speaks: bool)
    | Free(connection: nat, how: How)
    | Tell
    | Speak(connection: nat)
    | Connect

  function FirstReady(open: seq<nat>, ready: set<nat>): (r: Option<nat>)
    ensures r.Some? ==> r.value < |open| && open[r.value] in ready && forall i | 0 <= i < r.value :: open[i] !in ready
    ensures r.None? ==> forall i | 0 <= i < |open| :: open[i] !in ready
  {
    if open == [] then None
    else if open[0] in ready then Some(0)
    else
      var rest := FirstReady(open[1..], ready);
      if rest.None? then None else Some(rest.value + 1)
  }

  predicate Enabled(s: State, step: Step) {
    match step
    case Receive => s.phase.Away?
    case Scan => s.phase.Scanning?
    case Gather => s.phase.Gathering?
    case Timeout => s.phase.Waiting?
    case Poll => s.phase.Waiting? && (s.peers > 0 || s.word || FirstReady(s.open, s.phase.idle * s.spoken).Some?)
    case Hear => s.phase.Woken?
    case Accept(_) => s.phase.Heard? && (s.phase.listener ==> s.peers > 0)
    case Turn(_, _, _, _) => s.phase.Turning? && s.phase.at < |s.open| && s.open[s.phase.at] in s.ledgers
    case Free(c, _) => c in s.ledgers && s.ledgers[c].owed.Some?
    case Tell => s.telling > 0
    case Speak(_) => true
    case Connect => true
  }

  function Took(l: Ledger, deferred: bool): Ledger {
    if deferred then l.(taken := l.taken + 1, owed := Some(l.taken))
    else l.(taken := l.taken + 1, replies := l.replies + [l.taken])
  }

  function Freed(l: Ledger, how: How): Ledger
    requires l.owed.Some?
  {
    match how
    case Reply => l.(replies := l.replies + [l.owed.value], owed := None)
    case LetGo => l.(lost := l.lost + {l.owed.value}, owed := None, ended := true)
  }

  function With(s: set<nat>, x: nat, yes: bool): set<nat> { if yes then s + {x} else s - {x} }

  /** To the turn of the connection that spoke, or around again. */
  function Onward(spoke: Option<nat>): Phase {
    if spoke.Some? then Turning(spoke.value) else Scanning(0)
  }

  function Apply(s: State, step: Step): State
    requires Enabled(s, step)
  {
    match step
    case Receive => s.(phase := Scanning(0))
    case Scan =>
      var at := s.phase.at;
      if at >= |s.open| then s.(phase := Gathering(0, {}))
      else if s.open[at] !in s.busy && s.open[at] in s.waiting then s.(phase := Turning(at))
      else s.(phase := Scanning(at + 1))
    case Gather =>
      var Gathering(at, idle) := s.phase;
      if at >= |s.open| then s.(phase := Waiting(idle))
      else s.(phase := Gathering(at + 1, if s.open[at] in s.busy then idle else idle + {s.open[at]}))
    case Timeout => s.(phase := Away)
    case Poll => s.(phase := Woken(s.peers > 0, s.word, FirstReady(s.open, s.phase.idle * s.spoken)))
    case Hear => s.(word := s.word && !s.phase.told, phase := Heard(s.phase.listener, s.phase.spoke))
    case Accept(peer) =>
      var Heard(listener, spoke) := s.phase;
      if !listener then s.(phase := Onward(spoke))
      else if peer.Refused? then s.(peers := s.peers - if peer.gone then 1 else 0, phase := Away)
      else
        var left := Room(s.open);
        var evicted := |s.open| - |left|;
        var moved := if spoke.None? || spoke.value < evicted then None else Some(spoke.value - evicted);
        if peer.Unopened? then s.(peers := s.peers - 1, open := left, phase := Away)
        else
          s.(peers := s.peers - 1, open := left + [s.next], next := s.next + 1, phase := Onward(moved),
             ledgers := s.ledgers[s.next := NEW_LEDGER], since := s.since[s.next := s.clock], clock := s.clock + 1)
    case Turn(turn, deferred, waits, speaks) =>
      var at := s.phase.at;
      var c := s.open[at];
      var turned := s.(open := Turned(s.open, at, turn), waiting := With(s.waiting, c, waits), spoken := With(s.spoken, c, speaks),
                       phase := if turn.Nothing? || turn.Closed? then Scanning(0) else Away);
      if !turn.Taken? && !turn.Last? then turned
      else
        turned.(ledgers := s.ledgers[c := Took(s.ledgers[c], deferred)], busy := if deferred then s.busy + {c} else s.busy,
                since := s.since[c := s.clock], clock := s.clock + 1)
    case Free(c, how) =>
      s.(ledgers := s.ledgers[c := Freed(s.ledgers[c], how)], busy := s.busy - {c}, telling := s.telling + 1)
    case Tell => s.(word := true, telling := s.telling - 1)
    case Speak(c) => s.(spoken := s.spoken + {c})
    case Connect => s.(peers := s.peers + 1)
  }

  // ----------------------------------------------------------- what every run keeps

  /** At most `MOST_KEPT` are kept, the one quiet longest first. */
  ghost predicate Listed(open: seq<nat>, since: map<nat, nat>, clock: nat) {
    && |open| <= MOST_KEPT
    && (forall i | 0 <= i < |open| :: open[i] in since && since[open[i]] < clock)
    && (forall i, j | 0 <= i < j < |open| :: since[open[i]] < since[open[j]])
  }

  /** Every connection was opened, and keeps a ledger. */
  ghost predicate Opened(open: seq<nat>, ledgers: map<nat, Ledger>, since: map<nat, nat>, next: nat) {
    && (forall i | 0 <= i < |open| :: open[i] < next)
    && (forall c: nat :: c in ledgers <==> c < next) && (forall c | c in since :: c < next)
  }

  /** Every exchange taken is answered once, or is owed its answer, or was let go
      and its connection ended; and the answers go out in the order of the exchanges. */
  ghost predicate Kept(l: Ledger) {
    && (forall i | 0 <= i < |l.replies| :: l.replies[i] < (if l.owed.Some? then l.owed.value else l.taken))
    && (forall i, j | 0 <= i < j < |l.replies| :: l.replies[i] < l.replies[j])
    && (l.owed.Some? ==> l.owed.value == l.taken - 1 && l.owed.value !in l.lost)
    && (forall n: nat :: n < l.taken <==> n in l.replies || n in l.lost || Some(n) == l.owed)
    && (forall n | n in l.lost :: n !in l.replies) && (l.lost != {} ==> l.ended)
  }

  /** A connection is busy exactly while an answer is owed on it. */
  ghost predicate Owing(ledgers: map<nat, Ledger>, busy: set<nat>) {
    && (forall c | c in ledgers :: Kept(ledgers[c]) && (c in busy <==> ledgers[c].owed.Some?))
    && (forall c | c in busy :: c in ledgers)
  }

  /** A connection left out of a receive's wait that is busy no longer has told so,
      or is about to; and so has one freed with an exchange read already. */
  ghost predicate Awake(s: State) {
    match s.phase
    case Away => true
    case Scanning(at) => Unseen(s, at) || s.word || s.telling > 0
    case Gathering(at, idle) =>
      (Unseen(s, |s.open|) && forall i | 0 <= i < at && i < |s.open| :: s.open[i] in idle || s.open[i] in s.busy) || s.word || s.telling > 0
    case Waiting(idle) =>
      (Unseen(s, |s.open|) && forall i | 0 <= i < |s.open| :: s.open[i] in idle || s.open[i] in s.busy) || s.word || s.telling > 0
    case Woken(_, _, spoke) => spoke.Some? ==> spoke.value < |s.open| && s.open[spoke.value] !in s.busy
    case Heard(_, spoke) => spoke.Some? ==> spoke.value < |s.open| && s.open[spoke.value] !in s.busy
    case Turning(at) => at < |s.open| && s.open[at] !in s.busy
  }

  /** None of the first `at` is free with an exchange read already. */
  ghost predicate Unseen(s: State, at: nat) {
    forall i | 0 <= i < at && i < |s.open| :: s.open[i] in s.busy || s.open[i] !in s.waiting
  }

  ghost predicate Sound(s: State) {
    && Listed(s.open, s.since, s.clock) && Opened(s.open, s.ledgers, s.since, s.next)
    && Owing(s.ledgers, s.busy) && Awake(s)
    && (s.phase.Waiting? ==> s.phase.idle !! s.busy)
    && (s.phase.Gathering? ==> s.phase.idle !! s.busy)
    && (s.phase.Woken? && s.phase.listener ==> s.peers > 0) && (s.phase.Heard? && s.phase.listener ==> s.peers > 0)
  }

  // ------------------------------------------------------------------- step by step

  lemma Parts(s: State)
    requires Sound(s)
    ensures Listed(s.open, s.since, s.clock) && Opened(s.open, s.ledgers, s.since, s.next) && Owing(s.ledgers, s.busy) && Awake(s)
    ensures s.phase.Waiting? || s.phase.Gathering? ==> s.phase.idle !! s.busy
    ensures (s.phase.Woken? || s.phase.Heard?) && s.phase.listener ==> s.peers > 0
  {}

  lemma Whole(s: State)
    requires Listed(s.open, s.since, s.clock) && Opened(s.open, s.ledgers, s.since, s.next) && Owing(s.ledgers, s.busy) && Awake(s)
    requires s.phase.Waiting? || s.phase.Gathering? ==> s.phase.idle !! s.busy
    requires (s.phase.Woken? || s.phase.Heard?) && s.phase.listener ==> s.peers > 0
    ensures Sound(s)
  {}

  lemma TookKept(l: Ledger, deferred: bool)
    requires Kept(l) && l.owed.None?
    ensures Kept(Took(l, deferred))
  {}

  lemma FreedKept(l: Ledger, how: How)
    requires Kept(l) && l.owed.Some?
    ensures Kept(Freed(l, how))
  {}

  lemma OwingNext(ledgers: map<nat, Ledger>, busy: set<nat>, c: nat, l: Ledger)
    requires Owing(ledgers, busy) && Kept(l)
    ensures Owing(ledgers[c := l], With(busy, c, l.owed.Some?))
  {
    hide Kept;
  }

  lemma LeftListed(open: seq<nat>, since: map<nat, nat>, clock: nat, at: nat)
    requires Listed(open, since, clock) && at < |open|
    ensures var left := open[..at] + open[at + 1..];
            Listed(left, since, clock) && open[at] !in left && forall c | c in left :: c in open
  {
    var left := open[..at] + open[at + 1..];
    forall i | 0 <= i < |left| ensures left[i] == open[if i < at then i else i + 1] && left[i] != open[at] {}
  }

  lemma BackListed(open: seq<nat>, since: map<nat, nat>, clock: nat, c: nat)
    requires Listed(open, since, clock) && |open| < MOST_KEPT && c !in open
    ensures Listed(open, since[c := clock], clock + 1) && Listed(open + [c], since[c := clock], clock + 1)
  {}

  /** The connection served goes to the back, as the one quiet least long. */
  lemma TurnedListed(open: seq<nat>, since: map<nat, nat>, clock: nat, at: nat, turn: Serving.Turn)
    requires Listed(open, since, clock) && at < |open|
    ensures turn.Taken? || turn.Last? ==> Listed(Turned(open, at, turn), since[open[at] := clock], clock + 1)
    ensures !turn.Taken? && !turn.Last? ==> Listed(Turned(open, at, turn), since, clock)
    ensures forall c | c in Turned(open, at, turn) :: c in open
  {
    LeftListed(open, since, clock, at);
    BackListed(open[..at] + open[at + 1..], since, clock, open[at]);
    hide Listed;
  }

  /** The one let go to make room is the one quiet longest. */
  lemma AcceptedListed(open: seq<nat>, since: map<nat, nat>, clock: nat, next: nat)
    requires Listed(open, since, clock) && next !in since
    ensures Listed(Room(open), since, clock) && Listed(Room(open) + [next], since[next := clock], clock + 1)
    ensures |Room(open)| < |open| ==> forall i | 0 < i < |open| :: since[open[0]] < since[open[i]]
    ensures forall c | c in Room(open) :: c in open
  {
    var left := Room(open);
    assert forall i | 0 <= i < |left| :: left[i] == open[i + |open| - |left|];
  }

  /** A receive scans, gathers and waits with no connection freed unseen meanwhile. */
  lemma LookAwake(s: State, step: Step)
    requires Awake(s) && (s.phase.Waiting? || s.phase.Gathering? ==> s.phase.idle !! s.busy)
    requires Enabled(s, step) && (step.Receive? || step.Scan? || step.Gather? || step.Timeout? || step.Poll? || step.Hear?)
    ensures var after := Apply(s, step); Awake(after) && (after.phase.Waiting? || after.phase.Gathering? ==> after.phase.idle !! after.busy)
  {}

  lemma LookSound(s: State, step: Step)
    requires Sound(s) && Enabled(s, step) && (step.Receive? || step.Scan? || step.Gather? || step.Timeout? || step.Poll? || step.Hear?)
    ensures Sound(Apply(s, step))
  {
    hide Sound;
    Parts(s);
    LookAwake(s, step);
    hide Listed, Opened, Owing, Awake;
    Whole(Apply(s, step));
  }

  lemma WordSound(s: State, step: Step)
    requires Sound(s) && Enabled(s, step) && (step.Tell? || step.Speak? || step.Connect?)
    ensures Sound(Apply(s, step))
  {
    hide Sound;
    Parts(s);
    hide Listed, Opened, Owing;
    Whole(Apply(s, step));
  }

  lemma FreeSound(s: State, c: nat, how: How)
    requires Sound(s) && Enabled(s, Free(c, how))
    ensures Sound(Apply(s, Free(c, how)))
  {
    hide Sound;
    Parts(s);
    assert Kept(s.ledgers[c]);
    FreedKept(s.ledgers[c], how);
    hide Kept;
    OwingNext(s.ledgers, s.busy, c, Freed(s.ledgers[c], how));
    hide Listed, Owing;
    Whole(Apply(s, Free(c, how)));
  }

  lemma AcceptSound(s: State, peer: Accepted<()>)
    requires Sound(s) && Enabled(s, Accept(peer))
    ensures Sound(Apply(s, Accept(peer)))
  {
    hide Sound, Apply;
    if s.phase.listener && !peer.Refused? {
      RoomMadeSound(s, peer);
    } else {
      NoneAcceptedSound(s, peer);
    }
  }

  lemma NoneAcceptedSound(s: State, peer: Accepted<()>)
    requires Sound(s) && Enabled(s, Accept(peer)) && (s.phase.listener ==> peer.Refused?)
    ensures Sound(Apply(s, Accept(peer)))
  {
    hide Sound, Listed, Opened, Owing;
    Parts(s);
    Whole(Apply(s, Accept(peer)));
  }

  lemma RoomMadeSound(s: State, peer: Accepted<()>)
    requires Sound(s) && Enabled(s, Accept(peer)) && s.phase.listener && !peer.Refused?
    ensures Sound(Apply(s, Accept(peer)))
  {
    hide Sound, Listed, Owing;
    Parts(s);
    AcceptedAwake(s, peer);
    hide Awake;
    assert s.next !in s.since;
    AcceptedListed(s.open, s.since, s.clock, s.next);
    AcceptedOpened(s.open, s.ledgers, s.since, s.next, s.clock);
    NewOwing(s.ledgers, s.busy, s.next);
    hide Opened, Room;
    Whole(Apply(s, Accept(peer)));
  }

  lemma NewOwing(ledgers: map<nat, Ledger>, busy: set<nat>, next: nat)
    requires Owing(ledgers, busy) && next !in ledgers
    ensures Owing(ledgers[next := NEW_LEDGER], busy)
  {
    assert Kept(NEW_LEDGER);
    hide Kept;
  }

  lemma AcceptedOpened(open: seq<nat>, ledgers: map<nat, Ledger>, since: map<nat, nat>, next: nat, clock: nat)
    requires Opened(open, ledgers, since, next)
    ensures Opened(Room(open), ledgers, since, next)
    ensures Opened(Room(open) + [next], ledgers[next := NEW_LEDGER], since[next := clock], next + 1)
  {}

  /** The connection that spoke is still the one whose turn it is, unless it was let go. */
  lemma AcceptedAwake(s: State, peer: Accepted<()>)
    requires Awake(s) && Enabled(s, Accept(peer)) && s.phase.listener
    ensures Awake(Apply(s, Accept(peer)))
  {}

  lemma TurnedOpened(open: seq<nat>, ledgers: map<nat, Ledger>, since: map<nat, nat>, next: nat, at: nat, turn: Serving.Turn,
                     l: Ledger, clock: nat)
    requires Opened(open, ledgers, since, next) && at < |open|
    ensures Opened(Turned(open, at, turn), ledgers, since, next)
    ensures Opened(Turned(open, at, turn), ledgers[open[at] := l], since[open[at] := clock], next)
  {}

  lemma TurnSound(s: State, turn: Serving.Turn, deferred: bool, waits: bool, speaks: bool)
    requires Sound(s) && Enabled(s, Turn(turn, deferred, waits, speaks))
    ensures Sound(Apply(s, Turn(turn, deferred, waits, speaks)))
  {
    hide Sound, Apply;
    if turn.Taken? || turn.Last? {
      ServedSound(s, turn, deferred, waits, speaks);
    } else {
      PassedSound(s, turn, deferred, waits, speaks);
    }
  }

  /** A turn that took an exchange. */
  lemma ServedSound(s: State, turn: Serving.Turn, deferred: bool, waits: bool, speaks: bool)
    requires Sound(s) && Enabled(s, Turn(turn, deferred, waits, speaks)) && (turn.Taken? || turn.Last?)
    ensures Sound(Apply(s, Turn(turn, deferred, waits, speaks)))
  {
    hide Sound, Listed, Opened, Kept, Owing, Apply, Turned;
    Parts(s);
    TurnFrees(s);
    ServedIs(s, turn, deferred, waits, speaks);
    var c, after := s.open[s.phase.at], Apply(s, Turn(turn, deferred, waits, speaks));
    TurnedListed(s.open, s.since, s.clock, s.phase.at, turn);
    TookKept(s.ledgers[c], deferred);
    OwingNext(s.ledgers, s.busy, c, Took(s.ledgers[c], deferred));
    assert With(s.busy, c, false) == s.busy;
    TurnedOpened(s.open, s.ledgers, s.since, s.next, s.phase.at, turn, Took(s.ledgers[c], deferred), s.clock);
    Whole(after);
  }

  lemma ServedIs(s: State, turn: Serving.Turn, deferred: bool, waits: bool, speaks: bool)
    requires Enabled(s, Turn(turn, deferred, waits, speaks)) && (turn.Taken? || turn.Last?)
    ensures var c, after := s.open[s.phase.at], Apply(s, Turn(turn, deferred, waits, speaks));
            && after.phase.Away? && after.open == Turned(s.open, s.phase.at, turn) && after.next == s.next
            && after.busy == (if deferred then s.busy + {c} else s.busy) && after.ledgers == s.ledgers[c := Took(s.ledgers[c], deferred)]
            && after.since == s.since[c := s.clock] && after.clock == s.clock + 1
  {
    hide Turned, Took;
  }

  /** A turn that took none. */
  lemma PassedSound(s: State, turn: Serving.Turn, deferred: bool, waits: bool, speaks: bool)
    requires Sound(s) && Enabled(s, Turn(turn, deferred, waits, speaks)) && !turn.Taken? && !turn.Last?
    ensures Sound(Apply(s, Turn(turn, deferred, waits, speaks)))
  {
    hide Sound, Listed, Opened, Kept, Owing;
    Parts(s);
    TurnedListed(s.open, s.since, s.clock, s.phase.at, turn);
    TurnedOpened(s.open, s.ledgers, s.since, s.next, s.phase.at, turn, s.ledgers[s.open[s.phase.at]], s.clock);
    hide Turned;
    Whole(Apply(s, Turn(turn, deferred, waits, speaks)));
  }

  /** A turn is on a connection that owes nothing. */
  lemma TurnFrees(s: State)
    requires Owing(s.ledgers, s.busy) && Awake(s) && s.phase.Turning? && s.phase.at < |s.open|
    requires s.open[s.phase.at] in s.ledgers
    ensures var c := s.open[s.phase.at]; c !in s.busy && Kept(s.ledgers[c]) && s.ledgers[c].owed.None?
  {
    hide Kept;
  }

  lemma StepSound(s: State, step: Step)
    requires Sound(s) && Enabled(s, step)
    ensures Sound(Apply(s, step))
  {
    hide Sound, Apply;
    match step
    case Free(c, how) => FreeSound(s, c, how);
    case Accept(peer) => AcceptSound(s, peer);
    case Turn(turn, deferred, waits, speaks) => TurnSound(s, turn, deferred, waits, speaks);
    case Tell => WordSound(s, step);
    case Speak(_) => WordSound(s, step);
    case Connect => WordSound(s, step);
    case _ => LookSound(s, step);
  }

  // ------------------------------------------------------------------- every run

  ghost predicate Run(states: seq<State>, steps: seq<Step>) {
    && |states| == |steps| + 1 && states[0] == INIT
    && forall i | 0 <= i < |steps| :: Enabled(states[i], steps[i]) && states[i + 1] == Apply(states[i], steps[i])
  }

  lemma {:induction false} EveryRunIsSound(states: seq<State>, steps: seq<Step>)
    requires Run(states, steps)
    ensures forall i | 0 <= i < |states| :: Sound(states[i])
  {
    if steps != [] {
      hide Enabled, Apply, Sound;
      var last := |steps| - 1;
      EveryRunIsSound(states[..|states| - 1], steps[..last]);
      assert forall i | 0 <= i <= last :: states[..|states| - 1][i] == states[i];
      StepSound(states[last], steps[last]);
    }
  }

  /** The receive's own next step; none while it is away or takes a turn. */
  function Own(s: State): Option<Step> {
    match s.phase
    case Scanning(_) => Some(Scan)
    case Gathering(_, _) => Some(Gather)
    case Waiting(_) => Some(Poll)
    case Woken(_, _, _) => Some(Hear)
    case Heard(_, _) => Some(Accept(Unopened))
    case _ => None
  }

  /** After `n` steps of its own, each of them possible as it comes, the receive
      takes its turn on the connection at `at`. */
  predicate TurnsAfter(s: State, at: nat, n: nat)
    decreases n
  {
    if n == 0 then s.phase == Turning(at)
    else Own(s).Some? && Enabled(s, Own(s).value) && TurnsAfter(Apply(s, Own(s).value), at, n - 1)
  }

  ghost predicate ComesToTurn(s: State, at: nat) {
    exists n :: TurnsAfter(s, at, n)
  }

  /** The connection at `at` is free with something to take, and nothing else is to
      be had: no new peer, and of the others each is busy or has said nothing. */
  ghost predicate Only(s: State, at: nat) {
    && at < |s.open| && s.open[at] !in s.busy && (s.open[at] in s.spoken || s.open[at] in s.waiting) && s.peers == 0
    && forall i | 0 <= i < |s.open| && i != at :: s.open[i] in s.busy || s.open[i] !in s.spoken + s.waiting
  }

  lemma WokenTurns(s: State, at: nat)
    requires s.phase.Woken? && !s.phase.listener && s.phase.spoke == Some(at)
    ensures TurnsAfter(s, at, 2)
  {
    var heard := Apply(s, Hear);
    assert Apply(heard, Accept(Unopened)).phase == Turning(at);
    assert TurnsAfter(heard, at, 1);
  }

  /** A wait that takes the connection in ends at once. */
  lemma WaitTurns(s: State, at: nat)
    requires Only(s, at) && s.phase.Waiting? && s.phase.idle !! s.busy
    requires s.open[at] in s.spoken && s.open[at] in s.phase.idle
    ensures TurnsAfter(s, at, 3)
  {
    assert FirstReady(s.open, s.phase.idle * s.spoken) == Some(at);
    WokenTurns(Apply(s, Poll), at);
  }

  lemma {:induction false} GatherTurns(s: State, at: nat) returns (n: nat)
    requires Only(s, at) && s.phase.Gathering? && s.phase.idle !! s.busy && s.phase.at <= |s.open|
    requires s.open[at] in s.spoken && (s.phase.at > at ==> s.open[at] in s.phase.idle)
    ensures TurnsAfter(s, at, n)
    decreases |s.open| - s.phase.at
  {
    hide TurnsAfter, FirstReady;
    var after := Apply(s, Gather);
    if s.phase.at == |s.open| {
      WaitTurns(after, at);
      n := 4;
    } else {
      n := GatherTurns(after, at);
      n := n + 1;
    }
    OneMore(s, at, n);
  }

  lemma OneMore(s: State, at: nat, n: nat)
    requires n > 0 && Own(s).Some? && Enabled(s, Own(s).value) && TurnsAfter(Apply(s, Own(s).value), at, n - 1)
    ensures TurnsAfter(s, at, n)
  {}

  lemma {:induction false} ScanTurns(s: State, at: nat) returns (n: nat)
    requires Only(s, at) && s.phase.Scanning? && s.phase.at <= |s.open|
    requires s.open[at] in s.waiting ==> s.phase.at <= at
    ensures TurnsAfter(s, at, n)
    decreases |s.open| - s.phase.at
  {
    hide TurnsAfter, FirstReady;
    var after := Apply(s, Scan);
    if s.phase.at == |s.open| {
      n := GatherTurns(after, at);
      n := n + 1;
    } else if s.phase.at == at && s.open[at] in s.waiting {
      Turns(after, at);
      n := 1;
    } else {
      n := ScanTurns(after, at);
      n := n + 1;
    }
    OneMore(s, at, n);
  }

  lemma Turns(s: State, at: nat)
    requires s.phase == Turning(at)
    ensures TurnsAfter(s, at, 0)
  {}

  /** No lost wake-up: while a receive waits, a connection free and with something
      to take ends its wait, at once or by the word of the answer that freed it;
      and where it is the only one, that receive comes to its turn there by steps
      of its own, however long it may wait. */
  lemma NoLostWakeUp(states: seq<State>, steps: seq<Step>, i: nat, at: nat)
    requires Run(states, steps) && i < |states| && states[i].phase.Waiting? && at < |states[i].open|
    requires var c := states[i].open[at]; c !in states[i].busy && (c in states[i].spoken || c in states[i].waiting)
    ensures Enabled(states[i], Poll) || (Enabled(states[i], Tell) && Enabled(Apply(states[i], Tell), Poll))
    ensures Only(states[i], at) ==>
              if Enabled(states[i], Poll) then ComesToTurn(states[i], at) else ComesToTurn(Apply(states[i], Tell), at)
  {
    EveryRunIsSound(states, steps);
    hide Run;
    var s := states[i];
    Parts(s);
    hide Sound, Listed, Opened, Owing;
    assert s.word || s.telling > 0 || (s.open[at] in s.phase.idle && s.open[at] in s.spoken);
    var woken := if Enabled(s, Poll) then s else Apply(s, Tell);
    assert Enabled(woken, Poll);
    if Only(s, at) {
      var n := WordTurns(woken, at);
    }
  }

  /** The wait ends on the connection, or goes around again and takes it in. */
  lemma WordTurns(s: State, at: nat) returns (n: nat)
    requires Only(s, at) && s.phase.Waiting? && s.phase.idle !! s.busy && Enabled(s, Poll)
    ensures TurnsAfter(s, at, n)
  {
    if s.open[at] in s.spoken && s.open[at] in s.phase.idle {
      WaitTurns(s, at);
      n := 3;
    } else {
      var woken := Apply(s, Poll);
      assert woken.phase.spoke.None?;
      var heard := Apply(woken, Hear);
      hide TurnsAfter, FirstReady;
      n := ScanTurns(Apply(heard, Accept(Unopened)), at);
      OneMore(heard, at, n + 1);
      OneMore(woken, at, n + 2);
      OneMore(s, at, n + 3);
      n := n + 3;
    }
  }

  /** A busy connection yields no exchange: a turn is taken only on a connection
      on which no answer is owed. */
  lemma BusyYieldsNothing(states: seq<State>, steps: seq<Step>, i: nat)
    requires Run(states, steps) && i < |states| && states[i].phase.Turning?
    ensures states[i].phase.at < |states[i].open|
    ensures var c := states[i].open[states[i].phase.at];
            c !in states[i].busy && c in states[i].ledgers && states[i].ledgers[c].owed.None?
  {
    EveryRunIsSound(states, steps);
    hide Run, Listed, Kept;
    var s := states[i];
    assert Sound(s);
  }

  /** Every exchange taken on a connection is answered once, owed its answer, or
      was let go with the connection ended; answers go out in request order, at
      most one is owed, and at most `MOST_KEPT` connections are kept. */
  lemma AnsweredOnceInOrder(states: seq<State>, steps: seq<Step>, i: nat)
    requires Run(states, steps) && i < |states|
    ensures |states[i].open| <= MOST_KEPT
    ensures forall c | c in states[i].ledgers :: Kept(states[i].ledgers[c])
    ensures forall c | c in states[i].ledgers :: c in states[i].busy <==> states[i].ledgers[c].owed.Some?
  {
    EveryRunIsSound(states, steps);
    hide Run, Kept;
    assert Sound(states[i]);
  }

  predicate Ends(turn: Serving.Turn) { turn.Last? || turn.Closed? || turn.Failed? }

  /** The connections kept change by three things: a new one is kept, the first is
      let go for it where too many are, and one is let go whose turn ends it. */
  lemma KeptExactly(s: State, step: Step, c: nat)
    requires Sound(s) && Enabled(s, step)
    ensures c in Apply(s, step).open <==>
            match step
            case Accept(peer) =>
              if !s.phase.listener || peer.Refused? then c in s.open
              else (c in s.open && !(|s.open| == MOST_KEPT && c == s.open[0])) || (peer.Opened? && c == s.next)
            case Turn(turn, _, _, _) => c in s.open && !(Ends(turn) && c == s.open[s.phase.at])
            case _ => c in s.open
  {
    Parts(s);
    EachOnce(s.open, s.since, s.clock);
    hide Sound, Listed, Opened, Owing, Awake, Kept;
    match step
    case Accept(_) => if |s.open| == MOST_KEPT { assert s.open == [s.open[0]] + s.open[1..]; }
    case Turn(turn, deferred, waits, speaks) => TurnedKeeps(s.open, s.phase.at, turn, c);
    case _ =>
  }

  lemma EachOnce(open: seq<nat>, since: map<nat, nat>, clock: nat)
    requires Listed(open, since, clock)
    ensures forall i, j | 0 <= i < j < |open| :: open[i] != open[j]
  {}

  lemma TurnedKeeps(open: seq<nat>, at: nat, turn: Serving.Turn, c: nat)
    requires at < |open| && forall i, j | 0 <= i < j < |open| :: open[i] != open[j]
    ensures c in Turned(open, at, turn) <==> c in open && !(Ends(turn) && c == open[at])
  {
    assert open == open[..at] + [open[at]] + open[at + 1..];
  }

  /** What is let go is never kept again: the peer connects anew. */
  lemma {:induction false} LetGoForGood(states: seq<State>, steps: seq<Step>, i: nat, j: nat, c: nat)
    requires Run(states, steps) && i <= j < |states| && c !in states[i].open && c < states[i].next
    ensures c !in states[j].open && states[i].next <= states[j].next
  {
    if i < j {
      hide Enabled, Apply, Sound;
      LetGoForGood(states, steps, i, j - 1, c);
      EveryRunIsSound(states, steps);
      NotKeptAgain(states[j - 1], steps[j - 1], c);
    }
  }

  lemma NotKeptAgain(s: State, step: Step, c: nat)
    requires Sound(s) && Enabled(s, step) && c !in s.open && c < s.next
    ensures c !in Apply(s, step).open && s.next <= Apply(s, step).next
  {
    NextGrows(s, step);
    hide Sound, Apply;
    KeptExactly(s, step, c);
  }

  /** A word told after a wait looked is still to be heard by the next. */
  lemma UnheardStays(s: State)
    requires s.phase.Woken? && !s.phase.told
    ensures Apply(s, Hear).word == s.word
  {}

  lemma NextGrows(s: State, step: Step)
    requires Enabled(s, step)
    ensures Apply(s, step).next >= s.next
  {}

  /** In every run a connection whose turn was its last, found it closed or failed is
      let go, and never waited on or turned to again. */
  lemma EndedIsGone(states: seq<State>, steps: seq<Step>, i: nat, j: nat)
    requires Run(states, steps) && i < j < |states| && steps[i].Turn? && Ends(steps[i].turn)
    ensures states[i].phase.Turning? && states[i].phase.at < |states[i].open|
    ensures states[i].open[states[i].phase.at] !in states[j].open
  {
    EveryRunIsSound(states, steps);
    var s, step := states[i], steps[i];
    var c := s.open[s.phase.at];
    NextGrows(s, step);
    OpenedBefore(s, c);
    hide Apply, Sound;
    KeptExactly(s, step, c);
    LetGoForGood(states, steps, i + 1, j, c);
  }

  lemma OpenedBefore(s: State, c: nat)
    requires Sound(s) && c in s.open
    ensures c < s.next
  {
    hide Listed, Owing, Awake;
  }

  /** A turn that hands over an exchange, or fails. */
  predicate Tells(step: Step) { step.Turn? && (step.turn.Taken? || step.turn.Last? || step.turn.Failed?) }

  /** A receive hands over one exchange, or one failure: between two of these another begins. */
  lemma OneExchangeAReceive(states: seq<State>, steps: seq<Step>, i: nat, j: nat)
    requires Run(states, steps) && i < j < |steps| && Tells(steps[i]) && Tells(steps[j])
    ensures exists k :: i < k < j && steps[k] == Receive
  {
    AwayUntilReceive(states, steps, i + 1, j);
  }

  /** What ends a receive: an exchange or a failure to hand over, its time, or a new
      peer that could not be accepted. */
  lemma ReceiveEndsExactly(s: State, step: Step)
    requires Enabled(s, step) && !s.phase.Away?
    ensures Apply(s, step).phase.Away? <==> Tells(step) || step == Timeout || (step.Accept? && s.phase.listener && !step.peer.Opened?)
  {}

  lemma {:induction false} AwayUntilReceive(states: seq<State>, steps: seq<Step>, i: nat, j: nat)
    requires Run(states, steps) && i <= j < |states| && states[i].phase.Away?
    ensures states[j].phase.Away? || exists k :: i <= k < j && steps[k] == Receive
  {
    if i < j {
      AwayUntilReceive(states, steps, i, j - 1);
    }
  }

  function Connects(steps: seq<Step>): nat {
    if steps == [] then 0 else Connects(steps[..|steps| - 1]) + if steps[|steps| - 1].Connect? then 1 else 0
  }

  /** In every run a peer that connected is a connection once at most, and queued no more then. */
  lemma {:induction false} PeersOnce(states: seq<State>, steps: seq<Step>, i: nat)
    requires Run(states, steps) && i < |states|
    ensures states[i].next + states[i].peers <= Connects(steps[..i])
  {
    if i == 0 {
      assert steps[..0] == [];
    } else {
      PeersOnce(states, steps, i - 1);
      EveryRunIsSound(states, steps);
      assert steps[..i][..i - 1] == steps[..i - 1];
      hide Enabled, Apply, Sound;
      QueueNext(states[i - 1], steps[i - 1]);
    }
  }

  lemma QueueNext(s: State, step: Step)
    requires Sound(s) && Enabled(s, step)
    ensures Apply(s, step).next + Apply(s, step).peers <= s.next + s.peers + if step.Connect? then 1 else 0
  {
    Parts(s);
    hide Sound, Listed, Opened, Owing, Awake;
  }

  /** An answer owed is given, or let go and never given: its connection is then ended. */
  lemma {:induction false} LetGoIsNoAnswer(states: seq<State>, steps: seq<Step>, i: nat, j: nat, c: nat)
    requires Run(states, steps) && i < j < |states| && steps[i] == Free(c, LetGo)
    ensures c in states[i].ledgers && states[i].ledgers[c].owed.Some? && c in states[j].ledgers
    ensures states[i].ledgers[c].owed.value !in states[j].ledgers[c].replies && states[j].ledgers[c].ended
  {
    EveryRunIsSound(states, steps);
    assert states[i + 1] == Apply(states[i], steps[i]) && Enabled(states[i], steps[i]);
    var n := states[i].ledgers[c].owed.value;
    if j == i + 1 {
      KeptLedger(states[j], c);
      assert n in states[j].ledgers[c].lost;
    } else {
      LostStays(states, steps, i + 1, j, c, n);
      KeptLedger(states[j], c);
    }
  }

  lemma KeptLedger(s: State, c: nat)
    requires Sound(s) && c in s.ledgers
    ensures forall n | n in s.ledgers[c].lost :: n !in s.ledgers[c].replies && s.ledgers[c].ended
  {
    hide Listed, Opened, Awake;
    assert Kept(s.ledgers[c]);
  }

  lemma {:induction false} LostStays(states: seq<State>, steps: seq<Step>, i: nat, j: nat, c: nat, n: nat)
    requires Run(states, steps) && i <= j < |states| && c in states[i].ledgers && n in states[i].ledgers[c].lost
    ensures c in states[j].ledgers && n in states[j].ledgers[c].lost
  {
    if i < j {
      hide Enabled, Apply, Sound;
      LostStays(states, steps, i, j - 1, c, n);
      EveryRunIsSound(states, steps);
      LostStep(states[j - 1], steps[j - 1], c, n);
    }
  }

  lemma LostStep(s: State, step: Step, c: nat, n: nat)
    requires Sound(s) && Enabled(s, step) && c in s.ledgers && n in s.ledgers[c].lost
    ensures c in Apply(s, step).ledgers && n in Apply(s, step).ledgers[c].lost
  {
    hide Listed, Owing, Awake;
  }

  /** Making room lets go the connection kept or served longest ago. */
  lemma QuietLongestGoes(states: seq<State>, steps: seq<Step>, i: nat, peer: Accepted<()>)
    requires Run(states, steps) && i < |states| && Enabled(states[i], Accept(peer))
    ensures var s, after := states[i], Apply(states[i], Accept(peer));
            forall c, other | c in s.open && c !in after.open && other in s.open && other != c ::
              c in s.since && other in s.since && s.since[c] < s.since[other]
  {
    EveryRunIsSound(states, steps);
    hide Run;
    var s := states[i];
    Parts(s);
    hide Sound, Opened, Owing, Awake;
    if s.phase.listener && |s.open| == MOST_KEPT {
      assert forall j | 0 < j < |s.open| :: s.open[j] in Room(s.open);
    }
  }
}
