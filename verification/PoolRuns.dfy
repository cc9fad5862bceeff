/**
 One pool shared by any number of clones and threads: a transition system
 whose steps are the pool's own, each made under its lock or on a session no
 other holds, in any interleaving, with the far end hanging up at any time.
 */
module PoolRuns {

  import opened Wrappers
  import opened Pool

  /** Where a thread's exchange stands; `tried` are the sessions it has gone on.
      One that is `only` for a kept session opens none. */
  datatype Doing =
    | Taking(key: string, only: bool)
    | Reusing(key: string, session: nat, only: bool)
    | Sweeping(key: string, tried: seq<nat>)
    | Opening(key: string, tried: seq<nat>)
    | OnNew(key: string, session: nat, tried: seq<nat>)
    | PuttingBack(key: string, session: nat, tried: seq<nat>)
    | Over(key: string, tried: seq<nat>, ok: bool)

  datatype State = State(
    kept: map<string, seq<nat>>,
    busy: map<nat, Doing>,            // by thread
    dropped: set<nat>,
    sessions: nat,                    // opened so far: the next one's number
    hungUp: set<nat>,
    openedFor: map<nat, string>       // the key each was opened for
  )

  const INIT := State(map[], map[], {}, 0, {}, map[])

  datatype Step =
    | Begin(thread: nat, key: string, only: bool)
    | Pop(thread: nat)                 // the last kept session, dropped where it is not usable
    | Reused(thread: nat, ok: bool)
    | Sweep(thread: nat)
    | Open(thread: nat, ok: bool)
    | Carried(thread: nat, ok: bool)
    | PutBack(thread: nat)
    | Return(thread: nat)
    | HangUp(session: nat)

  function Holds(d: Doing): Option<nat> {
    if d.Reusing? || d.OnNew? || d.PuttingBack? then Some(d.session) else None
  }

  predicate Enabled(s: State, step: Step) {
    match step
    case Begin(t, _, _) => t !in s.busy
    case Pop(t) => t in s.busy && s.busy[t].Taking?
    case Reused(t, _) => t in s.busy && s.busy[t].Reusing?
    case Sweep(t) => t in s.busy && s.busy[t].Sweeping?
    case Open(t, _) => t in s.busy && s.busy[t].Opening?
    case Carried(t, _) => t in s.busy && s.busy[t].OnNew?
    case PutBack(t) => t in s.busy && s.busy[t].PuttingBack?
    case Return(t) => t in s.busy && s.busy[t].Over?
    case HangUp(_) => true
  }

  function Apply(s: State, step: Step): State
    requires Enabled(s, step)
  {
    match step
    case Begin(t, key, only) => s.(busy := s.busy[t := Taking(key, only)])
    case Pop(t) =>
      var key, only := s.busy[t].key, s.busy[t].only;
      var sessions := KeptFor(s.kept, key);
      if sessions == [] then
        s.(busy := s.busy[t := if only then Over(key, [], false) else Sweeping(key, [])])
      else
        var last := sessions[|sessions| - 1];
        var popped := s.(kept := s.kept[key := sessions[..|sessions| - 1]]);
        if last in s.hungUp then popped.(dropped := s.dropped + {last})
        else popped.(busy := s.busy[t := Reusing(key, last, only)])
    case Reused(t, ok) =>
      var Reusing(key, session, only) := s.busy[t];
      if ok then s.(busy := s.busy[t := PuttingBack(key, session, [session])])
      else
        s.(dropped := s.dropped + {session},
           busy := s.busy[t := if only then Over(key, [session], false) else Sweeping(key, [session])])
    case Sweep(t) =>
      var Sweeping(key, tried) := s.busy[t];
      s.(kept := Swept(s.kept, s.hungUp), dropped := s.dropped + (KeptSet(s.kept) * s.hungUp),
         busy := s.busy[t := Opening(key, tried)])
    case Open(t, ok) =>
      var Opening(key, tried) := s.busy[t];
      if !ok then s.(busy := s.busy[t := Over(key, tried, false)])
      else
        s.(sessions := s.sessions + 1, openedFor := s.openedFor[s.sessions := key],
           busy := s.busy[t := OnNew(key, s.sessions, tried)])
    case Carried(t, ok) =>
      var OnNew(key, session, tried) := s.busy[t];
      if ok then s.(busy := s.busy[t := PuttingBack(key, session, tried + [session])])
      else s.(dropped := s.dropped + {session}, busy := s.busy[t := Over(key, tried + [session], false)])
    case PutBack(t) =>
      var PuttingBack(key, session, tried) := s.busy[t];
      var ended := s.(busy := s.busy[t := Over(key, tried, true)]);
      if session in s.hungUp then ended.(dropped := s.dropped + {session})
      else ended.(kept := s.kept[key := KeptFor(s.kept, key) + [session]])
    case Return(t) => s.(busy := s.busy - {t})
    case HangUp(session) => s.(hungUp := s.hungUp + {session})
  }

  function KeptSet(kept: map<string, seq<nat>>): (r: set<nat>)
    ensures forall s :: s in r <==> Keeps(kept, s)
  {
    set k, s | k in kept && s in kept[k] :: s
  }

  function InUse(busy: map<nat, Doing>): set<nat> {
    set t | t in busy && Holds(busy[t]).Some? :: Holds(busy[t]).value
  }

  // ----------------------------------------------------------- what every run keeps

  /** No session is in two exchanges. */
  ghost predicate HeldApart(busy: map<nat, Doing>) {
    forall t, t' | t in busy && t' in busy && Holds(busy[t]).Some? && Holds(busy[t]) == Holds(busy[t']) :: t == t'
  }

  /** Every session opened is kept, in use or dropped, and one of these only. */
  ghost predicate Parted(kept: set<nat>, inUse: set<nat>, dropped: set<nat>, sessions: nat) {
    && kept !! inUse && kept !! dropped && inUse !! dropped
    && forall x: nat :: x < sessions <==> x in kept || x in inUse || x in dropped
  }

  /** A session is used, and kept, only under the key it was opened for. */
  ghost predicate UsedUnderItsKey(busy: map<nat, Doing>, openedFor: map<nat, string>) {
    forall t | t in busy && Holds(busy[t]).Some? ::
      Holds(busy[t]).value in openedFor && openedFor[Holds(busy[t]).value] == busy[t].key
  }

  ghost predicate KeptUnderItsKey(kept: map<string, seq<nat>>, openedFor: map<nat, string>) {
    forall k, x | k in kept && x in kept[k] :: x in openedFor && openedFor[x] == k
  }

  ghost predicate NamedTo(openedFor: map<nat, string>, sessions: nat) {
    forall x: nat :: x in openedFor <==> x < sessions
  }

  lemma NamedNext(openedFor: map<nat, string>, sessions: nat, key: string)
    requires NamedTo(openedFor, sessions)
    ensures NamedTo(openedFor[sessions := key], sessions + 1)
    ensures forall x | x in openedFor :: openedFor[sessions := key][x] == openedFor[x]
  {}

  /** An exchange goes on one session, or on two where the first, a kept one,
      failed: that one is dropped. */
  ghost predicate TriedSo(d: Doing, dropped: set<nat>) {
    match d
    case Taking(_, _) => true
    case Reusing(_, _, _) => true
    case Sweeping(_, tried) => |tried| <= 1 && forall x | x in tried :: x in dropped
    case Opening(_, tried) => |tried| <= 1 && forall x | x in tried :: x in dropped
    case OnNew(_, session, tried) => |tried| <= 1 && forall x | x in tried :: x in dropped && x != session
    case PuttingBack(_, session, tried) =>
      1 <= |tried| <= 2 && tried[|tried| - 1] == session && (|tried| == 2 ==> tried[0] in dropped && tried[0] != session)
    case Over(_, tried, ok) =>
      && |tried| <= 2 && (if ok then tried != [] else forall x | x in tried :: x in dropped)
      && (|tried| == 2 ==> tried[0] in dropped && tried[0] != tried[1])
  }

  ghost predicate AllTriedSo(busy: map<nat, Doing>, dropped: set<nat>) {
    forall t | t in busy :: TriedSo(busy[t], dropped)
  }

  ghost predicate Sound(s: State) {
    && KeptOnce(s.kept) && HeldApart(s.busy)
    && Parted(KeptSet(s.kept), InUse(s.busy), s.dropped, s.sessions) && NamedTo(s.openedFor, s.sessions)
    && UsedUnderItsKey(s.busy, s.openedFor) && KeptUnderItsKey(s.kept, s.openedFor)
    && AllTriedSo(s.busy, s.dropped)
  }

  function Below(n: nat): (r: set<nat>)
    ensures |r| == n && forall x: nat :: x in r <==> x < n
  {
    if n == 0 then {} else Below(n - 1) + {n - 1}
  }

  // ------------------------------------------------------------------- step by step

  function Held(d: Doing): set<nat> {
    if Holds(d).Some? then {Holds(d).value} else {}
  }

  function HeldBy(busy: map<nat, Doing>, t: nat): set<nat> {
    if t in busy then Held(busy[t]) else {}
  }

  /** What a thread does next holds what it holds, in place of what it held. */
  lemma HeldNext(busy: map<nat, Doing>, t: nat, d: Doing)
    requires HeldApart(busy) && (Holds(d).Some? ==> Holds(d).value !in InUse(busy) || HeldBy(busy, t) == Held(d))
    ensures InUse(busy[t := d]) == InUse(busy) - HeldBy(busy, t) + Held(d) && HeldApart(busy[t := d])
    ensures HeldBy(busy, t) <= InUse(busy)
  {
    var now := busy[t := d];
    forall x | x in InUse(now) ensures x in InUse(busy) - HeldBy(busy, t) + Held(d) {
      var t' :| t' in now && Holds(now[t']) == Some(x);
      assert t' != t ==> t' in busy && Holds(busy[t']) == Some(x);
    }
    forall x | x in InUse(busy) - HeldBy(busy, t) + Held(d) ensures x in InUse(now) {
      if x in Held(d) {
        assert Holds(now[t]) == Some(x);
      } else {
        var t' :| t' in busy && Holds(busy[t']) == Some(x);
        assert Holds(now[t']) == Some(x);
      }
    }
  }

  lemma UsedNext(busy: map<nat, Doing>, openedFor: map<nat, string>, t: nat, d: Doing)
    requires UsedUnderItsKey(busy, openedFor)
    requires Holds(d).Some? ==> Holds(d).value in openedFor && openedFor[Holds(d).value] == d.key
    ensures UsedUnderItsKey(busy[t := d], openedFor)
  {}

  lemma TriedNext(busy: map<nat, Doing>, t: nat, d: Doing, was: set<nat>, dropped: set<nat>)
    requires AllTriedSo(busy, was) && was <= dropped && TriedSo(d, dropped)
    ensures AllTriedSo(busy[t := d], dropped)
  {
    forall t' | t' in busy ensures TriedSo(busy[t'], dropped) { TriedStays(busy[t'], was, dropped); }
    hide TriedSo;
  }

  lemma TriedStays(d: Doing, was: set<nat>, dropped: set<nat>)
    requires TriedSo(d, was) && was <= dropped
    ensures TriedSo(d, dropped)
  {}

  /** A thread's next doing leaves the others as they are, and sessions their places but the one it moves. */
  lemma MoveSound(s: State, after: State, t: nat, d: Doing)
    requires Sound(s) && after.busy == s.busy[t := d] && s.dropped <= after.dropped && TriedSo(d, after.dropped)
    requires after.openedFor == s.openedFor && after.sessions == s.sessions
    requires Holds(d).Some? ==> Holds(d).value !in InUse(s.busy) || HeldBy(s.busy, t) == Held(d)
    requires Holds(d).Some? ==> Holds(d).value in s.openedFor && s.openedFor[Holds(d).value] == d.key
    requires KeptOnce(after.kept) && KeptUnderItsKey(after.kept, s.openedFor)
    requires Parted(KeptSet(after.kept), InUse(s.busy) - HeldBy(s.busy, t) + Held(d), after.dropped, s.sessions)
    ensures Sound(after)
  {
    hide HeldApart, Parted, KeptUnderItsKey, Held, HeldBy, KeptOnce, KeptSet, InUse, UsedUnderItsKey, AllTriedSo, TriedSo;
    HeldNext(s.busy, t, d);
    UsedNext(s.busy, s.openedFor, t, d);
    TriedNext(s.busy, t, d, s.dropped, after.dropped);
  }

  lemma PoppedIs(kept: map<string, seq<nat>>, key: string, openedFor: map<nat, string>)
    requires KeptOnce(kept) && KeptUnderItsKey(kept, openedFor) && KeptFor(kept, key) != []
    ensures var sessions := kept[key];
            var last, now := sessions[|sessions| - 1], kept[key := sessions[..|sessions| - 1]];
            && KeptOnce(now) && KeptUnderItsKey(now, openedFor) && KeptSet(now) == KeptSet(kept) - {last}
            && last in KeptSet(kept) && last in openedFor && openedFor[last] == key
  {
    var last, now := kept[key][|kept[key]| - 1], kept[key := kept[key][..|kept[key]| - 1]];
    PoppedKeeps(kept, key);
    PoppedOnce(kept, key);
    assert last in kept[key];
    hide Keeps;
    assert KeptSet(now) == KeptSet(kept) - {last};
  }

  lemma PoppedOnce(kept: map<string, seq<nat>>, key: string)
    requires KeptOnce(kept) && KeptFor(kept, key) != []
    ensures KeptOnce(kept[key := kept[key][..|kept[key]| - 1]])
  {}

  lemma PoppedKeeps(kept: map<string, seq<nat>>, key: string)
    requires KeptOnce(kept) && KeptFor(kept, key) != []
    ensures var last, now := kept[key][|kept[key]| - 1], kept[key := kept[key][..|kept[key]| - 1]];
            Keeps(kept, last) && forall x :: Keeps(now, x) <==> Keeps(kept, x) && x != last
  {
    var sessions := kept[key];
    var last, now := sessions[|sessions| - 1], kept[key := sessions[..|sessions| - 1]];
    assert last in sessions;
    forall x | Keeps(kept, x) && x != last ensures Keeps(now, x) {
      var k :| k in kept && x in kept[k];
      if k == key { assert sessions == now[key] + [last]; }
      assert x in now[k];
    }
    forall x | Keeps(now, x) ensures Keeps(kept, x) && x != last {
      var k :| k in now && x in now[k];
      assert x in kept[k];
    }
  }

  lemma PartedMoves(kept: set<nat>, inUse: set<nat>, dropped: set<nat>, sessions: nat, x: nat)
    requires Parted(kept, inUse, dropped, sessions)
    ensures x in kept ==> Parted(kept - {x}, inUse + {x}, dropped, sessions) && Parted(kept - {x}, inUse, dropped + {x}, sessions)
    ensures x in inUse ==> Parted(kept + {x}, inUse - {x}, dropped, sessions) && Parted(kept, inUse - {x}, dropped + {x}, sessions)
    ensures Parted(kept, inUse + {sessions}, dropped, sessions + 1)
  {}

  lemma PartedSweep(kept: set<nat>, inUse: set<nat>, dropped: set<nat>, sessions: nat, hungUp: set<nat>)
    requires Parted(kept, inUse, dropped, sessions)
    ensures Parted(kept - hungUp, inUse, dropped + (kept * hungUp), sessions)
  {}

  lemma Parts(s: State)
    requires Sound(s)
    ensures KeptOnce(s.kept) && KeptUnderItsKey(s.kept, s.openedFor)
    ensures Parted(KeptSet(s.kept), InUse(s.busy), s.dropped, s.sessions) && NamedTo(s.openedFor, s.sessions)
  {}

  /** What a thread holds is opened, for its key, and in use. */
  lemma Holding(s: State, t: nat)
    requires Sound(s) && t in s.busy && Holds(s.busy[t]).Some?
    ensures var x := Holds(s.busy[t]).value;
            && x in InUse(s.busy) && x in s.openedFor && s.openedFor[x] == s.busy[t].key
            && x !in KeptSet(s.kept) && x !in s.dropped && TriedSo(s.busy[t], s.dropped)
  {
    hide KeptOnce, KeptSet, KeptUnderItsKey, HeldApart, TriedSo;
  }

  lemma TriedBy(s: State, t: nat)
    requires Sound(s) && t in s.busy
    ensures TriedSo(s.busy[t], s.dropped)
  {
    hide TriedSo;
  }

  lemma PopSound(s: State, t: nat)
    requires Sound(s) && Enabled(s, Pop(t))
    ensures Sound(Apply(s, Pop(t)))
  {
    hide Sound;
    Parts(s);
    var after, key := Apply(s, Pop(t)), s.busy[t].key;
    hide Keeps, KeptSet, InUse, HeldApart, UsedUnderItsKey, AllTriedSo, Parted, NamedTo;
    if KeptFor(s.kept, key) == [] {
      hide KeptOnce, KeptUnderItsKey;
      assert InUse(s.busy) - HeldBy(s.busy, t) + Held(after.busy[t]) == InUse(s.busy);
      MoveSound(s, after, t, after.busy[t]);
    } else {
      var last := s.kept[key][|s.kept[key]| - 1];
      PoppedIs(s.kept, key, s.openedFor);
      hide KeptOnce, KeptUnderItsKey;
      PartedMoves(KeptSet(s.kept), InUse(s.busy), s.dropped, s.sessions, last);
      PoppedSound(s, after, t, last);
    }
  }

  lemma PoppedSound(s: State, after: State, t: nat, last: nat)
    requires Sound(s) && Enabled(s, Pop(t)) && KeptFor(s.kept, s.busy[t].key) != [] && after == Apply(s, Pop(t))
    requires last == s.kept[s.busy[t].key][|s.kept[s.busy[t].key]| - 1] && last in KeptSet(s.kept)
    requires KeptOnce(after.kept) && KeptUnderItsKey(after.kept, s.openedFor) && KeptSet(after.kept) == KeptSet(s.kept) - {last}
    requires last in s.openedFor && s.openedFor[last] == s.busy[t].key
    requires Parted(KeptSet(after.kept), InUse(s.busy) + {last}, s.dropped, s.sessions)
    requires Parted(KeptSet(after.kept), InUse(s.busy), s.dropped + {last}, s.sessions)
    ensures Sound(after)
  {
    hide Sound;
    Parts(s);
    assert last !in InUse(s.busy);
    hide Keeps, KeptSet, InUse, KeptOnce, HeldApart, UsedUnderItsKey, KeptUnderItsKey, AllTriedSo, Parted, NamedTo;
    assert s.busy[t := s.busy[t]] == s.busy;
    assert InUse(s.busy) - HeldBy(s.busy, t) + Held(after.busy[t]) == InUse(s.busy) + if last in s.hungUp then {} else {last};
    assert InUse(s.busy) + {} == InUse(s.busy);
    MoveSound(s, after, t, after.busy[t]);
  }

  lemma ReusedSound(s: State, t: nat, ok: bool)
    requires Sound(s) && Enabled(s, Reused(t, ok))
    ensures Sound(Apply(s, Reused(t, ok)))
  {
    hide Sound;
    Parts(s);
    var after, x := Apply(s, Reused(t, ok)), s.busy[t].session;
    hide Keeps, KeptSet, InUse, KeptOnce, HeldApart, UsedUnderItsKey, KeptUnderItsKey, AllTriedSo, Parted, NamedTo;
    Holding(s, t);
    PartedMoves(KeptSet(s.kept), InUse(s.busy), s.dropped, s.sessions, x);
    assert InUse(s.busy) - HeldBy(s.busy, t) + Held(after.busy[t]) == if ok then InUse(s.busy) else InUse(s.busy) - {x};
    MoveSound(s, after, t, after.busy[t]);
  }

  lemma SweepSound(s: State, t: nat)
    requires Sound(s) && Enabled(s, Sweep(t))
    ensures Sound(Apply(s, Sweep(t)))
  {
    hide Sound;
    Parts(s);
    var after := Apply(s, Sweep(t));
    SweptUnder(s.kept, s.hungUp, s.openedFor);
    TriedBy(s, t);
    hide Keeps, KeptSet, InUse, KeptOnce, HeldApart, UsedUnderItsKey, KeptUnderItsKey, AllTriedSo, Parted, Swept;
    PartedSweep(KeptSet(s.kept), InUse(s.busy), s.dropped, s.sessions, s.hungUp);
    assert InUse(s.busy) - HeldBy(s.busy, t) + Held(after.busy[t]) == InUse(s.busy);
    MoveSound(s, after, t, after.busy[t]);
  }

  lemma SweptUnder(kept: map<string, seq<nat>>, hungUp: set<nat>, openedFor: map<nat, string>)
    requires KeptOnce(kept) && KeptUnderItsKey(kept, openedFor)
    ensures KeptOnce(Swept(kept, hungUp)) && KeptUnderItsKey(Swept(kept, hungUp), openedFor)
    ensures KeptSet(Swept(kept, hungUp)) == KeptSet(kept) - hungUp
  {
    hide KeptOnce, KeptUnderItsKey, Keeps, Swept;
    SweptIs(kept, hungUp);
    SweptUnderItsKey(kept, hungUp, openedFor);
  }

  lemma WasKept(kept: map<string, seq<nat>>, hungUp: set<nat>, k: string, x: nat)
    requires k in Swept(kept, hungUp) && x in Swept(kept, hungUp)[k]
    ensures k in kept && x in kept[k]
  {}

  lemma SweptUnderItsKey(kept: map<string, seq<nat>>, hungUp: set<nat>, openedFor: map<nat, string>)
    requires KeptUnderItsKey(kept, openedFor)
    ensures KeptUnderItsKey(Swept(kept, hungUp), openedFor)
  {
    hide Swept;
    var now := Swept(kept, hungUp);
    forall k, x | k in now && x in now[k] ensures x in openedFor && openedFor[x] == k {
      WasKept(kept, hungUp, k, x);
    }
  }

  lemma OpenSound(s: State, t: nat, ok: bool)
    requires Sound(s) && Enabled(s, Open(t, ok))
    ensures Sound(Apply(s, Open(t, ok)))
  {
    hide Sound;
    Parts(s);
    var after := Apply(s, Open(t, ok));
    TriedBy(s, t);
    if !ok {
      hide Keeps, KeptSet, InUse, KeptOnce, HeldApart, UsedUnderItsKey, KeptUnderItsKey, AllTriedSo, Parted, NamedTo;
      assert InUse(s.busy) - HeldBy(s.busy, t) + Held(after.busy[t]) == InUse(s.busy);
      MoveSound(s, after, t, after.busy[t]);
    } else {
      OpenedSound(s, t);
    }
  }

  lemma OpenedSound(s: State, t: nat)
    requires Sound(s) && Enabled(s, Open(t, true))
    ensures Sound(Apply(s, Open(t, true)))
  {
    hide Keeps, KeptSet, InUse, KeptOnce, HeldApart, UsedUnderItsKey, KeptUnderItsKey, AllTriedSo, NamedTo;
    var after := Apply(s, Open(t, true));
    assert s.sessions !in InUse(s.busy);
    hide Parted;
    TriedBy(s, t);
    OpensApart(s.busy[t], after.busy[t], s.dropped, s.sessions, KeptSet(s.kept), InUse(s.busy));
    NamedNext(s.openedFor, s.sessions, s.busy[t].key);
    UnderKeysNext(s, after.openedFor);
    PartedMoves(KeptSet(s.kept), InUse(s.busy), s.dropped, s.sessions, 0);
    HeldNext(s.busy, t, after.busy[t]);
    assert InUse(s.busy) - HeldBy(s.busy, t) + Held(after.busy[t]) == InUse(s.busy) + {s.sessions};
    assert Holds(after.busy[t]).value in after.openedFor;
    hide TriedSo;
    UsedNext(s.busy, after.openedFor, t, after.busy[t]);
    TriedNext(s.busy, t, after.busy[t], s.dropped, s.dropped);
  }

  lemma OpensApart(d: Doing, next: Doing, dropped: set<nat>, sessions: nat, kept: set<nat>, inUse: set<nat>)
    requires d.Opening? && TriedSo(d, dropped) && Parted(kept, inUse, dropped, sessions) && next == OnNew(d.key, sessions, d.tried)
    ensures TriedSo(next, dropped)
  {}

  lemma UnderKeysNext(s: State, openedFor: map<nat, string>)
    requires Sound(s) && forall x | x in s.openedFor :: x in openedFor && openedFor[x] == s.openedFor[x]
    ensures UsedUnderItsKey(s.busy, openedFor) && KeptUnderItsKey(s.kept, openedFor)
  {
    hide AllTriedSo, Parted, HeldApart, KeptOnce;
  }

  lemma CarriedSound(s: State, t: nat, ok: bool)
    requires Sound(s) && Enabled(s, Carried(t, ok))
    ensures Sound(Apply(s, Carried(t, ok)))
  {
    hide Sound;
    Parts(s);
    var after, x := Apply(s, Carried(t, ok)), s.busy[t].session;
    hide Keeps, KeptSet, InUse, KeptOnce, HeldApart, UsedUnderItsKey, KeptUnderItsKey, AllTriedSo, Parted, NamedTo;
    Holding(s, t);
    PartedMoves(KeptSet(s.kept), InUse(s.busy), s.dropped, s.sessions, x);
    assert InUse(s.busy) - HeldBy(s.busy, t) + Held(after.busy[t]) == if ok then InUse(s.busy) else InUse(s.busy) - {x};
    MoveSound(s, after, t, after.busy[t]);
  }

  lemma PutBackSound(s: State, t: nat)
    requires Sound(s) && Enabled(s, PutBack(t))
    ensures Sound(Apply(s, PutBack(t)))
  {
    hide Sound;
    Parts(s);
    var after, x := Apply(s, PutBack(t)), s.busy[t].session;
    hide Keeps, KeptSet, InUse, HeldApart, UsedUnderItsKey, AllTriedSo, Parted, NamedTo;
    Holding(s, t);
    if x !in s.hungUp { PutBackUnder(s.kept, s.busy[t].key, x, s.openedFor); }
    hide KeptOnce, KeptUnderItsKey;
    PartedMoves(KeptSet(s.kept), InUse(s.busy), s.dropped, s.sessions, x);
    assert InUse(s.busy) - HeldBy(s.busy, t) + Held(after.busy[t]) == InUse(s.busy) - {x};
    MoveSound(s, after, t, after.busy[t]);
  }

  lemma PutBackUnder(kept: map<string, seq<nat>>, key: string, session: nat, openedFor: map<nat, string>)
    requires KeptOnce(kept) && KeptUnderItsKey(kept, openedFor) && session !in KeptSet(kept)
    requires session in openedFor && openedFor[session] == key
    ensures var now := kept[key := KeptFor(kept, key) + [session]];
            KeptOnce(now) && KeptUnderItsKey(now, openedFor) && KeptSet(now) == KeptSet(kept) + {session}
  {
    PutBackIs(kept, key, session);
    hide KeptOnce;
  }

  lemma ReturnSound(s: State, t: nat)
    requires Sound(s) && Enabled(s, Return(t))
    ensures Sound(Apply(s, Return(t)))
  {
    var busy := s.busy - {t};
    forall x | x in InUse(s.busy) ensures x in InUse(busy) {
      var t' :| t' in s.busy && Holds(s.busy[t']) == Some(x);
      assert Holds(busy[t']) == Some(x);
    }
    assert InUse(busy) == InUse(s.busy);
    hide Keeps, KeptSet, InUse, KeptOnce, KeptUnderItsKey, Parted;
  }

  lemma StepSound(s: State, step: Step)
    requires Sound(s) && Enabled(s, step)
    ensures Sound(Apply(s, step))
  {
    hide Sound;
    match step
    case Begin(t, key, only) => BeginSound(s, t, key, only);
    case Pop(t) => PopSound(s, t);
    case Reused(t, ok) => ReusedSound(s, t, ok);
    case Sweep(t) => SweepSound(s, t);
    case Open(t, ok) => OpenSound(s, t, ok);
    case Carried(t, ok) => CarriedSound(s, t, ok);
    case PutBack(t) => PutBackSound(s, t);
    case Return(t) => ReturnSound(s, t);
    case HangUp(session) => HangUpSound(s, session);
  }

  lemma BeginSound(s: State, t: nat, key: string, only: bool)
    requires Sound(s) && Enabled(s, Begin(t, key, only))
    ensures Sound(Apply(s, Begin(t, key, only)))
  {
    hide Keeps, KeptSet, InUse, KeptOnce, HeldApart, UsedUnderItsKey, KeptUnderItsKey, AllTriedSo;
    MoveSound(s, Apply(s, Begin(t, key, only)), t, Taking(key, only));
  }

  lemma HangUpSound(s: State, session: nat)
    requires Sound(s)
    ensures Sound(Apply(s, HangUp(session)))
  {}

  // ------------------------------------------------------------------- every run

  ghost predicate Run(states: seq<State>, steps: seq<Step>) {
    && |states| == |steps| + 1 && states[0] == INIT
    && forall i | 0 <= i < |steps| :: Enabled(states[i], steps[i]) && states[i + 1] == Apply(states[i], steps[i])
  }

  lemma {:induction false} EveryRunIsSound(states: seq<State>, steps: seq<Step>)
    requires Run(states, steps)
    ensures forall i | 0 <= i < |states| :: Sound(states[i])
  {
    hide Enabled, Apply;
    if steps == [] {
      assert InUse(map[]) == {} && KeptSet(map[]) == {};
    } else {
      var last := |steps| - 1;
      EveryRunIsSound(states[..|states| - 1], steps[..last]);
      assert forall i | 0 <= i <= last :: states[..|states| - 1][i] == states[i];
      StepSound(states[last], steps[last]);
    }
  }

  /** Sessions opened are as many as are kept, in use and dropped together. */
  lemma OpenedAreAccountedFor(states: seq<State>, steps: seq<Step>, i: nat)
    requires Run(states, steps) && i < |states|
    ensures states[i].sessions == |KeptSet(states[i].kept)| + |InUse(states[i].busy)| + |states[i].dropped|
  {
    EveryRunIsSound(states, steps);
    var s := states[i];
    assert Below(s.sessions) == KeptSet(s.kept) + InUse(s.busy) + s.dropped;
  }

  /** An exchange that reported success went once, or twice where a kept session
      failed it: that session is kept and used no more, whatever follows. */
  lemma OnceOrTwice(states: seq<State>, steps: seq<Step>, i: nat, t: nat)
    requires Run(states, steps) && i < |states| && t in states[i].busy && states[i].busy[t].Over? && states[i].busy[t].ok
    ensures |states[i].busy[t].tried| in {1, 2}
    ensures |states[i].busy[t].tried| == 2 ==>
              forall j | i <= j < |states| ::
                states[i].busy[t].tried[0] !in KeptSet(states[j].kept) && states[i].busy[t].tried[0] !in InUse(states[j].busy)
  {
    EveryRunIsSound(states, steps);
    assert TriedSo(states[i].busy[t], states[i].dropped);
    forall j | i <= j < |states| ensures states[i].dropped <= states[j].dropped { DroppedStays(states, steps, i, j); }
    forall j | i <= j < |states| ensures Parted(KeptSet(states[j].kept), InUse(states[j].busy), states[j].dropped, states[j].sessions) {
      assert Sound(states[j]);
    }
  }

  lemma {:induction false} DroppedStays(states: seq<State>, steps: seq<Step>, i: nat, j: nat)
    requires Run(states, steps) && i <= j < |states|
    ensures states[i].dropped <= states[j].dropped
  {
    if i < j {
      DroppedStays(states, steps, i, j - 1);
      assert Enabled(states[j - 1], steps[j - 1]) && states[j] == Apply(states[j - 1], steps[j - 1]);
    }
  }

  /** The session kept last is taken first, and only where its far end has not hung up
      on it; one put back is kept last, and only so. */
  lemma UsableTakenAndKept(s: State, t: nat)
    requires Sound(s)
    ensures Enabled(s, Pop(t)) && KeptFor(s.kept, s.busy[t].key) != [] ==>
              var key, after := s.busy[t].key, Apply(s, Pop(t));
              var sessions := KeptFor(s.kept, key);
              var last := sessions[|sessions| - 1];
              && KeptFor(after.kept, key) == sessions[..|sessions| - 1]
              && if last in s.hungUp then last in after.dropped && after.busy == s.busy
                 else after.busy[t] == Reusing(key, last, s.busy[t].only)
    ensures Enabled(s, PutBack(t)) ==>
              var session, key := s.busy[t].session, s.busy[t].key;
              if session in s.hungUp then session in Apply(s, PutBack(t)).dropped && Apply(s, PutBack(t)).kept == s.kept
              else KeptFor(Apply(s, PutBack(t)).kept, key) == KeptFor(s.kept, key) + [session]
  {
    hide Sound;
  }

  /** Right after an opening's sweep no session its far end hung up on is kept
      under any key, and no key without a session. */
  lemma SweptClean(s: State, t: nat)
    requires Sound(s) && Enabled(s, Sweep(t))
    ensures KeptSet(Apply(s, Sweep(t)).kept) == KeptSet(s.kept) - s.hungUp
    ensures forall k | k in Apply(s, Sweep(t)).kept :: Apply(s, Sweep(t)).kept[k] != []
  {
    SweptIs(s.kept, s.hungUp);
  }

  /** Where an exchange that is only for a kept session may stand. */
  predicate KeptOnly(d: Doing) {
    ((d.Taking? || d.Reusing?) && d.only) || d.PuttingBack? || d.Over?
  }

  lemma StaysKeptOnly(s: State, step: Step, t: nat)
    requires Enabled(s, step) && t in s.busy && KeptOnly(s.busy[t]) && step != Return(t)
    ensures t in Apply(s, step).busy && KeptOnly(Apply(s, step).busy[t])
  {}

  lemma {:induction false} KeptOnlyUntilReturn(states: seq<State>, steps: seq<Step>, i: nat, j: nat, t: nat)
    requires Run(states, steps) && i <= j < |states| && t in states[i].busy && KeptOnly(states[i].busy[t])
    requires forall k | i <= k < j :: steps[k] != Return(t)
    ensures t in states[j].busy && KeptOnly(states[j].busy[t])
  {
    if i < j {
      hide Enabled, Apply;
      KeptOnlyUntilReturn(states, steps, i, j - 1, t);
      StaysKeptOnly(states[j - 1], steps[j - 1], t);
    }
  }

  /** In every run an exchange begun only for a kept session opens none: whatever its
      thread opens, it opens after that exchange returned. */
  lemma OnlyKeptOpensNone(states: seq<State>, steps: seq<Step>, i: nat, j: nat, t: nat, key: string, ok: bool)
    requires Run(states, steps) && i < j < |steps| && steps[i] == Begin(t, key, true) && steps[j] == Open(t, ok)
    ensures exists k :: i < k < j && steps[k] == Return(t)
  {
    assert states[i + 1] == Apply(states[i], steps[i]) && Enabled(states[j], steps[j]);
    if forall k | i < k < j :: steps[k] != Return(t) {
      KeptOnlyUntilReturn(states, steps, i + 1, j, t);
    }
  }
}
