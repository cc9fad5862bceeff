/**
 The sessions a transport keeps between exchanges: taken for one exchange and
 put back after, and replaced where the far end closed one meanwhile.
 */
module Pool {

  import opened Wrappers

  /** How an exchange went, and the sessions the far end hung up on meanwhile. */
  datatype Answer<+T> = Answer(result: Result<T>, hangsUp: set<nat>)

  /** The far end of every session, however it answers and whenever it hangs up. */
  class FarEnd<T> {
    const answer: nat -> Answer<T>    // to each exchange, by how many went before it
    const opens: nat -> Result<()>    // to each opening, by how many were asked before it
    var carried: seq<nat>             // the session each exchange went on
    var asked: nat
    var sessions: nat                 // the sessions are numbered as they are opened
    var hungUp: set<nat>

    constructor (answer: nat -> Answer<T>, opens: nat -> Result<()>)
      ensures this.answer == answer && this.opens == opens
      ensures carried == [] && asked == 0 && sessions == 0 && hungUp == {}
    {
      this.answer, this.opens := answer, opens;
      carried, asked, sessions, hungUp := [], 0, 0, {};
    }

    method Carry(session: nat) returns (r: Result<T>)
      modifies this`carried, this`hungUp
      ensures carried == old(carried) + [session]
      ensures r == answer(|old(carried)|).result
      ensures hungUp == old(hungUp) + answer(|old(carried)|).hangsUp
    {
      var given := answer(|carried|);
      carried, hungUp := carried + [session], hungUp + given.hangsUp;
      r := given.result;
    }

    method Open() returns (r: Result<nat>)
      modifies this`asked, this`sessions
      ensures asked == old(asked) + 1
      ensures r == if opens(old(asked)).Ok? then Ok(old(sessions)) else Err(opens(old(asked)).retryable)
      ensures sessions == old(sessions) + if r.Ok? then 1 else 0
    {
      var given := opens(asked);
      asked := asked + 1;
      if given.Err? { return Err(given.retryable); }
      r := Ok(sessions);
      sessions := sessions + 1;
    }
  }

  /** Those of `sessions` the far end has not hung up on, in their order. */
  function Usable(sessions: seq<nat>, hungUp: set<nat>): (r: seq<nat>)
    ensures forall s :: s in r <==> s in sessions && s !in hungUp
  {
    if sessions == [] then []
    else
      var last := sessions[|sessions| - 1];
      Usable(sessions[..|sessions| - 1], hungUp) + if last in hungUp then [] else [last]
  }

  /** What a take leaves: the sessions before the last one that is usable. */
  function BeforeUsable(sessions: seq<nat>, hungUp: set<nat>): (r: seq<nat>)
    ensures r <= sessions
    ensures (|r| < |sessions| && sessions[|r|] !in hungUp) || (r == [] && forall s | s in sessions :: s in hungUp)
    ensures forall i | |r| < i < |sessions| :: sessions[i] in hungUp
  {
    if sessions == [] then []
    else
      var front := sessions[..|sessions| - 1];
      if sessions[|sessions| - 1] in hungUp then BeforeUsable(front, hungUp) else front
  }

  predicate HasUsable(sessions: seq<nat>, hungUp: set<nat>) {
    exists s :: s in sessions && s !in hungUp
  }

  function KeptFor<K>(kept: map<K, seq<nat>>, key: K): seq<nat> {
    if key in kept then kept[key] else []
  }

  /** What taking a session for `key` leaves: of that key's, those before the last usable one. */
  function LeftBy<K>(kept: map<K, seq<nat>>, key: K, hungUp: set<nat>): (r: map<K, seq<nat>>)
    ensures r.Keys == kept.Keys && forall k | k in kept :: r[k] == if k == key then BeforeUsable(kept[k], hungUp) else kept[k]
  {
    if key in kept then kept[key := BeforeUsable(kept[key], hungUp)] else kept
  }

  /** `sessions` kept after those kept for `key`. */
  function KeptWith<K>(kept: map<K, seq<nat>>, key: K, sessions: seq<nat>): map<K, seq<nat>> {
    if sessions == [] then kept else kept[key := KeptFor(kept, key) + sessions]
  }

  ghost predicate Keeps<K(!new)>(kept: map<K, seq<nat>>, session: nat) {
    exists k :: k in kept && session in kept[k]
  }

  /** Each session kept once, under one key. */
  ghost predicate KeptOnce<K(!new)>(kept: map<K, seq<nat>>) {
    && (forall k, i, j | k in kept && 0 <= i < j < |kept[k]| :: kept[k][i] != kept[k][j])
    && (forall k, k', s | k in kept && k' in kept && s in kept[k] && s in kept[k'] :: k == k')
  }

  class Pool<T, K(==,!new)> {
    var kept: map<K, seq<nat>>
    var openings: nat

    constructor ()
      ensures kept == map[] && openings == 0
    {
      kept, openings := map[], 0;
    }

    /** Every kept session was opened, and is kept once. */
    ghost predicate Valid(far: FarEnd<T>)
      reads this, far
    {
      && KeptOnce(kept) && openings == far.sessions
      && forall s: nat | Keeps(kept, s) :: s < far.sessions
    }

    /** A kept session for `key` that can still carry an exchange; those that cannot
        are dropped on the way. */
    method Take(far: FarEnd<T>, key: K) returns (r: Option<nat>)
      requires Valid(far)
      modifies this`kept
      ensures Valid(far) && Within(kept, old(kept))
      ensures r == TakenFor(old(kept), key, far.hungUp)
      ensures kept == LeftBy(old(kept), key, far.hungUp)
      ensures r.Some? ==> old(Keeps(kept, r.value)) && !Keeps(kept, r.value)
      ensures forall s | old(Keeps(kept, s)) && s !in far.hungUp && r != Some(s) :: Keeps(kept, s)
    {
      hide Keeps, KeptOnce;
      if key !in kept { return None; }
      ghost var was := kept;
      while kept[key] != []
        invariant key in kept && kept == was[key := kept[key]] && kept[key] <= was[key]
        invariant forall i | |kept[key]| <= i < |was[key]| :: was[key][i] in far.hungUp
        decreases |kept[key]|
      {
        var left := |kept[key]| - 1;
        var session := kept[key][left];
        kept := kept[key := kept[key][..left]];
        if session !in far.hungUp {
          assert kept[key] == was[key][..left];
          LeftBefore(was[key], far.hungUp, left);
          TakenIs(was, key, far.hungUp);
          assert kept == was[key := BeforeUsable(was[key], far.hungUp)];
          return Some(session);
        }
      }
      NoneLeft(was[key], far.hungUp);
      TakenIs(was, key, far.hungUp);
      r := None;
    }

    /** Every kept session that can no longer carry an exchange let go, under every
        key, and a key left with none forgotten. */
    method LetGoUnusable(far: FarEnd<T>)
      requires Valid(far)
      modifies this`kept
      ensures Valid(far) && kept == Swept(old(kept), far.hungUp) && Within(kept, old(kept))
      ensures forall s :: Keeps(kept, s) <==> old(Keeps(kept, s)) && s !in far.hungUp
    {
      SweptIs(kept, far.hungUp);
      kept := map k | k in kept && Usable(kept[k], far.hungUp) != [] :: Usable(kept[k], far.hungUp);
    }

    /** `session` kept for the next exchange under `key`, where it can carry one. */
    method PutBack(far: FarEnd<T>, key: K, session: nat)
      requires Valid(far) && session < far.sessions && !Keeps(kept, session)
      modifies this`kept
      ensures Valid(far)
      ensures kept == if session in far.hungUp then old(kept) else old(kept)[key := old(KeptFor(kept, key)) + [session]]
      ensures forall s :: Keeps(kept, s) <==> old(Keeps(kept, s)) || (s == session && session !in far.hungUp)
    {
      if session in far.hungUp { return; }
      PutBackIs(kept, key, session);
      kept := kept[key := KeptFor(kept, key) + [session]];
    }

    /** An exchange run on a session kept for `key`, or on a new one where none is
        kept or the kept one failed: `tried` are the sessions it went on. */
    method Exchange(far: FarEnd<T>, key: K) returns (r: Result<T>, ghost tried: seq<nat>)
      requires Valid(far)
      modifies this, far
      ensures Valid(far) && far.carried == old(far.carried) + tried
      ensures var went, reused := |old(far.carried)|, old(TakenFor(kept, key, far.hungUp));
              (reused.Some? ==> reused.value < old(far.sessions)) &&
              if reused.Some? && far.answer(went).result.Ok?
              then tried == [reused.value] && r == far.answer(went).result && far.asked == old(far.asked)
              else
                var first := if reused.Some? then [reused.value] else [];
                && far.asked == old(far.asked) + 1
                && if far.opens(old(far.asked)).Err? then tried == first && r == Err(far.opens(old(far.asked)).retryable)
                   else tried == first + [old(far.sessions)] && r == far.answer(went + |first|).result
      ensures far.sessions == old(far.sessions) + if old(far.sessions) in tried then 1 else 0
      ensures far.hungUp == old(far.hungUp) + (if |tried| > 0 then far.answer(|old(far.carried)|).hangsUp else {})
                                            + (if |tried| > 1 then far.answer(|old(far.carried)| + 1).hangsUp else {})
      ensures forall s | s in tried && Keeps(kept, s) :: r.Ok? && s == tried[|tried| - 1]
      ensures r.Ok? ==> tried != [] && (Keeps(kept, tried[|tried| - 1]) <==> tried[|tried| - 1] !in far.hungUp)
      ensures r.Ok? && tried[|tried| - 1] !in far.hungUp ==> tried[|tried| - 1] in KeptFor(kept, key)
      ensures forall s | s !in tried && Keeps(kept, s) :: old(Keeps(kept, s))
      ensures forall s | old(Keeps(kept, s)) && s !in tried && s !in far.hungUp :: Keeps(kept, s)
      ensures far.asked == old(far.asked) ==>
                forall k :: KeptFor(kept, k) ==
                  if k != key then old(KeptFor(kept, k))
                  else BeforeUsable(old(KeptFor(kept, key)), old(far.hungUp)) + if tried[0] in far.hungUp then [] else tried
      ensures far.asked > old(far.asked) ==>
                var hungUp := SeenAtOpening(far, |old(far.carried)|, old(far.hungUp), tried, old(far.sessions));
                forall k :: KeptFor(kept, k) ==
                  Usable(if k == key then BeforeUsable(old(KeptFor(kept, key)), old(far.hungUp)) else old(KeptFor(kept, k)), hungUp)
                  + if k == key && r.Ok? && old(far.sessions) !in far.hungUp then [old(far.sessions)] else []
      ensures far.asked > old(far.asked) ==>
                forall s | s !in tried && Keeps(kept, s) ::
                  s !in SeenAtOpening(far, |old(far.carried)|, old(far.hungUp), tried, old(far.sessions))
    {
      hide Keeps, KeptOnce, TakenFor, Usable, BeforeUsable, HasUsable, KeptFor;
      var done;
      done, r, tried := OnReused(far, key);
      if done { return; }
      ghost var on;
      r, on := OnNew(far, key);
      tried := tried + on;
    }

    /** An exchange on a session kept for `key`, where one is: let go where it failed. */
    method OnReused(far: FarEnd<T>, key: K) returns (done: bool, r: Result<T>, ghost tried: seq<nat>)
      requires Valid(far)
      modifies this`kept, far`carried, far`hungUp
      ensures Valid(far) && far.carried == old(far.carried) + tried
      ensures var went, reused := |old(far.carried)|, old(TakenFor(kept, key, far.hungUp));
              && (reused.Some? ==> reused.value < far.sessions)
              && tried == (if reused.Some? then [reused.value] else [])
              && (done <==> reused.Some? && far.answer(went).result.Ok?) && (done ==> r == far.answer(went).result)
      ensures far.hungUp == if tried == [] then old(far.hungUp) else old(far.hungUp) + far.answer(|old(far.carried)|).hangsUp
      ensures forall k :: KeptFor(kept, k) ==
                if k != key then old(KeptFor(kept, k))
                else if done && tried[0] !in far.hungUp then BeforeUsable(old(KeptFor(kept, key)), old(far.hungUp)) + tried
                else BeforeUsable(old(KeptFor(kept, key)), old(far.hungUp))
      ensures forall s | s in tried :: Keeps(kept, s) <==> done && s !in far.hungUp
      ensures forall s | s !in tried && Keeps(kept, s) :: old(Keeps(kept, s))
      ensures forall s | old(Keeps(kept, s)) && s !in tried && s !in old(far.hungUp) :: Keeps(kept, s)
    {
      hide Keeps, KeptOnce, TakenFor, Usable, BeforeUsable, HasUsable;
      done, r, tried := false, Err(false), [];
      var session := Take(far, key);
      if session.None? { return; }
      r := far.Carry(session.value);
      done, tried := r.Ok?, [session.value];
      if done { PutBack(far, key, session.value); }
    }

    /** An exchange on a session opened for it, after a sweep of those kept. */
    method OnNew(far: FarEnd<T>, key: K) returns (r: Result<T>, ghost tried: seq<nat>)
      requires Valid(far)
      modifies this, far
      ensures Valid(far) && far.asked == old(far.asked) + 1 && far.carried == old(far.carried) + tried
      ensures if far.opens(old(far.asked)).Err?
              then tried == [] && r == Err(far.opens(old(far.asked)).retryable) && far.sessions == old(far.sessions) && far.hungUp == old(far.hungUp)
              else tried == [old(far.sessions)] && far.sessions == old(far.sessions) + 1
                   && r == far.answer(|old(far.carried)|).result
                   && far.hungUp == old(far.hungUp) + far.answer(|old(far.carried)|).hangsUp
      ensures r.Ok? && tried[0] !in far.hungUp ==> tried[0] in KeptFor(kept, key)
      ensures forall k :: KeptFor(kept, k) ==
                Usable(old(KeptFor(kept, k)), old(far.hungUp)) + if k == key && r.Ok? && tried[0] !in far.hungUp then tried else []
      ensures forall s: nat ::
                Keeps(kept, s) <==> (old(Keeps(kept, s)) && s !in old(far.hungUp)) || (s in tried && r.Ok? && s !in far.hungUp)
    {
      hide Keeps, KeptOnce;
      LetGoUnusable(far);
      var made := far.Open();
      if made.Err? { return Err(made.retryable), []; }
      openings := openings + 1;
      r := far.Carry(made.value);
      tried := [made.value];
      if r.Ok? { PutBack(far, key, made.value); }
    }

    /** An exchange on the session kept for `key`, never on a new one: where none is
        kept it fails for good, and one it fails on is let go. */
    method OnKept(far: FarEnd<T>, key: K) returns (r: Result<T>)
      requires Valid(far)
      modifies this`kept, far
      ensures Valid(far) && far.sessions == old(far.sessions) && far.asked == old(far.asked)
      ensures forall s :: Keeps(kept, s) ==> old(Keeps(kept, s))
      ensures forall s | old(Keeps(kept, s)) && s !in old(far.hungUp) && old(TakenFor(kept, key, far.hungUp)) != Some(s) :: Keeps(kept, s)
      ensures far.hungUp == if old(TakenFor(kept, key, far.hungUp)).None? then old(far.hungUp)
                            else old(far.hungUp) + far.answer(|old(far.carried)|).hangsUp
      ensures var went, reused := |old(far.carried)|, old(TakenFor(kept, key, far.hungUp));
              if reused.None? then r == Err(false) && far.carried == old(far.carried)
              else far.carried == old(far.carried) + [reused.value] && r == far.answer(went).result
                   && (Keeps(kept, reused.value) <==> r.Ok? && reused.value !in far.hungUp)
      ensures kept.Keys == old(kept).Keys && forall k | k in kept && k != key :: kept[k] == old(kept)[k]
      ensures var reused := old(TakenFor(kept, key, far.hungUp));
              && (reused.Some? ==> reused.value < far.sessions)
              && KeptFor(kept, key) == BeforeUsable(old(KeptFor(kept, key)), old(far.hungUp))
                                       + if reused.Some? && r.Ok? && reused.value !in far.hungUp then [reused.value] else []
    {
      var session := Take(far, key);
      if session.None? { return Err(false); }
      r := far.Carry(session.value);
      if r.Err? { return; }
      PutBack(far, key, session.value);
    }
  }

  /** A far end that stays up, whoever asks. */
  ghost predicate StaysUp<T>(far: FarEnd<T>) {
    && (forall n :: far.answer(n).result.Ok? && far.answer(n).hangsUp == {})
    && (forall n :: far.opens(n).Ok?)
  }

  /** One caller's exchanges under one key, one after another: over a far end that
      stays up they all go, on sessions kept, and none is opened but where none
      was kept for the first. */
  method ExchangeMany<T, K(==,!new)>(pool: Pool<T, K>, far: FarEnd<T>, key: K, exchanges: nat)
    requires pool.Valid(far) && StaysUp(far) && forall s | s in far.hungUp :: s < far.sessions
    modifies pool, far
    ensures pool.Valid(far) && |far.carried| == |old(far.carried)| + exchanges
    ensures var kept := old(HasUsable(KeptFor(pool.kept, key), far.hungUp));
            pool.openings == old(pool.openings) + if exchanges == 0 || kept then 0 else 1
  {
    hide Keeps, KeptOnce;
    for n := 0 to exchanges
      invariant pool.Valid(far) && |far.carried| == |old(far.carried)| + n && far.hungUp == old(far.hungUp)
      invariant n > 0 || old(HasUsable(KeptFor(pool.kept, key), far.hungUp)) ==> HasUsable(KeptFor(pool.kept, key), far.hungUp)
      invariant n == 0 ==> pool.kept == old(pool.kept)
      invariant pool.openings == old(pool.openings) + if n == 0 || old(HasUsable(KeptFor(pool.kept, key), far.hungUp)) then 0 else 1
    {
      ghost var went := |far.carried|;
      assert far.answer(went).result.Ok? && far.answer(went).hangsUp == {};
      ghost var reused := TakenFor(pool.kept, key, far.hungUp);
      assert reused.Some? ==> reused.value !in far.hungUp;
      var done;
      ghost var tried;
      done, tried := pool.Exchange(far, key);
      assert tried == [if reused.Some? then reused.value else far.sessions - 1];
    }
  }

  // ------------------------------------------------------- a kept subscription

  /** What asking a subscription for one delivery comes to: one; the end of it;
      or a failure, and whether it may be tried again and the session still
      carries an exchange. */
  datatype Next<+T> = One(value: T) | Ended | Broke(retryable: bool, usable: bool)

  /** How many come one after another, at most `most`. */
  function Arriving<T>(next: nat -> Next<T>, most: nat): (n: nat)
    ensures n <= most && (forall i: nat | i < n :: next(i).One?) && (n < most ==> !next(n).One?)
  {
    if most == 0 then 0
    else
      var before := Arriving(next, most - 1);
      if before == most - 1 && next(before).One? then most else before
  }

  /** What a kept subscription delivers until it goes quiet, at most `most`: what
      arrived before a failure is handed over, and a failure is one only where
      nothing arrived and the session broke, or where it is for good. The rest
      is not asked for. */
  method Delivered<T>(next: nat -> Next<T>, most: nat) returns (r: Result<seq<T>>, asked: nat)
    ensures var n := Arriving(next, most);
            && asked == (if n < most then n + 1 else most)
            && (r.Err? <==> n < most && next(n).Broke? && !(next(n).retryable && (n > 0 || next(n).usable)))
            && (r.Ok? ==> |r.value| == n && forall i | 0 <= i < n :: next(i) == One(r.value[i]))
  {
    var arrived: seq<T> := [];
    asked := 0;
    while |arrived| < most
      invariant asked == |arrived| <= most
      invariant forall i | 0 <= i < |arrived| :: next(i) == One(arrived[i])
    {
      var one := next(asked);
      asked := asked + 1;
      match one
      case One(value) => arrived := arrived + [value];
      case Ended => return Ok(arrived), asked;
      case Broke(retryable, usable) =>
        return if retryable && (arrived != [] || usable) then Ok(arrived) else Err(retryable), asked;
    }
    r := Ok(arrived);
  }

  /** The sessions hung up on as a new one is opened. */
  function SeenAtOpening<T>(far: FarEnd<T>, went: nat, hungUp: set<nat>, tried: seq<nat>, next: nat): set<nat> {
    if tried != [] && tried[0] != next then hungUp + far.answer(went).hangsUp else hungUp
  }

  function Swept<K>(kept: map<K, seq<nat>>, hungUp: set<nat>): map<K, seq<nat>> {
    map k | k in kept && Usable(kept[k], hungUp) != [] :: Usable(kept[k], hungUp)
  }

  /** A sweep leaves exactly the usable sessions, and no key without one. */
  lemma SweptIs<K(!new)>(kept: map<K, seq<nat>>, hungUp: set<nat>)
    requires KeptOnce(kept)
    ensures KeptOnce(Swept(kept, hungUp)) && forall k | k in Swept(kept, hungUp) :: Swept(kept, hungUp)[k] != []
    ensures forall s :: Keeps(Swept(kept, hungUp), s) <==> Keeps(kept, s) && s !in hungUp
  {
    var now := Swept(kept, hungUp);
    forall s | Keeps(kept, s) && s !in hungUp ensures Keeps(now, s) {
      var k :| k in kept && s in kept[k];
      assert s in Usable(kept[k], hungUp) && s in now[k];
    }
    forall s | Keeps(now, s) ensures Keeps(kept, s) && s !in hungUp {
      var k :| k in now && s in now[k];
      assert s in kept[k];
    }
    forall k, i, j | k in now && 0 <= i < j < |now[k]| ensures now[k][i] != now[k][j] {
      UsableOnce(kept[k], hungUp);
    }
  }

  lemma {:induction false} UsableOnce(sessions: seq<nat>, hungUp: set<nat>)
    requires forall i, j | 0 <= i < j < |sessions| :: sessions[i] != sessions[j]
    ensures forall i, j | 0 <= i < j < |Usable(sessions, hungUp)| :: Usable(sessions, hungUp)[i] != Usable(sessions, hungUp)[j]
  {
    if sessions != [] {
      var front := sessions[..|sessions| - 1];
      UsableOnce(front, hungUp);
      assert forall i | 0 <= i < |Usable(front, hungUp)| :: Usable(front, hungUp)[i] in front;
    }
  }

  ghost predicate ComesBefore(sessions: seq<nat>, one: nat, other: nat) {
    exists p, q :: 0 <= p < q < |sessions| && sessions[p] == one && sessions[q] == other
  }

  /** A sweep leaves the sessions in their order. */
  lemma {:induction false} UsableInOrder(sessions: seq<nat>, hungUp: set<nat>)
    ensures forall i, j | 0 <= i < j < |Usable(sessions, hungUp)| ::
              ComesBefore(sessions, Usable(sessions, hungUp)[i], Usable(sessions, hungUp)[j])
  {
    if sessions != [] {
      var front, last, now := sessions[..|sessions| - 1], |sessions| - 1, Usable(sessions, hungUp);
      UsableInOrder(front, hungUp);
      forall i, j | 0 <= i < j < |now| ensures ComesBefore(sessions, now[i], now[j]) {
        if j < |Usable(front, hungUp)| {
          assert ComesBefore(front, now[i], now[j]);
        } else {
          assert Usable(front, hungUp)[i] in front;
          var p :| 0 <= p < last && sessions[p] == now[i];
          assert sessions[last] == now[j];
        }
      }
    }
  }

  lemma PutBackIs<K(!new)>(kept: map<K, seq<nat>>, key: K, session: nat)
    requires KeptOnce(kept) && !Keeps(kept, session)
    ensures var now := kept[key := KeptFor(kept, key) + [session]];
            KeptOnce(now) && forall s :: Keeps(now, s) <==> Keeps(kept, s) || s == session
  {
    var now := kept[key := KeptFor(kept, key) + [session]];
    assert session in now[key];
    forall s | Keeps(kept, s) ensures Keeps(now, s) {
      var k :| k in kept && s in kept[k];
      assert s in now[k];
    }
    forall s | Keeps(now, s) ensures Keeps(kept, s) || s == session {
      var k :| k in now && s in now[k];
      assert s != session ==> k in kept && s in kept[k];
    }
    forall k, s | k in kept && s in kept[k] ensures s != session { assert Keeps(kept, s); }
  }

  function TakenFor<K>(kept: map<K, seq<nat>>, key: K, hungUp: set<nat>): Option<nat> {
    var sessions := KeptFor(kept, key);
    if HasUsable(sessions, hungUp) then Some(sessions[|BeforeUsable(sessions, hungUp)|]) else None
  }

  ghost predicate Within<K(!new)>(kept: map<K, seq<nat>>, was: map<K, seq<nat>>) {
    forall s: nat | Keeps(kept, s) :: Keeps(was, s)
  }

  /** Taking leaves every usable session but the one taken, each where it was. */
  lemma TakenIs<K(!new)>(was: map<K, seq<nat>>, key: K, hungUp: set<nat>)
    requires KeptOnce(was) && key in was
    ensures var now, taken := was[key := BeforeUsable(was[key], hungUp)], TakenFor(was, key, hungUp);
            && KeptOnce(now) && Within(now, was)
            && (taken.Some? ==> Keeps(was, taken.value) && !Keeps(now, taken.value))
            && forall s: nat | Keeps(was, s) && s !in hungUp && taken != Some(s) :: Keeps(now, s)
  {
    var now, taken := was[key := BeforeUsable(was[key], hungUp)], TakenFor(was, key, hungUp);
    var n := |now[key]|;
    forall s: nat | Keeps(now, s) ensures Keeps(was, s) && taken != Some(s) {
      var k :| k in now && s in now[k];
      assert k in was && s in was[k];
      if taken.Some? { assert was[key][n] in was[key]; }
    }
    forall s: nat | Keeps(was, s) && s !in hungUp && taken != Some(s) ensures Keeps(now, s) {
      var k :| k in was && s in was[k];
      if k == key {
        var i :| 0 <= i < |was[key]| && was[key][i] == s;
        assert now[key][i] == s;
      }
      assert s in now[k];
    }
  }

  lemma LeftBefore(sessions: seq<nat>, hungUp: set<nat>, at: nat)
    requires at < |sessions| && sessions[at] !in hungUp && forall i | at < i < |sessions| :: sessions[i] in hungUp
    ensures BeforeUsable(sessions, hungUp) == sessions[..at]
  {}

  lemma NoneLeft(sessions: seq<nat>, hungUp: set<nat>)
    requires forall i | 0 <= i < |sessions| :: sessions[i] in hungUp
    ensures BeforeUsable(sessions, hungUp) == [] && !HasUsable(sessions, hungUp)
  {}
}
