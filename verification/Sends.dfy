/**
 A send over kept sessions: a body carried by the exchange a pool runs on a
 session it kept, and again on a new one where the kept one failed.
 */
module Sends {

  import opened Outgoing
  import opened Pool
  import opened Wrappers

  /** Each session's far end, by number: what was written to it. */
  class Wires {
    const takes: (nat, nat) -> bool   // whether a session takes what is written to it next
    const begun: (nat, nat) -> nat    // how much of it it had, where it does not
    const again: (nat, nat) -> bool   // and whether that may be tried again
    var sinks: seq<Sink>

    constructor (takes: (nat, nat) -> bool, begun: (nat, nat) -> nat, again: (nat, nat) -> bool)
      ensures this.takes == takes && this.begun == begun && this.again == again && sinks == []
    {
      this.takes, this.begun, this.again, sinks := takes, begun, again, [];
    }

    ghost predicate Apart()
      reads this
    {
      forall i, j | 0 <= i < j < |sinks| :: sinks[i] != sinks[j]
    }

    method Open()
      requires Apart()
      modifies this
      ensures Apart() && |sinks| == |old(sinks)| + 1 && sinks[..|old(sinks)|] == old(sinks)
      ensures var made := sinks[|old(sinks)|];
              && fresh(made) && made.received == [] && made.asked == 0
              && forall n: nat :: made.accepts(n) == takes(|old(sinks)|, n) && made.begun(n) == begun(|old(sinks)|, n)
                                && made.again(n) == again(|old(sinks)|, n)
    {
      var session, far, had, next := |sinks|, takes, begun, again;
      var made := new Sink((n: nat) => far(session, n), (n: nat) => had(session, n), (n: nat) => next(session, n));
      sinks := sinks + [made];
    }
  }

  /** An exchange on `session`: the body written to it and, where it went whole, its
      answer. Its far end may hang up meanwhile, however far the exchange comes. */
  method SendOn(far: FarEnd<()>, session: nat, sink: Sink, o: Outgoing, way: Way, still: bool) returns (r: Result<()>)
    requires o.Valid()
    modifies far`carried, far`hungUp, sink, o
    ensures far.carried == old(far.carried) + [session]
    ensures r.Ok? <==> old(o.Arrives(o.openings, way, still, sink, sink.asked)) && far.answer(|old(far.carried)|).result.Ok?
    ensures if old(o.Arrives(o.openings, way, still, sink, sink.asked)) then r == far.answer(|old(far.carried)|).result
            else r.Err? && FailsSo(o.Carried(old(o.openings)), r.retryable, still, sink, old(sink.asked))
    ensures far.hungUp == old(far.hungUp) + far.answer(|old(far.carried)|).hangsUp
    ensures r.Ok? ==> sink.received == old(sink.received) + o.SentAs(way, o.Carried(old(o.openings)).value)
    ensures SentOf(sink.received, old(sink.received), o.Content(old(o.openings)))
    ensures o.openings == old(o.openings) + if o.body.Held? then 0 else 1
  {
    hide SentOf;
    r := o.Send(way, sink, still);
    var answered := far.Carry(session);
    if r.Ok? { r := answered; }
  }

  /** Every session has its wire, and the pool keeps only sessions opened. */
  ghost predicate Wired<K(!new)>(pool: Pool<(), K>, far: FarEnd<()>, wires: Wires)
    reads pool, far, wires
  {
    pool.Valid(far) && wires.Apart() && |wires.sinks| == far.sessions
  }

  /** The session an exchange for `key` goes on first, where one is kept. */
  ghost function Reused<K(!new)>(pool: Pool<(), K>, far: FarEnd<()>, wires: Wires, key: K): (r: Option<nat>)
    requires Wired(pool, far, wires)
    reads pool, far, wires
    ensures r.Some? ==> r.value < |wires.sinks|
  {
    var taken := TakenFor(pool.kept, key, far.hungUp);
    assert taken.Some? ==> Keeps(pool.kept, taken.value);
    taken
  }

  /** The send run as one exchange: on a session kept for `key`, and where it fails
      there, whatever failed and however far it came, the whole body once more, from
      an opening of its own, on a new session. */
  method Send<K(==,!new)>(pool: Pool<(), K>, far: FarEnd<()>, wires: Wires, key: K, o: Outgoing, way: Way, still: nat -> bool)
    returns (r: Result<()>, ghost tried: seq<nat>)
    requires Wired(pool, far, wires) && o.Valid()
    modifies pool, far, wires, wires.sinks, o
    ensures Wired(pool, far, wires) && far.carried == old(far.carried) + tried && old(wires.sinks) <= wires.sinks
    ensures var reused, went := old(Reused(pool, far, wires, key)), |old(far.carried)|;
            if reused.Some? && far.answer(went).result.Ok?
               && old(o.Arrives(o.openings, way, still(0), wires.sinks[reused.value], wires.sinks[reused.value].asked))
            then r.Ok? && tried == [reused.value]
            else
              var first := if reused.Some? then [reused.value] else [];
              if far.opens(old(far.asked)).Err? then r == Err(far.opens(old(far.asked)).retryable) && tried == first
              else
                && tried == first + [old(far.sessions)] && |wires.sinks| == old(far.sessions) + 1
                && (r.Ok? <==> far.answer(went + |first|).result.Ok?
                               && o.Arrives(Reading(o, old(o.openings), |first|), way, still(|first|), wires.sinks[old(far.sessions)], 0))
    ensures r.Ok? ==> tried != [] && tried[|tried| - 1] < |wires.sinks|
    ensures r.Ok? ==>
              var last := tried[|tried| - 1];
              wires.sinks[last].received == (if last < |old(wires.sinks)| then old(wires.sinks[last].received) else [])
                                            + o.SentAs(way, o.Carried(Reading(o, old(o.openings), |tried| - 1)).value)
    ensures forall s | 0 <= s < |old(wires.sinks)| ::
              if s in tried then SentOf(wires.sinks[s].received, old(wires.sinks[s].received), o.Content(old(o.openings)))
              else wires.sinks[s].received == old(wires.sinks[s].received)
    ensures |wires.sinks| > |old(wires.sinks)| ==>
              tried != [] && SentOf(wires.sinks[|old(wires.sinks)|].received, [], o.Content(Reading(o, old(o.openings), |tried| - 1)))
    ensures forall s | s in tried && Keeps(pool.kept, s) :: r.Ok? && s == tried[|tried| - 1]
    ensures var left, newly := LeftBy(old(pool.kept), key, old(far.hungUp)), old(far.sessions);
            var hungUp := SeenAtOpening(far, |old(far.carried)|, old(far.hungUp), tried, newly);
            pool.kept == if r.Ok? && newly !in tried then KeptWith(left, key, if tried[0] in far.hungUp then [] else tried)
                         else KeptWith(Swept(left, hungUp), key, if r.Ok? && newly !in far.hungUp then [newly] else [])
  {
    hide KeptFor, Usable, BeforeUsable, LeftBy, KeptWith, Swept, Keeps, KeptOnce, TakenFor, SentOf;
    var attempts;
    r, attempts, tried := SendOnReused(pool, far, wires, key, o, way, still(0));
    if r.Ok? { return; }
    ghost var on;
    r, on := SendOnNew(pool, far, wires, key, o, way, still(attempts));
    tried := tried + on;
  }

  /** The send on a session kept for `key`, where one is: let go where it failed. */
  method SendOnReused<K(==,!new)>(pool: Pool<(), K>, far: FarEnd<()>, wires: Wires, key: K, o: Outgoing, way: Way, still: bool)
    returns (r: Result<()>, attempts: nat, ghost tried: seq<nat>)
    requires Wired(pool, far, wires) && o.Valid()
    modifies pool`kept, far`carried, far`hungUp, wires.sinks, o
    ensures Wired(pool, far, wires) && far.carried == old(far.carried) + tried && attempts == |tried|
    ensures var reused := old(Reused(pool, far, wires, key));
            && tried == (if reused.Some? then [reused.value] else [])
            && (r.Ok? <==> reused.Some? && far.answer(|old(far.carried)|).result.Ok?
                           && old(o.Arrives(o.openings, way, still, wires.sinks[reused.value], wires.sinks[reused.value].asked)))
            && (r.Ok? ==> wires.sinks[reused.value].received ==
                          old(wires.sinks[reused.value].received) + o.SentAs(way, o.Carried(old(o.openings)).value))
    ensures o.openings == Reading(o, old(o.openings), |tried|)
    ensures forall s | 0 <= s < |wires.sinks| ::
              if s in tried then SentOf(wires.sinks[s].received, old(wires.sinks[s].received), o.Content(old(o.openings)))
              else wires.sinks[s].received == old(wires.sinks[s].received)
    ensures forall s | s in tried :: s < far.sessions && (Keeps(pool.kept, s) ==> r.Ok?)
    ensures far.hungUp == if tried == [] then old(far.hungUp) else old(far.hungUp) + far.answer(|old(far.carried)|).hangsUp
    ensures var left := LeftBy(old(pool.kept), key, old(far.hungUp));
            pool.kept == if r.Ok? then KeptWith(left, key, if tried[0] in far.hungUp then [] else tried) else left
  {
    hide Keeps, KeptOnce, TakenFor, SentOf;
    var session := pool.Take(far, key);
    if session.None? { return Err(false), 0, []; }
    var sink := wires.sinks[session.value];
    r := SendOn(far, session.value, sink, o, way, still);
    attempts, tried := 1, [session.value];
    if r.Ok? { pool.PutBack(far, key, session.value); }
  }

  /** The send on a session opened for it, after a sweep of those kept. */
  method SendOnNew<K(==,!new)>(pool: Pool<(), K>, far: FarEnd<()>, wires: Wires, key: K, o: Outgoing, way: Way, still: bool)
    returns (r: Result<()>, ghost tried: seq<nat>)
    requires Wired(pool, far, wires) && o.Valid()
    modifies pool, far, wires, o
    ensures Wired(pool, far, wires) && far.carried == old(far.carried) + tried && old(wires.sinks) <= wires.sinks
    ensures if far.opens(old(far.asked)).Err?
            then r == Err(far.opens(old(far.asked)).retryable) && tried == [] && wires.sinks == old(wires.sinks)
            else
              var made := old(far.sessions);
              && tried == [made] && |wires.sinks| == made + 1
              && (r.Ok? <==> far.answer(|old(far.carried)|).result.Ok? && o.Arrives(old(o.openings), way, still, wires.sinks[made], 0))
              && (r.Ok? ==> wires.sinks[made].received == o.SentAs(way, o.Carried(old(o.openings)).value))
              && SentOf(wires.sinks[made].received, [], o.Content(old(o.openings)))
    ensures pool.kept == KeptWith(Swept(old(pool.kept), old(far.hungUp)), key, if r.Err? || tried[0] in far.hungUp then [] else tried)
    ensures forall s | Keeps(pool.kept, s) :: old(Keeps(pool.kept, s)) || (r.Ok? && s in tried)
  {
    hide Keeps, KeptOnce, SentOf;
    pool.LetGoUnusable(far);
    var made := far.Open();
    if made.Err? { return Err(made.retryable), []; }
    pool.openings := pool.openings + 1;
    wires.Open();
    ghost var sinks := wires.sinks;
    r := SendOn(far, made.value, wires.sinks[made.value], o, way, still);
    tried := [made.value];
    if r.Ok? { pool.PutBack(far, key, made.value); }
  }

  /** Which reading of the body the attempt after `attempts` others is. */
  function Reading(o: Outgoing, openings: nat, attempts: nat): nat {
    if o.body.Held? then openings else openings + attempts
  }
}
