/**
 The connections a Receive Location's peers keep open beside its listener, and
 the answers it owes on them.
 */
module Serving {

  import opened Wrappers

  /** The most connections kept open at once. */
  const MOST_KEPT: nat := 64

  /** What one turn on a connection came to. */
  datatype Turn = Taken | Last | Nothing | Closed | Failed

  /** What accepting a new peer came to: it failed, the peer gone from the queue or
      still in it; the peer was no connection; or it was one. */
  datatype Accepted<+C> = Refused(gone: bool) | Unopened | Opened(connection: C)

  /** The connections after a turn on the one at `at`: the one served goes to the back. */
  function Turned<C>(open: seq<C>, at: nat, turn: Turn): seq<C>
    requires at < |open|
  {
    match turn
    case Taken => open[..at] + open[at + 1..] + [open[at]]
    case Nothing => open
    case _ => open[..at] + open[at + 1..]
  }

  /** The connections once there is room for one more. */
  function Room<C>(open: seq<C>): seq<C> {
    if |open| == MOST_KEPT then open[1..] else open
  }

  class Connections<C(==)> {
    var open: seq<C>

    constructor ()
      ensures open == []
    {
      open := [];
    }

    /** A new peer's connection kept, the one at the front let go where too many
        are; where accepting it failed none is. `spoke` is where the one that spoke
        lies: still it lies there after, or it was let go. */
    method Accept(accepted: Accepted<C>, spoke: Option<nat>) returns (spoke': Option<nat>)
      requires |open| <= MOST_KEPT && (spoke.Some? ==> spoke.value < |open|)
      modifies this
      ensures accepted.Refused? ==> open == old(open)
      ensures accepted.Unopened? ==> open == Room(old(open))
      ensures accepted.Opened? ==> open == Room(old(open)) + [accepted.connection]
      ensures |open| <= MOST_KEPT
      ensures spoke'.Some? ==> spoke.Some? && spoke'.value < |open| && open[spoke'.value] == old(open)[spoke.value]
      ensures spoke.Some? && spoke'.None? ==> spoke.value == 0 && |old(open)| == MOST_KEPT && !accepted.Refused?
    {
      spoke' := spoke;
      if accepted.Refused? { return; }
      if |open| == MOST_KEPT {
        open := open[1..];
        spoke' := if spoke.Some? && spoke.value > 0 then Some(spoke.value - 1) else None;
      }
      if accepted.Opened? { open := open + [accepted.connection]; }
    }

    /** What a turn on the connection at `at` leaves: served, it goes to the back, so
        the one at the front is always the one quiet longest. */
    method Served(at: nat, turn: Turn)
      requires at < |open|
      modifies this
      ensures open == Turned(old(open), at, turn)
      ensures turn.Nothing? ==> open == old(open)
      ensures !turn.Nothing? ==>
                && |open| == |old(open)| - (if turn.Taken? then 0 else 1)
                && (forall i | 0 <= i < at :: open[i] == old(open)[i])
                && (forall i | at < i < |old(open)| :: open[i - 1] == old(open)[i])
      ensures turn.Taken? ==> open[|open| - 1] == old(open)[at]
    {
      match turn
      case Nothing =>
      case Taken =>
        var served := open[at];
        open := open[..at] + open[at + 1..];
        open := open + [served];
      case _ =>
        open := open[..at] + open[at + 1..];
    }

    /** The first connection not busy whose next exchange is read already. */
    method Ready(owing: set<C>, waiting: set<C>) returns (r: Option<nat>)
      ensures r.Some? ==> r.value < |open| && open[r.value] in waiting - owing
                          && forall i | 0 <= i < r.value :: open[i] !in waiting - owing
      ensures r.None? ==> forall i | 0 <= i < |open| :: open[i] !in waiting - owing
    {
      for i := 0 to |open|
        invariant forall j | 0 <= j < i :: open[j] !in waiting - owing
      {
        if open[i] !in owing && open[i] in waiting { return Some(i); }
      }
      r := None;
    }
  }

  // ------------------------------------------------------------- an answer owed

  /** Whether a connection waits on this side, and how often its being freed was
      told to the wait that left it out. */
  class Busy {
    var busy: bool
    var told: nat

    constructor ()
      ensures !busy && told == 0
    {
      busy, told := false, 0;
    }

    method Set(busy: bool)
      modifies this
      ensures this.busy == busy && told == old(told) + if busy then 0 else 1
    {
      this.busy := busy;
      if !busy { told := told + 1; }
    }
  }

  /** A connection's write side: what was answered on it, and whether it was shut. */
  class Peer {
    var heard: seq<string>
    var shut: bool

    constructor ()
      ensures heard == [] && !shut
    {
      heard, shut := [], false;
    }
  }

  /** The answer one peer waits for on its connection, given once. */
  class Answer {
    const connection: Peer
    const busy: Busy
    var answered: bool

    constructor (connection: Peer, busy: Busy)
      modifies busy
      ensures this.connection == connection && this.busy == busy && !answered
      ensures busy.busy && busy.told == old(busy.told)
    {
      this.connection, this.busy, answered := connection, busy, false;
      new;
      busy.Set(true);
    }

    /** Written, or not written where the peer went away: free either way. */
    method Write(bytes: string, reached: bool) returns (r: Result<()>)
      requires !answered
      modifies this, busy, connection
      ensures answered && !busy.busy && busy.told == old(busy.told) + 1
      ensures connection.heard == old(connection.heard) + if reached then [bytes] else []
      ensures connection.shut == old(connection.shut) && (r.Ok? <==> reached)
    {
      if reached { connection.heard := connection.heard + [bytes]; }
      Free();
      r := if reached then Ok(()) else Err(true);
    }

    /** Closed unanswered, where that is the negative answer. */
    method Shut()
      requires !answered
      modifies this, busy, connection
      ensures answered && !busy.busy && busy.told == old(busy.told) + 1
      ensures connection.shut && connection.heard == old(connection.heard)
    {
      connection.shut := true;
      Free();
    }

    /** Let go: unanswered, its connection is shut and free; answered, nothing is left to do. */
    method Drop()
      modifies this, busy, connection
      ensures answered && connection.heard == old(connection.heard)
      ensures !old(answered) ==> connection.shut && !busy.busy && busy.told == old(busy.told) + 1
      ensures old(answered) ==> connection.shut == old(connection.shut) && busy.busy == old(busy.busy) && busy.told == old(busy.told)
    {
      if !answered {
        connection.shut := true;
        Free();
      }
    }

    method Free()
      modifies this, busy
      ensures answered && !busy.busy && busy.told == old(busy.told) + 1
    {
      answered := true;
      busy.Set(false);
    }
  }
}
