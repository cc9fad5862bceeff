/**
 A location of the file family held in memory, each operation as the far end
 makes it, and any of them, for any name, one that cannot be asked.
 */
module ClaimSite {

  import opened Wrappers
  import opened Directory

  datatype Operation = List | Turns | TakeTurn | Holder | DropTurn | Stamp | Finished | Rename | Restore | Delete

  /** How a far end answers: the names whose rename it refuses, those it gives no
      stamp of, where it tells whether a writer still holds one, and what cannot
      be asked now. */
  datatype Answers = Answers(refusing: set<string>, unstamped: set<string>, finished: map<string, bool>,
                             unasked: set<(Operation, string)>)

  function StampIn(files: map<string, File>, unstamped: set<string>, name: string): Option<nat> {
    if name in files && name !in unstamped then Some(files[name].stamp) else None
  }

  /** Every file, each once, with its stamp. */
  ghost predicate ListsOf(files: map<string, File>, unstamped: set<string>, listed: seq<(string, Option<nat>)>) {
    && (forall n | n in files :: exists i :: 0 <= i < |listed| && listed[i].0 == n)
    && (forall i | 0 <= i < |listed| :: listed[i].0 in files && listed[i].1 == StampIn(files, unstamped, listed[i].0))
    && (forall i, j | 0 <= i < j < |listed| :: listed[i].0 != listed[j].0)
  }

  class Memory {
    var dir: Dir
    var writes: nat
    var refusing: set<string>              // names whose rename is refused
    var unstamped: set<string>             // names the far end gives no stamp of
    var finished: map<string, bool>        // where it tells whether a writer still holds one
    var unasked: set<(Operation, string)>  // what cannot be asked now

    constructor ()
      ensures dir == Dir(map[], map[]) && writes == 0
      ensures refusing == {} && unstamped == {} && finished == map[] && unasked == {}
    {
      dir, writes := Dir(map[], map[]), 0;
      refusing, unstamped, finished, unasked := {}, {}, map[], {};
    }

    function AnswersNow(): Answers
      reads this
    {
      Answers(refusing, unstamped, finished, unasked)
    }

    /** The stamp of `name` as it lies now; none where it is gone, or none is given. */
    function StampOf(name: string): Option<nat>
      reads this
    {
      StampIn(dir.files, unstamped, name)
    }

    method DropFile(name: string, artifact: nat)
      modifies this`dir, this`writes
      ensures writes == old(writes) + 1
      ensures dir == Written(old(dir), name, File(artifact, writes))
    {
      writes := writes + 1;
      dir := Written(dir, name, File(artifact, writes));
    }

    ghost predicate Lists(listed: seq<(string, Option<nat>)>)
      reads this
    {
      ListsOf(dir.files, unstamped, listed)
    }

    predicate Asked(op: Operation, name: string)
      reads this
    {
      (op, name) !in unasked
    }

    /** Every file lying here, each once, with its stamp. */
    method Listed() returns (r: Result<seq<(string, Option<nat>)>>)
      ensures (r.Ok? <==> Asked(List, "")) && (r.Err? ==> r.retryable)
      ensures r.Ok? ==> Lists(r.value)
    {
      if !Asked(List, "") { return Err(true); }
      var left := dir.files.Keys;
      var listed: seq<(string, Option<nat>)> := [];
      while left != {}
        invariant left <= dir.files.Keys
        invariant forall n | n in dir.files && n !in left :: exists i :: 0 <= i < |listed| && listed[i].0 == n
        invariant forall i | 0 <= i < |listed| :: listed[i].0 in dir.files.Keys - left && listed[i].1 == StampOf(listed[i].0)
        invariant forall i, j | 0 <= i < j < |listed| :: listed[i].0 != listed[j].0
        decreases |left|
      {
        var n :| n in left;
        ghost var was := listed;
        left, listed := left - {n}, listed + [(n, StampOf(n))];
        assert listed[|was|].0 == n && forall i | 0 <= i < |was| :: listed[i] == was[i];
      }
      r := Ok(listed);
    }

    /** Every turn lying here, each once. */
    method Turns() returns (r: Result<seq<string>>)
      ensures (r.Ok? <==> Asked(Operation.Turns, "")) && (r.Err? ==> r.retryable)
      ensures r.Ok? ==> forall t :: t in r.value <==> t in dir.turns
    {
      if !Asked(Operation.Turns, "") { return Err(true); }
      var left := dir.turns.Keys;
      var turns: seq<string> := [];
      while left != {}
        invariant left <= dir.turns.Keys
        invariant forall t :: t in turns <==> t in dir.turns.Keys - left
        decreases |left|
      {
        var t :| t in left;
        left, turns := left - {t}, turns + [t];
      }
      r := Ok(turns);
    }

    method Holder(turn: string) returns (r: Result<Option<string>>)
      ensures (r.Ok? <==> Asked(Operation.Holder, turn)) && (r.Err? ==> r.retryable)
      ensures r.Ok? ==> r.value == if turn in dir.turns then Some(dir.turns[turn]) else None
    {
      if !Asked(Operation.Holder, turn) { return Err(true); }
      r := Ok(if turn in dir.turns then Some(dir.turns[turn]) else None);
    }

    method Stamp(name: string) returns (r: Result<Option<nat>>)
      ensures r == if Asked(Operation.Stamp, name) then Ok(StampOf(name)) else Err(true)
      ensures r.Ok? ==> r.value == if name in dir.files && name !in unstamped then Some(dir.files[name].stamp) else None
    {
      r := if Asked(Operation.Stamp, name) then Ok(StampOf(name)) else Err(true);
    }

    /** Whether a writer holds `name` no longer, where the far end can tell. */
    method Finished(name: string) returns (r: Result<Option<bool>>)
      ensures (r.Ok? <==> Asked(Operation.Finished, name)) && (r.Err? ==> r.retryable)
      ensures r.Ok? ==> r.value == if name in finished then Some(finished[name]) else None
    {
      if !Asked(Operation.Finished, name) { return Err(true); }
      r := Ok(if name in finished then Some(finished[name]) else None);
    }

    method TakeTurn(turn: string, who: string) returns (r: Result<bool>)
      modifies this`dir
      ensures (r.Ok? <==> Asked(Operation.TakeTurn, turn)) && (r.Err? ==> r.retryable)
      ensures if r.Ok? then (dir, r.value) == TurnTaken(old(dir), turn, who) else dir == old(dir)
    {
      if !Asked(Operation.TakeTurn, turn) { return Err(true); }
      var (after, took) := TurnTaken(dir, turn, who);
      dir := after;
      r := Ok(took);
    }

    method DropTurn(turn: string) returns (r: Result<()>)
      modifies this`dir
      ensures (r.Ok? <==> Asked(Operation.DropTurn, turn)) && (r.Err? ==> r.retryable)
      ensures dir == if r.Ok? then TurnDropped(old(dir), turn) else old(dir)
    {
      if !Asked(Operation.DropTurn, turn) { return Err(true); }
      dir := TurnDropped(dir, turn);
      r := Ok(());
    }

    method Rename(from: string, to: string) returns (r: Result<bool>)
      modifies this`dir
      ensures (r.Ok? <==> Asked(Operation.Rename, from)) && (r.Err? ==> r.retryable)
      ensures r.Ok? && from !in refusing ==> (dir, r.value) == Renamed(old(dir), from, to)
      ensures r.Ok? && from in refusing ==> !r.value
      ensures r.Err? || from in refusing ==> dir == old(dir)
    {
      if !Asked(Operation.Rename, from) { return Err(true); }
      if from in refusing { return Ok(false); }
      var (after, moved) := Renamed(dir, from, to);
      dir := after;
      r := Ok(moved);
    }

    method Restore(claimed: string, dropped: string) returns (r: Result<Restored>)
      modifies this`dir
      ensures (r.Ok? <==> Asked(Operation.Restore, claimed)) && (r.Err? ==> r.retryable)
      ensures if r.Ok? then (dir, r.value) == Returned(old(dir), claimed, dropped) else dir == old(dir)
    {
      if !Asked(Operation.Restore, claimed) { return Err(true); }
      var (after, restored) := Returned(dir, claimed, dropped);
      dir := after;
      r := Ok(restored);
    }

    method Delete(name: string) returns (r: Result<()>)
      modifies this`dir
      ensures (r.Ok? <==> Asked(Operation.Delete, name)) && (r.Err? ==> r.retryable)
      ensures dir == if r.Ok? then Deleted(old(dir), name) else old(dir)
    {
      if !Asked(Operation.Delete, name) { return Err(true); }
      dir := Deleted(dir, name);
      r := Ok(());
    }
  }
}
