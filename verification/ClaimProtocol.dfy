/**
 Any number of nodes and outside producers at one location of the file family:
 a transition system whose steps are the far end's atomic operations, made by
 claims, verdicts, returns, sends, crashes and recoveries in any interleaving.

 Assumed of the far end and the clock: an operation is atomic; a claimed or a
 sent name is never spelled twice (its time is fresh); producers write only
 names that may arrive. An operation that could not be asked changes nothing.
 */
module ClaimProtocol {

  import opened Wrappers
  import opened Names
  import opened Nodes
  import opened Directory

  /** A claim under way: whose, of what, and whether its rename is made. */
  datatype Attempt = Attempt(node: string, dropped: string, renamed: bool)

  /** Who a successful rename made the owner, and of which artifact. */
  datatype Owner = Owner(node: string, artifact: nat)

  /** Where an artifact that lies nowhere went. */
  datatype Fate = Consumed(node: string) | Replaced | Removed

  datatype State = State(
    dir: Dir,
    minted: set<string>,             // every claimed and sent name ever spelled
    attempts: map<string, Attempt>,  // by the claimed name each would give
    owners: map<string, Owner>,      // by claimed name
    held: set<string>,               // claimed names waiting to go back
    sending: map<string, string>,    // the sends in flight, each with its target
    recovering: map<string, bool>,   // the nodes recovering, and whether in-flight sends are left out yet
    returning: set<string>,          // the claims their listings found
    removing: set<string>,           // the sent files their listings found
    produced: set<nat>,
    gone: map<nat, Fate>
  )

  const INIT := State(Dir(map[], map[]), {}, map[], map[], {}, map[], map[], {}, {}, {}, map[])

  datatype Step =
    | Produce(name: string, file: File)
    | TakeTurn(node: string, dropped: string, nanos: nat)
    | Rename(claimed: string)
    | EndClaim(claimed: string, turnLeft: bool, handed: bool)  // handed back: its cycle begins
    | Accept(claimed: string, deleted: bool)                   // the delete made, or refused
    | GiveBack(claimed: string, asked: bool)                   // refused, failed, or let go
    | Settle(claimed: string)
    | Crash(node: string)
    | RecoverList(node: string)
    | RecoverSift(node: string)
    | RecoverRemove(node: string, name: string)
    | RecoverTurn(node: string, turn: string)
    | RecoverReturn(node: string, claimed: string, asked: bool)
    | RecoverEnd(node: string)
    | SendBegin(node: string, target: string, count: nat, nanos: nat)
    | SendWrite(name: string, file: File)
    | SendPlace(name: string)
    | SendEnd(name: string, removed: bool)

  function Spelled(step: Step): string
    requires step.TakeTurn? || step.SendBegin?
  {
    match step
    case TakeTurn(node, dropped, nanos) => ClaimName(dropped, node, Decimal(nanos))
    case SendBegin(node, target, count, nanos) => SendingName(target, node, Decimal(count), Decimal(nanos))
  }

  predicate Enabled(s: State, step: Step) {
    match step
    case Produce(name, file) => MayArrive(name) && file.artifact !in s.produced
    case TakeTurn(node, dropped, _) =>
      && Readable(node) && dropped != "" && MayArrive(dropped)
      && Spelled(step) !in s.minted
    case Rename(claimed) => claimed in s.attempts && !s.attempts[claimed].renamed
    case EndClaim(claimed, turnLeft, handed) =>
      claimed in s.attempts && (handed ==> s.attempts[claimed].renamed && !turnLeft)
    case Accept(claimed, _) => claimed in s.owners && claimed !in s.attempts
    case GiveBack(claimed, _) => claimed in s.owners && claimed !in s.attempts
    case Settle(claimed) => claimed in s.held
    case Crash(_) => true
    case RecoverList(node) => Readable(node) && node !in s.recovering
    case RecoverSift(node) => node in s.recovering
    case RecoverRemove(node, name) =>
      node in s.recovering && s.recovering[node] && name in s.removing && SentBy(name, node)
    case RecoverTurn(node, turn) => node in s.recovering && turn in s.dir.turns && s.dir.turns[turn] == node
    case RecoverReturn(node, claimed, _) => node in s.recovering && claimed in s.returning && ClaimedBy(claimed, node)
    case RecoverEnd(node) => node in s.recovering
    case SendBegin(node, target, _, _) =>
      Readable(node) && target != "" && MayArrive(target) && Spelled(step) !in s.minted
    case SendWrite(name, file) =>
      name in s.sending && name !in s.dir.files && file.artifact !in s.produced
    case SendPlace(name) => name in s.sending && name in s.dir.files
    case SendEnd(name, _) => name in s.sending
  }

  /** What an artifact lying under `name` becomes as it is removed from there. */
  function Departed(s: State, name: string, fate: Fate): map<nat, Fate> {
    if name in s.dir.files then s.gone[s.dir.files[name].artifact := fate] else s.gone
  }

  function Without<V>(m: map<string, V>, name: string): map<string, V> { m - {name} }

  function Apply(s: State, step: Step): State
    requires Enabled(s, step)
  {
    match step
    case Produce(name, file) =>
      s.(dir := Written(s.dir, name, file), produced := s.produced + {file.artifact},
         gone := Departed(s, name, Replaced))
    case TakeTurn(node, dropped, _) =>
      var (dir, won) := TurnTaken(s.dir, TurnOf(dropped), node);
      if !won then s
      else s.(dir := dir, minted := s.minted + {Spelled(step)},
              attempts := s.attempts[Spelled(step) := Attempt(node, dropped, false)])
    case Rename(claimed) =>
      var a := s.attempts[claimed];
      var (dir, won) := Renamed(s.dir, a.dropped, claimed);
      if !won then s
      else s.(dir := dir, attempts := s.attempts[claimed := a.(renamed := true)],
              owners := s.owners[claimed := Owner(a.node, s.dir.files[a.dropped].artifact)])
    case EndClaim(claimed, turnLeft, handed) =>
      s.(dir := if turnLeft then s.dir else TurnDropped(s.dir, TurnOf(s.attempts[claimed].dropped)),
         attempts := Without(s.attempts, claimed),
         owners := if handed then s.owners else Without(s.owners, claimed))
    case Accept(claimed, deleted) =>
      var told := s.(owners := Without(s.owners, claimed));
      if !deleted then told
      else told.(dir := Deleted(s.dir, claimed), gone := Departed(s, claimed, Consumed(s.owners[claimed].node)))
    case GiveBack(claimed, asked) =>
      var told := s.(owners := Without(s.owners, claimed));
      if asked then Return(told, claimed) else told.(held := s.held + {claimed})
    case Settle(claimed) => Return(s.(held := s.held - {claimed}), claimed)
    case Crash(node) =>
      var ended := Unlisted(s, node);
      ended.(attempts := (map c | c in s.attempts && s.attempts[c].node != node :: s.attempts[c]),
             owners := (map c | c in s.owners && s.owners[c].node != node :: s.owners[c]),
             held := (set c | c in s.held && !ClaimedBy(c, node)),
             sending := (map n | n in s.sending && SenderOf(n) != Some(node) :: s.sending[n]))
    case RecoverList(node) =>
      s.(recovering := s.recovering[node := false],
         returning := s.returning + (set n | n in s.dir.files && ClaimedBy(n, node)),
         removing := s.removing + (set n | n in s.dir.files && SentBy(n, node)))
    case RecoverSift(node) =>
      s.(recovering := s.recovering[node := true],
         removing := (set n | n in s.removing && !(SentBy(n, node) && n in s.sending)))
    case RecoverRemove(node, name) =>
      s.(dir := Deleted(s.dir, name), gone := Departed(s, name, Removed))
    case RecoverTurn(node, turn) => s.(dir := TurnDropped(s.dir, turn))
    case RecoverReturn(node, claimed, asked) => if asked then Return(s, claimed) else s.(held := s.held + {claimed})
    case RecoverEnd(node) => Unlisted(s, node)
    case SendBegin(node, target, _, _) =>
      s.(minted := s.minted + {Spelled(step)}, sending := s.sending[Spelled(step) := target])
    case SendWrite(name, file) =>
      s.(dir := Written(s.dir, name, file), produced := s.produced + {file.artifact})
    case SendPlace(name) =>
      var target := s.sending[name];
      s.(dir := Renamed(s.dir, name, target).0, gone := Departed(s, target, Replaced))
    case SendEnd(name, removed) =>
      var ended := s.(sending := Without(s.sending, name));
      if removed then ended.(dir := Deleted(s.dir, name), gone := Departed(s, name, Removed)) else ended
  }

  /** The artifact claimed as `claimed` asked to go back; held where its name is taken. */
  function Return(s: State, claimed: string): State {
    var (dir, restored) := Returned(s.dir, claimed, DroppedName(claimed));
    s.(dir := dir, held := if restored == Kept then s.held + {claimed} else s.held)
  }

  /** What the node's recovery listed let go. */
  function Unlisted(s: State, node: string): State {
    s.(recovering := s.recovering - {node},
       returning := (set c | c in s.returning && !ClaimedBy(c, node)),
       removing := (set n | n in s.removing && !SentBy(n, node)))
  }
}
