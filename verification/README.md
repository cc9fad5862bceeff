# xmip-core-transport, modelled and proved

`xmip-core-transport` is the boundary between Xmip and its far ends. This project models the parts of it
that many nodes, threads and producers share, as the code of `.src/` makes them, and proves what they keep:

- **The file family's claims** (`.src/claim/`): the names a claim, a turn and an unfinished send are written
  with and read back from (`Names`, `Nodes`); any number of nodes and producers at one location, in any
  interleaving of claims, verdicts, returns, sends, crashes and recoveries (`ClaimProtocol`,
  `ClaimConservation`, `ClaimOwners`, `ClaimWinner`, `ClaimRuns`, `ClaimStranded`); one Receive Location's own code over a
  location whose every operation may fail (`ClaimSite`, `Takes`, `Claims`, `Draining`); and what joins the two,
  that code's calls as steps of the protocol (`ClaimCalls`, `ClaimReceives`).
- **What a Location refused** (`.src/refused.rs`): `RefusedItems`.
- **A place in a log, and arrivals settled together** (`.src/contiguous.rs`, `.src/together.rs`): `Contiguous`,
  `Together`, over the verdicts of `Acknowledgements`.
- **Kept sessions** (`.src/pool.rs`): one caller's code over any far end in `Pool`, any number of clones and
  threads in `PoolRuns`.
- **Kept connections and owed answers** (`.src/serving.rs`, `.src/answer.rs`): `Serving`, and every
  interleaving of a receive with the threads that answer in `ServingRuns`.
- **A send's body** (`.src/outgoing.rs`): `Outgoing`; and carried over kept sessions, again where one failed:
  `Sends`.

What the code changes in place is a class here (`Claiming`, `Memory`, `Refused`, `Place`, `Tally`, `Pool`,
`Connections`, `Busy`, `Answer`, `Reader`, `Outgoing`, `Wires`), each method proved against functions of the old state;
what is about several parties at once is a transition system, proved over every run.

## What the proofs found

- **A recovery that lists what its node owns makes a second owner.** `Claiming::take` goes on to claim where
  its recovery failed, and the next receive's recovery returns every claim of the node, the live ones too; so
  does a recovery of another `Claiming` of the node over the same location, or `Claiming::recover` called once
  more. `ClaimRuns.TwoOwnersExist` is such a run, and `ClaimRuns.ListingAnOwnerMakesTwo` says that wherever it
  happens with the artifact's name and turn free a second owner follows; `ClaimRuns.OneWinner` holds of every
  run in which a recovery lists only where its node owns nothing, however its claims and recoveries are
  otherwise mixed; `ClaimRuns.OwnerLostExactly` says which steps, and no others, lose an owner its artifact, and
  `ClaimRuns.OwnersLieExactly` that a run has none of them exactly where every owner has its artifact throughout.
  Two owners never both have it, in any run (`ClaimRuns.OneHasIt`), and no two acceptances take one artifact
  away (`ClaimRuns.TakenOnce`).
  `README.md` line 11 states one winner without that condition.
- **A recovery drops the turns of its node's own claims under way**, so two claims of one name can be under way
  at once: exactly where a recovery and a claim of one node meet (`ClaimWinner.TurnsKeptExactly`,
  `ClaimRuns.RecoveringAClaimMakesTwo`, `ClaimRuns.OneTurn`). `ClaimRuns.TwoClaimsExist` is such a run. The rename still has one winner.
- **An artifact can be left claimed in nobody's cycle**, and lies so until its own node's recovery next lists
  the location (`ClaimStranded.StrandedUntilFound`): one renamed whose turn then cannot be dropped, exactly
  where that operation alone cannot be asked (`Claims.Claiming.Claim`), and one accepted whose delete is refused
  (`ClaimStranded.RefusedDeleteStrands`, `ClaimStranded.UnhandedStrands`). `ClaimStranded.StrandedExist` runs
  into both. `.src/claim/claiming.rs` says that a return never waits for a restart.
- **One node's names do not read back**: the node whose location is the word `xmip-claim`, and none other
  (`Nodes.ClaimReadsBackItsNode`); its unfinished sends read as another's claims (`Names.UnreadableMeets`).
- **A listing that names an item twice** hands a refused item on: `RefusedItems.TwiceListedIsHandedOn` is one,
  `RefusedItems.LeavesOutExactly` the exact condition.
- **Nothing settled together is never settled**: of no arrivals `together` tells the far end nothing
  (`Together.SettlesOnce`).
- `README.md` line 9 moves a log's place past a refused record; line 19 has it read again. The code follows
  line 9, and so does `Contiguous`.

## What is assumed

An operation of a far end is atomic: `ClaimSite`'s `restore` is one step here, where a file system makes a link
and then removes one. A claimed or a sent name is never spelled twice: a clock's reading is fresh
(`Nodes.Reading` finds one). Producers write only names that may arrive. A `Claiming` makes one receive
of its Location at a time, and a node one recovery of a location at a time; how often it recovers, when, and
whether it claims meanwhile is not assumed.

## Model

| member | source | states |
|---|---|---|
| Names.ClaimReadsBack | README.md:11 | a claimed name reads back its artifact's name and claimant exactly where there is a name and the claimant is not empty, has no dot and is not the mark's own word |
| Names.ClaimOfExactly | README.md:11 | a claim is read off exactly the names a readable claimant writes a claim as, and off no other string |
| Names.SenderReadsBack | README.md:11 | an unfinished send's name reads back its sender for every target, count and time |
| Names.SenderOfExactly | README.md:11 | a sender is read off exactly the names a send writes |
| Names.BothSpellings | README.md:11 | the one way a string can be spelled both as a claim and as a send |
| Names.FamiliesApart | README.md:11 | no name is both a claim and a readable node's unfinished send |
| Names.UnreadableMeets | README.md:11 | where they do meet: the send of a node located at the mark's own word reads as another's claim |
| Names.MayArriveExactly | README.md:11 | a name may arrive exactly where it is no name's turn, and no readable claimant's claim and no send writes it |
| Names.NamesLook | README.md:11 | a turn, a claim and an unfinished send as they are written, of one artifact |
| Names.ReadBefore | README.md:11 | the scan for the dot before a trailing run, as a loop, finds what the specification says |
| Nodes.ClaimantNamesNode | README.md:11 | percent-encoding a location (section 2.1 of RFC 3986) loses nothing and leaves no dot and no slash |
| Nodes.ClaimantsAlphabet | README.md:11 | a claimant is written in letters, digits, `-`, `_` and `%` alone |
| Nodes.ClaimantLooks | README.md:11 | a slash and a byte past the alphabet as they are written, in upper-case digits |
| Nodes.DistinctNodes | README.md:11 | two locations are one claimant only where they are one location, a prefix of the other or not |
| Nodes.ClaimReadsBackItsNode | README.md:11 | for every artifact, node and time the claimed name reads back both, exactly where the name and the location are not empty and the location is not the word `xmip-claim` |
| Nodes.ClaimNameInjective | README.md:11 | equal claimed names are of one artifact's name, one claimant and one time |
| Nodes.Reading | README.md:11 | a clock reading at or after another whose claimed name nothing lies under |
| ClaimConservation.StepConserved | README.md:9-11 | every step of every node, producer, crash and recovery keeps each artifact under one name or gone for one reason, each reserved name spelled by a claim or a send, and no send in flight among those to remove |
| ClaimRuns.EveryArtifactOnce | README.md:9-11 | in every state of every run each artifact written lies under exactly one name, or is gone |
| ClaimRuns.OnlyItsOwnEnds | README.md:9-11 | an artifact leaves only by an acceptance, a write to its name, or the removal of its send: never by a refusal, a failure, a claim, a crash or a return |
| ClaimRuns.GoneForGood | README.md:9-11 | what is gone stays gone, for the one reason, to the end of the run |
| ClaimRuns.TakenOnce | README.md:9-11 | in every run an acceptance takes away exactly what its owner's rename won where that lies under its name and the delete is made, and otherwise nothing; no two take away one artifact |
| ClaimRuns.ConsumedOnce | README.md:9-11 | where recoveries list only what their node does not own, every acceptance whose delete is made consumes what its owner's rename won, and no two the same |
| ClaimWinner.StepKeepsWinner | README.md:11 | every step keeps the winner's invariant while recoveries list only where their node owns nothing: an owner's artifact lies under its name, ownership is by a rename alone, and what waits to go back is nobody's |
| ClaimWinner.TurnsKeptExactly | README.md:11 | a step keeps each claim under way on a turn of its own exactly where no recovery and claim of one node meet in it, or its turn was not won |
| ClaimOwners.StepKeepsLiesAsWon | README.md:11 | every step of every party keeps that nothing lies under an owner's name but what its rename won |
| ClaimRuns.OneHasIt | README.md:11 | in every run, whatever recoveries list, of an artifact's owners at most one has it lying under its name, and then it lies under no other |
| ClaimRuns.OneWinner | README.md:11 | in every run whose recoveries list only where their node owns nothing, no artifact has two owners at all, and each owner has it |
| ClaimRuns.RenameOwns | README.md:11 | in every run a claim under way owns its artifact exactly where its rename succeeded: a failed rename never yields ownership |
| ClaimRuns.OneTurn | README.md:11 | in every run in which no node claims while it recovers, or recovers while it claims, two claims of one name are never under way at once |
| ClaimRuns.RecoveringAClaimMakesTwo | README.md:11 | where a node's claim is under way as it recovers, its turn dropped and another's claim are two claims of one name under way |
| ClaimRuns.TwoClaimsExist | README.md:11 | a run from the empty location that ends so |
| ClaimRuns.OwnerLostExactly | README.md:11 | of all steps exactly a return of what is still owned, to a free name, takes an artifact from its owner |
| ClaimRuns.OwnersLieExactly | README.md:11 | every owner has its artifact throughout a run exactly where no step of it is such a return |
| ClaimRuns.ListingAnOwnerMakesTwo | README.md:11 | where a recovery lists what its node owns, and the artifact's name and turn are free, its return and any other node's claim make two owners of it |
| ClaimRuns.TwoOwnersExist | README.md:11 | a run from the empty location that ends with two owners of one artifact |
| ClaimRuns.StartingOwnerExists | README.md:11 | a run in which a node recovers, claims, and owns what it won, each guard met |
| ClaimRuns.Uncontended | README.md:11 | a claim nobody contends is won and owns the artifact it moved |
| ClaimRuns.TurnTakenExactly | README.md:11 | a turn is taken exactly where nothing of its name lies, a file or a turn, and its holder recorded |
| ClaimRuns.CrashForgets | README.md:11 | a crash touches no file, and its node then claims, owns, holds, sends and recovers nothing; what others hold stays |
| ClaimRuns.EndedRecoveryForgets | README.md:11 | a recovery that ended, completed or not, returns and removes nothing it listed any more |
| ClaimCalls.UnbrokenClaim | README.md:11 | a claim whose turn is free is the protocol's steps of one, nothing between them, whatever else cannot be asked: the file moved, the turn left and the owner made exactly as `Claims.Claiming.Claim` says |
| ClaimCalls.GiveBackIsStep | README.md:11 | a claimed artifact given back is the protocol's one step, location and held alike |
| ClaimCalls.SettleIsSteps | README.md:11 | what `Claims.Claiming.Settle` makes of a location is a step for each artifact that goes back, in an order that lets each go |
| ClaimCalls.AcceptIsSteps | README.md:9-11 | what `Claims.Claiming.Told` makes of an acceptance is the step of its delete, and then those of settling what is held |
| ClaimCalls.RecoverIsSteps | README.md:11 | whatever location `Claims.Claiming.Recover` leaves, the protocol's own recovery steps lead to it from any conserved state, with the same artifacts held |
| ClaimCalls.RecoverFailsIsSteps | README.md:11 | and where it failed midway, those steps as far as it came |
| ClaimReceives.TakeFoundIsSteps | README.md:15 | what a listing's claims make of a location is the protocol's steps of each that was won, and of the one that failed as far as it came; each won has its owner |
| ClaimReceives.TakeIsSteps | README.md:15 | what a whole receive makes of a location is steps of its node: of a recovery, completed or not, of what it settles, and of its claims |
| ClaimStranded.StrandedUntilFound | README.md:11 | what is claimed in nobody's claim, cycle, hold or recovery stays so over every step but the listing of its own node's recovery, which alone ends it |
| ClaimStranded.RefusedDeleteStrands | README.md:9-11 | an acceptance whose delete is refused strands what it was about exactly where that lies there and no hold or recovery has it |
| ClaimStranded.UnhandedStrands | README.md:11 | a claim that ends without handing over strands what it renamed, exactly so |
| ClaimStranded.LiesUntilItsNodeRecovers | README.md:11 | in every run the stranded artifact lies claimed until its own node's recovery lists the location |
| ClaimStranded.OnlyTheseStrand | README.md:11 | in every run nothing strands an artifact but a refused delete, a claim not handed over, and its own node's crash or unfinished recovery |
| ClaimStranded.AlwaysStrands | README.md:11 | in every run whose recoveries list only where their node owns nothing, a refused delete always strands and a claim not handed over does exactly where its rename was made |
| ClaimStranded.StrandedExist | README.md:11 | runs from the empty location that end so, one for each of the two |
| ClaimRuns.NeverOverANewer | README.md:11 | in every run a return changes no file but its own and goes only to a free name; where a newer file lies there it stays claimed and is held |
| ClaimRuns.AlwaysReturnable | README.md:11 | wherever a run stands, a crash and a start return any artifact its node left claimed, held or not, or hold it again |
| ClaimRuns.LeftSendRemovable | tests/measured/claim.rs:15-19 | a send given up is removed by its own node's next start, and nothing else is |
| ClaimRuns.EndedSendRemovable | README.md:11 | a send that ended with its file left is in flight no more: its node's next recovery removes it without a crash between |
| ClaimRuns.SendsInFlightSpared | README.md:11 | in every run a recovery removes only its own node's sends and never one still in flight |
| ClaimSite.Memory.Listed | tests/measured/claim.rs:23-34 | a listing has every file once, with its stamp |
| Claims.Claiming.Claim | README.md:11 | it fails exactly where an operation of its own cannot be asked, and is won exactly where its turn is free, the stamp as found and nothing refuses; of every outcome, failures too, what moved and whether its turn stays is determined, and every failure may be tried again |
| Claims.Claiming.GiveBack | README.md:11 | back under its dropped name, never over what lies there; held where it cannot go back; remembered where it was refused and is back |
| Claims.Claiming.Told | README.md:9-11 | accepted deletes and settles what waited; refused gives back and is remembered; failed and no verdict give back and are not; a refused delete changes nothing |
| Claims.Claiming.Settle | README.md:11 | each held artifact that can be asked for goes back exactly where its name is free, over nothing, whatever the order they are tried in; the others stay; those refused that went back are remembered with the stamp they lie with, and every other name as it was |
| Claims.Claiming.RemoveUnfinished | README.md:11 | the loop succeeds exactly where each of this node's sends not in flight can be deleted, and then removes exactly these |
| Claims.Claiming.DropTurns | README.md:11 | the loop succeeds exactly where the turns can be listed, their holders asked and its own dropped, and then drops exactly its node's |
| Claims.Claiming.Left | tests/measured/claim.rs:46-49 | a node starting finds its own claims and removes its turns and unfinished sends, exactly where the location can be listed and each of these removals asked; where it fails, some of these are gone and nothing else is touched |
| Claims.Claiming.Recover | tests/measured/claim.rs:46-49 | it succeeds exactly where that can be done, and is then one change of the location: turns and unfinished sends left out, claims back where their names are free, the others held and none of them as refused; nothing is remembered as refused; a failure leaves out some turns and sends and returns nothing |
| Claims.NothingLeft | README.md:11 | after a recovery no turn of the node lies there, no send but one in flight, no claim but one whose name is taken |
| Claims.CameBackOrStayed | README.md:11 | a file lying there after the returns lay there before or came back to a name that may arrive |
| Claims.RecoverTwice | README.md:11 | recovering twice is recovering once, whatever cannot be asked for meanwhile |
| Claims.Claiming.TakeFound | README.md:11-15 | of a listing at most `most` are claimed, each once and first come: only what the far end says is finished or, where it cannot tell, the listing before found with the same stamp, and is to be won as the receive began; and all of these while there is room and no claim fails; one fails only where an operation of its own cannot be asked, and then lies claimed exactly where it was renamed and leaves its turn exactly where it took it and could not drop it; the rest stay, remembered as found |
| Takes.FirstListingTakesNothing | README.md:11 | the stability check: of a far end that cannot tell whether a writer is done, a first listing takes nothing and remembers all it found |
| Takes.SameChance | README.md:11 | what one claim of a receive wins is no chance of another's taken: it is to be won, to fail and to be renamed as when the receive began |
| Claims.Claiming.Take | README.md:11-15 | a whole receive: recovery where it is to do, done exactly where it can be, held artifacts settled and what was refused of them remembered, the listing without what lies refused, and its claims in the listing's order, only of what is finished; an error only where the listing failed, or a claim did and nothing was claimed |
| Draining.Receive | doc/adding-a-transport.md:33-40 | whatever turns lie there, whatever was refused, held or cannot be had, and whatever else cannot be asked, while the location can be listed and the claims of what lies there asked for, one receive and its acceptances take away exactly what they hand over, each once, and leave the rest; one that brings nothing after one that brought nothing leaves nothing to be had |
| Draining.Drain | doc/adding-a-transport.md:33-40 | such receives with room for at least one, each accepted, come to two in a row that bring nothing; by then every drop to be had and not remembered as refused was handed over, each artifact once under a name it lay for, and the rest is left |
| RefusedItems.Refused.Sift | README.md:19 | the loop asks the stamp only of refused names, hands on the rest in order, and keeps what still lies so beside what was refused meanwhile |
| RefusedItems.SiftedAtEnd | README.md:19 | an item is left out exactly where it lies as refused and none of its name was listed before it |
| RefusedItems.LeavesOutExactly | README.md:19 | nothing that lies as refused is handed on exactly where each such item is the first of its name |
| RefusedItems.TwiceListedIsHandedOn | README.md:19 | a listing of one item twice hands it on though it lies as it was refused |
| RefusedItems.StillExactly | README.md:19 | a refusal outlives a listing exactly where the first item of its name has its stamp |
| RefusedItems.MemoryAgrees | README.md:19 | over any history the memory holds a refusal exactly while every listing since it found the item so |
| RefusedItems.BoundedByListing | README.md:19 | after a listing nothing is remembered but what it listed |
| RefusedItems.MeanwhileIsAfter | README.md:19 | what is refused while a listing asks is as if refused after it |
| Contiguous.Place.Advance | README.md:19 | the compare-and-move: the place moves only from where it stands |
| Contiguous.Place.SettleInOrder | README.md:9-19 | a read's records settled in order leave the place exactly after the longest run none of which failed, sparse positions too |
| Contiguous.StandsAtReached | README.md:19 | over any run the place stands at a record of its log |
| Contiguous.NeverBackNeverSkipped | README.md:9-19 | stale, repeated and out-of-order verdicts never move the place back, nor past a record not accepted or refused |
| Contiguous.GoesExactly | README.md:9-19 | it goes exactly as far as a subsequence of the run lets record after record by, no further and no less |
| Contiguous.AnyOrder | README.md:9-19 | a read's verdicts in any order never pass its first failed record, and reach it exactly where those before it are told in order |
| Together.Tally.Counted | README.md:19 | an acknowledgement counts once, the last settling with them all, its result the settling's |
| Together.Tally.Acknowledge | README.md:19 | a failed `each` still counts its arrival and is what the caller hears |
| Together.SettlesOnce | README.md:19 | the far end is told once, after the last verdict or drop in any order, with exactly what each was given, and never of none |
| Together.ConsumesAccepted | README.md:9-19 | consumed is precisely what was accepted once every verdict is in |
| Together.OrderMakesNoDifference | README.md:19 | two orders of the same verdicts settle the same |
| Pool.Pool.Take | README.md:25 | the last usable session of the key, those after it dropped, every other kept |
| Pool.Pool.LetGoUnusable | README.md:25 | the sweep keeps exactly the usable sessions, under every key, and no key without one |
| Pool.UsableInOrder | README.md:25 | and keeps them in their order |
| Pool.Pool.Exchange | doc/adding-a-transport.md:133-140 | success took one attempt, or two where a kept session failed first, which is kept no more; which sessions were tried, what was opened, the failure, and for every key which sessions are kept after, in which order, are determined |
| Pool.Pool.OnKept | README.md:19 | an answer goes on a kept session or nowhere; nothing is opened, one it fails on is let go, and every other session stays kept as it was |
| Pool.ExchangeMany | tests/measured/pool.rs:16-25 | one caller's exchanges over a far end that stays up open one session, or none where one was kept |
| Pool.Delivered | README.md:15 | a subscription hands over at most `most`, what arrived before a failure included, and asks for no more |
| PoolRuns.EveryRunIsSound | README.md:25 | in every interleaving of clones each session is kept once, in one exchange, or dropped, and used and kept only under the key it was opened for |
| PoolRuns.OpenedAreAccountedFor | tests/measured/pool.rs:16-29 | sessions opened are as many as kept, in use and dropped together |
| PoolRuns.OnceOrTwice | doc/adding-a-transport.md:133-140 | an exchange that succeeded went once or twice, and a session that failed it is never kept or used again in the run |
| PoolRuns.SweptClean | README.md:25 | right after an opening's sweep no session hung up on is kept under any key |
| PoolRuns.UsableTakenAndKept | README.md:25 | the session kept last is taken first, and one is taken, and put back, only where its far end has not hung up on it |
| PoolRuns.OnlyKeptOpensNone | README.md:19 | in every run an exchange only for a kept session, a delivery's answer, opens none |
| Serving.Connections.Accept | README.md:23 | where accepting failed nothing changes; otherwise the front one is let go where too many are kept, and the new one kept where it is a connection; the one that spoke is still the one pointed at, or was let go |
| Serving.Connections.Served | README.md:23 | a turn that was the last, found the connection closed or failed takes exactly it out; one that took an exchange puts it last; the rest stay in order |
| Serving.Connections.Ready | README.md:23 | the first connection not busy with an exchange read already, or none is |
| Serving.Answer.Write | README.md:19 | written or not, the answer is given, its connection free, and the wait told once |
| Serving.Answer.Drop | README.md:19 | let go unanswered shuts and frees the connection; after an answer it does nothing |
| ServingRuns.StepSound | README.md:23 | every step of receive, answers and peers, each flag read and set on its own, keeps the whole invariant |
| ServingRuns.NoLostWakeUp | tests/measured/serving.rs:13-45 | while a receive waits, a free connection with something to take ends the wait, at once or by the word of the answer that freed it; where it is the only one, that receive's own steps then come to its turn there |
| ServingRuns.EndedIsGone | README.md:23 | in every run a connection whose turn was its last, found it closed or failed is never kept, waited on or turned to again |
| ServingRuns.KeptExactly | README.md:23 | which connections a step keeps: a new one accepted, the first let go for it where too many are, one let go whose turn ended it, and otherwise as before |
| ServingRuns.OneExchangeAReceive | tests/measured/serving.rs:13-45 | in every run a receive hands over one exchange or one failure: between two of these another begins |
| ServingRuns.ReceiveEndsExactly | README.md:23 | what ends a receive: an exchange or a failure to hand over, its time, a new peer that could not be accepted, and nothing else |
| ServingRuns.PeersOnce | README.md:23 | in every run a peer that connected is kept as a connection once at most, and waits in the queue no more then |
| ServingRuns.LetGoIsNoAnswer | README.md:19 | in every run an answer let go is never given, and its connection has ended |
| ServingRuns.BusyYieldsNothing | README.md:19 | in every run a turn is taken only on a connection on which no answer is owed |
| ServingRuns.AnsweredOnceInOrder | README.md:19-23 | every exchange taken is answered once, owed, or let go with its connection ended; answers leave in request order; at most `MOST_KEPT` connections are kept |
| ServingRuns.QuietLongestGoes | README.md:23 | the connection let go to make room is the one kept or served longest ago |
| Outgoing.Reader.Next | README.md:13 | a body is held to its length: it ends there whole, or says it ended short, ran on or broke |
| Outgoing.Fill | README.md:13 | a piece is filled over short and interrupted reads, less only at a whole body's end |
| Outgoing.ChunkedJoins | README.md:13 | the pieces are the body again, each of its size but the last, and an empty body is one empty piece |
| Outgoing.PiecesAgree | README.md:13 | pieces of any two sizes are the same body |
| Outgoing.Outgoing.Pieces | doc/adding-a-transport.md:42-58 | for every split of the source's reads and every size the whole body goes in its pieces or is refused; what went before a refusal, part of the piece refused with it, is its beginning, and nothing goes where the send is no longer the sender's |
| Outgoing.Outgoing.WriteTo | doc/adding-a-transport.md:42-58 | the same body written on as it is read |
| Outgoing.Outgoing.Gather | doc/adding-a-transport.md:42-58 | the same body in memory, exactly where it is whole and still to be sent, whatever the sizes of the reads |
| Outgoing.Outgoing.Send | doc/adding-a-transport.md:42-58 | one attempt, whichever way its technology sends: it succeeds exactly where its reading of the body is whole, the send still the sender's and every piece taken |
| Outgoing.SentJoins | README.md:13 | whichever way it is sent, what is received is the body |
| Outgoing.SendAgain | doc/adding-a-transport.md:53-56 | after any attempt, opened or not, broken, short, refused or let go, the next carries the whole body from its start exactly where its own reading is whole and taken |
| Sends.Send | doc/adding-a-transport.md:53-56 | a send as an exchange of the pool's: on a kept session, and where it fails there, however it failed, the body whole from an opening of its own on a new one, exactly where that reading is whole and taken and answered; the first got only a beginning, and no other session anything; which sessions the pool keeps after is determined |

## Left out

- Sockets, TLS, `poll`, named pipes and the file system: readiness, hanging up and a far end's operations are the model's inputs.
- Time: timeouts are steps that may come at any moment, and no bound on latency is stated.
- The Windows turn that is the dropped file held open: a turn is the name created only where nothing of that name lies.
- `claim::Sited`, `ResourceClaim`, `NoNativeClaim` and the `Held` reasons in words: what is held, and whether it was refused, is modelled; why, in words, is not.
- Cells shared by several threads inside one Location's `Claiming`: its receives and verdicts are one at a time in `Claims`, and interleaved with every other node's, step by step, in `ClaimProtocol`.
- `listed::listed`, SQL's `accept`, `body.rs`, `stuffed.rs` and `sender.rs`: a listing's bound is proved for the file family and for a kept subscription only.
- `Serving::next` as one method: its loop is the phases a receive goes through in `ServingRuns`; what it does to the list of connections is `Serving.Connections`.
- Settings (`Configured`), error wording, `Login`, `Guard`, the loopback rig and test support.
- The native key a protocol carries to deduplicate by: a send here is at least once and at most twice.
- Nodes.Reading: the clock's reading is one whose claimed name is free, where the code trusts nanoseconds since the epoch to be so.
- Outgoing.Outgoing.Gather: allocation of the whole body is taken to succeed, and lengths are unbounded integers.
- Pool.Pool.Exchange: a session is a number and `usable` a look at the far end's hang-ups; what an exchange says is the far end's answer.
