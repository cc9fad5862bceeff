/**
 What a send delivers: a body of a length known before its first byte, opened
 from its start by every read and held to its length, however its source
 splits its reads.
 */
module Outgoing {

  import opened Nodes
  import opened Wrappers

  type Bytes = seq<Byte>

  /** The bytes a streamed body is written on in. */
  const PIECE: nat := 8192

  /** How one read of a source goes: up to so many bytes, or interrupted. */
  datatype Split = Give(most: nat) | Interrupt

  /** One opening of a body: its bytes, where it breaks if it does, and whether what
      broke may be tried again. */
  datatype Opened = Opened(content: Bytes, breaks: Option<(nat, bool)>, splits: seq<Split>)

  datatype Read = Got(bytes: Bytes) | Interrupted | Broke(retryable: bool)

  function Min(a: nat, b: nat): nat { if a < b then a else b }

  /** Where no more bytes come of a body held to `length`: broken, at its end, or full. */
  function Stop(o: Opened, length: nat): (r: nat)
    ensures r <= length && r <= |o.content|
  {
    var end := Min(length, |o.content|);
    if o.breaks.Some? then Min(end, o.breaks.value.0) else end
  }

  /** The body whole, or why not: its source broke, for now or for good, or it
      ended short or ran on, for good. */
  function Whole(o: Opened, length: nat): (r: Result<Bytes>)
    ensures r.Ok? ==> r.value == o.content && |o.content| == length == Stop(o, length)
  {
    if o.breaks.Some? && o.breaks.value.0 <= Min(length, |o.content|) then Err(o.breaks.value.1)
    else if |o.content| == length then Ok(o.content) else Err(false)
  }

  /** A source under way. */
  class Source {
    const body: Opened
    var at: nat
    var splits: seq<Split>

    constructor (body: Opened)
      ensures this.body == body && at == 0 && splits == body.splits
    {
      this.body, at, splits := body, 0, body.splits;
    }

    predicate Broken()
      reads this
    {
      body.breaks.Some? && body.breaks.value.0 <= at
    }

    /** At least one byte and at most `most`, wherever there is one; none at the end. */
    method Read(most: nat) returns (r: Read)
      requires at <= |body.content| && most > 0
      modifies this
      ensures at <= |body.content| && |splits| <= |old(splits)|
      ensures r.Interrupted? ==> at == old(at) && |splits| < |old(splits)|
      ensures r.Broke? ==> old(Broken()) && r.retryable == body.breaks.value.1 && at == old(at)
      ensures r.Got? ==> !old(Broken()) && |r.bytes| <= most && at == old(at) + |r.bytes| && r.bytes == body.content[old(at)..at]
      ensures r.Got? ==> (r.bytes == [] <==> old(at) == |body.content|)
      ensures r.Got? && r.bytes != [] && body.breaks.Some? ==> at <= body.breaks.value.0
    {
      var split := if splits == [] then Give(most) else splits[0];
      splits := if splits == [] then [] else splits[1..];
      if split.Interrupt? { return Interrupted; }
      if Broken() { return Broke(body.breaks.value.1); }
      var room := Min(most, |body.content| - at);
      if body.breaks.Some? { room := Min(room, body.breaks.value.0 - at); }
      var taken := Min(room, if split.most == 0 then 1 else split.most);
      r := Got(body.content[at..at + taken]);
      at := at + taken;
    }
  }

  /** A body read from its start, held to its length. */
  class Reader {
    const source: Source
    const length: nat

    var read: nat

    constructor (body: Opened, length: nat)
      ensures Valid() && fresh(source) && source.body == body && this.length == length && read == 0
    {
      source := new Source(body);
      this.length, read := length, 0;
    }

    ghost predicate Valid()
      reads this, source
    {
      read == source.at && read <= Stop(source.body, length)
    }

    /** At least one byte before the body stops; there it ends where it is whole,
        and says why where it is not. */
    method Next(most: nat) returns (r: Read)
      requires Valid()
      modifies this, source
      ensures (r.Broke? || Valid()) && |source.splits| <= |old(source.splits)|
      ensures most == 0 ==> r == Got([]) && read == old(read)
      ensures r.Interrupted? ==> read == old(read) && |source.splits| < |old(source.splits)|
      ensures r.Got? ==> |r.bytes| <= most && read == old(read) + |r.bytes| && r.bytes == source.body.content[old(read)..read]
      ensures r.Got? && most > 0 ==>
                (r.bytes == [] <==> old(read) == Stop(source.body, length)) && (r.bytes == [] ==> Whole(source.body, length).Ok?)
      ensures r.Broke? ==> old(read) == Stop(source.body, length) && Whole(source.body, length) == Err(r.retryable)
    {
      if most == 0 { return Got([]); }
      if read == length {
        var probed := source.Read(1);
        return if probed.Got? && probed.bytes != [] then Broke(false) else probed;
      }
      r := source.Read(Min(most, length - read));
      if r.Got? {
        if r.bytes == [] { return Broke(false); }
        read := read + |r.bytes|;
      }
    }
  }

  /** As much of `reader` as fills a piece of `size`: less only where the body ends whole. */
  method Fill(reader: Reader, size: nat) returns (r: Result<Bytes>)
    requires reader.Valid()
    modifies reader, reader.source
    ensures r.Ok? ==> reader.Valid() && reader.read == old(reader.read) + |r.value| && |r.value| <= size
                      && r.value == reader.source.body.content[old(reader.read)..reader.read]
    ensures r.Ok? && |r.value| < size ==>
              reader.read == Stop(reader.source.body, reader.length) && Whole(reader.source.body, reader.length).Ok?
    ensures r.Err? ==> Whole(reader.source.body, reader.length) == Err(r.retryable)
  {
    var piece: Bytes := [];
    ghost var content, start := reader.source.body.content, reader.read;
    while |piece| < size
      invariant reader.Valid() && |piece| <= size && reader.read == start + |piece| && piece == content[start..reader.read]
      decreases Stop(reader.source.body, reader.length) - reader.read, |reader.source.splits|
    {
      var taken := reader.Next(size - |piece|);
      match taken
      case Interrupted =>
      case Broke(retryable) => return Err(retryable);
      case Got(bytes) =>
        if bytes == [] { return Ok(piece); }
        piece := piece + bytes;
    }
    r := Ok(piece);
  }

  /** Whatever a body is written into, one piece after another, refusing what it refuses. */
  class Sink {
    const accepts: nat -> bool   // whether it takes the piece it is asked to take next
    const begun: nat -> nat      // how much of a piece it refuses it had taken by then
    const again: nat -> bool     // whether one it refuses may be tried again
    var asked: nat
    var received: seq<Bytes>

    constructor (accepts: nat -> bool, begun: nat -> nat, again: nat -> bool)
      ensures this.accepts == accepts && this.begun == begun && this.again == again && asked == 0 && received == []
    {
      this.accepts, this.begun, this.again, asked, received := accepts, begun, again, 0, [];
    }

    method Take(piece: Bytes) returns (r: Result<()>)
      modifies this
      ensures asked == old(asked) + 1 && r == if accepts(old(asked)) then Ok(()) else Err(again(old(asked)))
      ensures received == old(received) + [if r.Ok? then piece else piece[..Min(begun(old(asked)), |piece|)]]
    {
      var taken := if accepts(asked) then piece else piece[..Min(begun(asked), |piece|)];
      r := if accepts(asked) then Ok(()) else Err(again(asked));
      asked, received := asked + 1, received + [taken];
    }
  }

  /** `bytes` in pieces of `size`, the last one shorter; no bytes, one empty piece. */
  function Chunked(bytes: Bytes, size: nat): (r: seq<Bytes>)
    requires size > 0
    ensures r != []
    decreases |bytes|
  {
    if |bytes| <= size then [bytes] else [bytes[..size]] + Chunked(bytes[size..], size)
  }

  function Joined(pieces: seq<Bytes>): Bytes {
    if pieces == [] then [] else Joined(pieces[..|pieces| - 1]) + pieces[|pieces| - 1]
  }

  lemma {:induction false} JoinedFront(piece: Bytes, pieces: seq<Bytes>)
    ensures Joined([piece] + pieces) == piece + Joined(pieces)
  {
    if pieces == [] {
      assert [piece] + [] == [piece] && [piece][..0] == [];
    } else {
      var front := pieces[..|pieces| - 1];
      assert ([piece] + pieces)[..|pieces|] == [piece] + front;
      JoinedFront(piece, front);
    }
  }

  /** The pieces are the body again, each of its size but the last. */
  lemma {:induction false} ChunkedJoins(bytes: Bytes, size: nat)
    requires size > 0
    ensures Joined(Chunked(bytes, size)) == bytes
    ensures forall i | 0 <= i < |Chunked(bytes, size)| - 1 :: |Chunked(bytes, size)[i]| == size
    ensures var last := Chunked(bytes, size)[|Chunked(bytes, size)| - 1]; |last| <= size && (last == [] <==> bytes == [])
    decreases |bytes|
  {
    if |bytes| <= size {
      assert Joined([bytes]) == Joined([bytes][..0]) + bytes;
    } else {
      ChunkedJoins(bytes[size..], size);
      JoinedFront(bytes[..size], Chunked(bytes[size..], size));
    }
  }

  /** `pieces` are those of `bytes` as far as `handed`. */
  ghost predicate Handed(pieces: seq<Bytes>, bytes: Bytes, size: nat, handed: nat)
    requires size > 0
  {
    && handed <= |bytes| && (handed == 0 <==> pieces == [])
    && JoinsTo(pieces, bytes, handed) && LeavesOf(pieces, bytes, size, handed)
  }

  ghost predicate JoinsTo(pieces: seq<Bytes>, bytes: Bytes, handed: nat)
    requires handed <= |bytes|
  {
    Joined(pieces) == bytes[..handed]
  }

  ghost predicate LeavesOf(pieces: seq<Bytes>, bytes: Bytes, size: nat, handed: nat)
    requires size > 0 && handed <= |bytes|
  {
    Chunked(bytes, size) == pieces + ChunksLeft(bytes, size, handed)
  }

  function ChunksLeft(bytes: Bytes, size: nat, handed: nat): seq<Bytes>
    requires size > 0 && handed <= |bytes|
  {
    if 0 < handed == |bytes| then [] else Chunked(bytes[handed..], size)
  }

  lemma ChunksLeftNext(bytes: Bytes, size: nat, handed: nat)
    requires size > 0 && handed < |bytes|
    ensures var next := handed + Min(size, |bytes| - handed);
            ChunksLeft(bytes, size, handed) == [bytes[handed..next]] + ChunksLeft(bytes, size, next)
  {
    var rest, next := bytes[handed..], handed + Min(size, |bytes| - handed);
    if |rest| <= size {
      assert bytes[handed..next] == rest;
    } else {
      assert rest[..size] == bytes[handed..next] && rest[size..] == bytes[next..];
    }
  }

  lemma HandedNext(pieces: seq<Bytes>, bytes: Bytes, size: nat, handed: nat)
    requires size > 0 && Handed(pieces, bytes, size, handed) && handed < |bytes|
    ensures var next := handed + Min(size, |bytes| - handed); Handed(pieces + [bytes[handed..next]], bytes, size, next)
  {
    hide JoinsTo, LeavesOf;
    var next := handed + Min(size, |bytes| - handed);
    JoinsNext(pieces, bytes, handed, next);
    LeavesNext(pieces, bytes, size, handed);
  }

  lemma JoinsNext(pieces: seq<Bytes>, bytes: Bytes, handed: nat, next: nat)
    requires handed <= next <= |bytes| && JoinsTo(pieces, bytes, handed)
    ensures JoinsTo(pieces + [bytes[handed..next]], bytes, next)
  {
    JoinedBack(pieces, bytes[handed..next]);
    hide Joined;
    assert bytes[..handed] + bytes[handed..next] == bytes[..next];
  }

  lemma LeavesNext(pieces: seq<Bytes>, bytes: Bytes, size: nat, handed: nat)
    requires size > 0 && handed < |bytes| && LeavesOf(pieces, bytes, size, handed)
    ensures var next := handed + Min(size, |bytes| - handed); LeavesOf(pieces + [bytes[handed..next]], bytes, size, next)
  {
    hide Chunked, ChunksLeft;
    var next := handed + Min(size, |bytes| - handed);
    ChunksLeftNext(bytes, size, handed);
    AddedTo(pieces, bytes[handed..next], ChunksLeft(bytes, size, next));
  }

  lemma AddedTo(pieces: seq<Bytes>, piece: Bytes, rest: seq<Bytes>)
    ensures pieces + ([piece] + rest) == pieces + [piece] + rest
  {}

  lemma JoinedBack(pieces: seq<Bytes>, piece: Bytes)
    ensures Joined(pieces + [piece]) == Joined(pieces) + piece
  {
    assert (pieces + [piece])[..|pieces|] == pieces;
  }

  /** While some of them are left to hand on, fewer were handed on than there are. */
  lemma HandedFewer(pieces: seq<Bytes>, bytes: Bytes, size: nat, handed: nat)
    requires size > 0 && Handed(pieces, bytes, size, handed) && (handed < |bytes| || handed == 0)
    ensures |pieces| < |Chunked(bytes, size)|
  {}

  lemma HandedWhole(pieces: seq<Bytes>, bytes: Bytes, size: nat)
    requires size > 0 && Handed(pieces, bytes, size, |bytes|) && bytes != []
    ensures Chunked(bytes, size) == pieces
  {
    hide Chunked;
  }

  /** What was sent since is the beginning of `content`, and no other bytes. */
  ghost predicate SentOf(received: seq<Bytes>, before: seq<Bytes>, content: Bytes) {
    before <= received && Joined(received[|before|..]) <= content
  }

  lemma HandedSent(pieces: seq<Bytes>, bytes: Bytes, size: nat, handed: nat, before: seq<Bytes>, content: Bytes)
    requires size > 0 && Handed(pieces, bytes, size, handed) && bytes <= content
    ensures SentOf(before + pieces, before, content)
  {
    hide Chunked, ChunksLeft;
    assert (before + pieces)[|before|..] == pieces;
  }

  lemma EmptySent(before: seq<Bytes>, content: Bytes)
    ensures SentOf(before, before, content) && SentOf(before + [[]], before, content)
  {
    assert before[|before|..] == [] && (before + [[]])[|before|..] == [[]];
    assert Joined([[]]) == Joined([[]][..0]) + [];
  }

  datatype Body = Held(bytes: Bytes) | Streamed(opens: nat -> Result<Opened>)

  /** Why a send failed: its body did; it was the sender's no longer; or the sink
      refused a piece, for now or for good. */
  ghost predicate FailsSo(whole: Result<Bytes>, retryable: bool, still: bool, sink: Sink, asked: nat) {
    || whole == Err(retryable) || (!still && retryable)
    || exists i: nat :: asked <= i && !sink.accepts(i) && sink.again(i) == retryable
  }

  /** How a technology sends: the body written on as it is read, in pieces of a size
      of its own, or gathered whole first, by reads of whatever sizes. */
  datatype Way = Written | InPieces(size: nat) | Gathered(sizes: nat -> nat)

  /** One send's body. */
  class Outgoing {
    const length: nat
    const body: Body
    var openings: nat

    predicate Valid() { body.Held? ==> |body.bytes| == length }

    constructor Held(bytes: Bytes)
      ensures Valid() && body == Body.Held(bytes) && openings == 0
    {
      body, length, openings := Body.Held(bytes), |bytes|, 0;
    }

    constructor Streamed(length: nat, opens: nat -> Result<Opened>)
      ensures Valid() && this.length == length && body == Body.Streamed(opens) && openings == 0
    {
      this.length, body, openings := length, Body.Streamed(opens), 0;
    }

    /** What the `n`th reading of the body carries, from its start; or why not. */
    function Carried(n: nat): Result<Bytes> {
      match body
      case Held(bytes) => Ok(bytes)
      case Streamed(opens) => if opens(n).Err? then Err(opens(n).retryable) else Whole(opens(n).value, length)
    }

    /** What it reads however it ends. */
    function Content(n: nat): Bytes {
      match body
      case Held(bytes) => bytes
      case Streamed(opens) => if opens(n).Err? then [] else opens(n).value.content
    }

    method Open() returns (r: Result<Reader>)
      requires body.Streamed?
      modifies this
      ensures openings == old(openings) + 1
      ensures var given := body.opens(old(openings));
              && (r.Ok? <==> given.Ok?) && (r.Err? ==> r.retryable == given.retryable)
              && (r.Ok? ==> fresh(r.value) && fresh(r.value.source) && r.value.Valid() && r.value.read == 0
                            && r.value.source.body == given.value && r.value.length == length)
    {
      var given := body.opens(openings);
      openings := openings + 1;
      if given.Err? { return Err(given.retryable); }
      var reader := new Reader(given.value, length);
      r := Ok(reader);
    }

    /** The body handed on in pieces of `size`, while `still` says the send is the
        sender's as the first would go: whole, or refused, and never another body. */
    method Pieces(size: nat, sink: Sink, still: bool) returns (r: Result<nat>)
      requires Valid()
      modifies this, sink
      ensures var whole, most := Carried(old(openings)), if size == 0 then 1 else size;
              && (r.Ok? <==> whole.Ok? && still && Accepts(sink, old(sink.asked), |Chunked(whole.value, most)|))
              && (r.Ok? ==> r.value == length && sink.received == old(sink.received) + Chunked(whole.value, most))
              && (r.Err? ==> FailsSo(whole, r.retryable, still, sink, old(sink.asked)))
      ensures !still ==> sink.received == old(sink.received)
      ensures SentOf(sink.received, old(sink.received), Content(old(openings)))
      ensures openings == old(openings) + if body.Held? then 0 else 1
    {
      var most := if size == 0 then 1 else size;
      if body.Held? {
        if !still { return Err(true); }
        r := HandOnHeld(body.bytes, most, sink);
        return;
      }
      var reader := Open();
      if reader.Err? { return Err(reader.retryable); }
      r := HandOnRead(reader.value, most, sink, still);
    }

    /** The body written on as it is read; what is held, in one write. */
    method WriteTo(sink: Sink, still: bool) returns (r: Result<nat>)
      requires Valid()
      modifies this, sink
      ensures var whole := Carried(old(openings));
              && (r.Ok? <==> whole.Ok? && still && Accepts(sink, old(sink.asked), |WrittenAs(whole.value)|))
              && (r.Ok? ==> r.value == length && sink.received == old(sink.received) + WrittenAs(whole.value))
              && (r.Err? ==> FailsSo(whole, r.retryable, still, sink, old(sink.asked)))
      ensures !still ==> sink.received == old(sink.received)
      ensures SentOf(sink.received, old(sink.received), Content(old(openings)))
      ensures openings == old(openings) + if body.Held? then 0 else 1
    {
      if body.Held? {
        HeldSent(sink.received, body.bytes);
        if !still { return Err(true); }
        BegunSent(sink.received, sink.received, body.bytes, body.bytes);
        var given := sink.Take(body.bytes);
        return if given.Ok? then Ok(length) else Err(given.retryable);
      }
      r := Pieces(PIECE, sink, still);
    }

    function WrittenAs(bytes: Bytes): seq<Bytes> {
      if body.Held? then [bytes] else Chunked(bytes, PIECE)
    }

    /** The body whole in memory, read by reads of whatever sizes. */
    method Gather(sizes: nat -> nat, still: bool) returns (r: Result<Bytes>)
      requires Valid()
      modifies this
      ensures r == if Carried(old(openings)).Err? then Carried(old(openings))
                   else if still then Ok(Content(old(openings))) else Err(true)
      ensures r.Ok? ==> |r.value| == length
      ensures openings == old(openings) + if body.Held? then 0 else 1
    {
      if body.Held? { return if still then Ok(body.bytes) else Err(true); }
      var reader := Open();
      if reader.Err? { return Err(reader.retryable); }
      var whole := ReadToEnd(reader.value, sizes);
      if whole.Err? { return Err(whole.retryable); }
      r := if still then whole else Err(true);
    }

    /** What a body that is whole is received as, sent the one way or another. */
    function SentAs(way: Way, bytes: Bytes): seq<Bytes> {
      match way
      case Written => WrittenAs(bytes)
      case InPieces(size) => Chunked(bytes, if size == 0 then 1 else size)
      case Gathered(_) => [bytes]
    }

    /** Whether the `n`th reading of the body reaches `sink` whole. */
    ghost predicate Arrives(n: nat, way: Way, still: bool, sink: Sink, asked: nat) {
      Carried(n).Ok? && still && Accepts(sink, asked, |SentAs(way, Carried(n).value)|)
    }

    /** One attempt at the send, however its technology sends: the body whole, or
        refused, and never another body. */
    method Send(way: Way, sink: Sink, still: bool) returns (r: Result<()>)
      requires Valid()
      modifies this, sink
      ensures r.Ok? <==> Arrives(old(openings), way, still, sink, old(sink.asked))
      ensures r.Ok? ==> sink.received == old(sink.received) + SentAs(way, Carried(old(openings)).value)
      ensures r.Err? ==> FailsSo(Carried(old(openings)), r.retryable, still, sink, old(sink.asked))
      ensures !still ==> sink.received == old(sink.received)
      ensures SentOf(sink.received, old(sink.received), Content(old(openings)))
      ensures openings == old(openings) + if body.Held? then 0 else 1
    {
      hide Chunked, SentOf;
      match way
      case Written =>
        var sent := WriteTo(sink, still);
        r := if sent.Ok? then Ok(()) else Err(sent.retryable);
      case InPieces(size) =>
        var sent := Pieces(size, sink, still);
        r := if sent.Ok? then Ok(()) else Err(sent.retryable);
      case Gathered(sizes) =>
        HeldSent(sink.received, Content(openings));
        var whole := Gather(sizes, still);
        if whole.Err? { return Err(whole.retryable); }
        BegunSent(sink.received, sink.received, whole.value, Content(old(openings)));
        r := sink.Take(whole.value);
    }
  }

  /** A beginning of a piece is a beginning of what the piece would have been one of. */
  lemma BegunSent(received: seq<Bytes>, before: seq<Bytes>, piece: Bytes, content: Bytes)
    requires before <= received && SentOf(received + [piece], before, content)
    ensures forall k | 0 <= k <= |piece| :: SentOf(received + [piece[..k]], before, content)
  {
    var since := received[|before|..];
    forall k | 0 <= k <= |piece| ensures SentOf(received + [piece[..k]], before, content) {
      assert (received + [piece])[|before|..] == since + [piece] && (received + [piece[..k]])[|before|..] == since + [piece[..k]];
      JoinedBack(since, piece);
      JoinedBack(since, piece[..k]);
      hide Joined;
      assert (Joined(since) + piece)[..|Joined(since)| + k] == Joined(since) + piece[..k];
    }
  }

  lemma HeldSent(before: seq<Bytes>, bytes: Bytes)
    ensures SentOf(before, before, bytes) && SentOf(before + [bytes], before, bytes)
  {
    EmptySent(before, bytes);
    assert (before + [bytes])[|before|..] == [bytes];
    assert Joined([bytes]) == Joined([bytes][..0]) + bytes;
  }

  /** All that is left of a body, an interrupted read tried again. */
  method ReadToEnd(reader: Reader, sizes: nat -> nat) returns (r: Result<Bytes>)
    requires reader.Valid() && reader.read == 0
    modifies reader, reader.source
    ensures r == Whole(reader.source.body, reader.length)
  {
    var whole: Bytes := [];
    ghost var body := reader.source.body;
    var asked := 0;
    while true
      invariant reader.Valid() && whole == body.content[..reader.read]
      decreases Stop(body, reader.length) - reader.read, |reader.source.splits|
    {
      var taken := reader.Next(sizes(asked) + 1);
      asked := asked + 1;
      match taken
      case Interrupted =>
      case Broke(retryable) => return Err(retryable);
      case Got(bytes) =>
        if bytes == [] {
          assert body.content[..|body.content|] == body.content;
          return Ok(whole);
        }
        whole := whole + bytes;
    }
  }

  /** Whatever became of an attempt, opened or not, broken, short, refused or let
      go, the next carries what its own reading of the body does, from its start. */
  method SendAgain(o: Outgoing, way: Way, first: Sink, still: bool, again: Way, second: Sink) returns (r: Result<()>)
    requires o.Valid() && first != second
    modifies o, first, second
    ensures var next := old(o.openings) + if o.body.Held? then 0 else 1;
            && (r.Ok? <==> o.Arrives(next, again, true, second, old(second.asked)))
            && (r.Ok? ==> second.received == old(second.received) + o.SentAs(again, o.Carried(next).value))
            && SentOf(second.received, old(second.received), o.Content(next))
    ensures SentOf(first.received, old(first.received), o.Content(old(o.openings)))
  {
    hide SentOf;
    var _ := o.Send(way, first, still);
    r := o.Send(again, second, true);
  }

  /** Whichever way it is sent, what is received is the body. */
  lemma SentJoins(o: Outgoing, way: Way, bytes: Bytes)
    ensures Joined(o.SentAs(way, bytes)) == bytes
  {
    ChunkedJoins(bytes, PIECE);
    match way
    case InPieces(size) => ChunkedJoins(bytes, if size == 0 then 1 else size);
    case _ => assert Joined([bytes]) == Joined([bytes][..0]) + bytes;
  }

  /** However many bytes a piece has, the pieces are the same body. */
  lemma PiecesAgree(bytes: Bytes, size: nat, other: nat)
    requires size > 0 && other > 0
    ensures Joined(Chunked(bytes, size)) == bytes == Joined(Chunked(bytes, other))
  {
    ChunkedJoins(bytes, size);
    ChunkedJoins(bytes, other);
  }

  /** The next `pieces` asked of `sink` are taken. */
  ghost predicate Accepts(sink: Sink, asked: nat, pieces: nat) {
    forall i | asked <= i < asked + pieces :: sink.accepts(i)
  }

  /** Taken so far, the next piece is taken too, or not all of more of them are. */
  lemma AcceptsOne(sink: Sink, asked: nat, pieces: nat)
    ensures Accepts(sink, asked, pieces) && sink.accepts(asked + pieces) ==> Accepts(sink, asked, pieces + 1)
    ensures !sink.accepts(asked + pieces) ==> forall most: nat | most > pieces :: !Accepts(sink, asked, most)
  {}

  /** A body held, in pieces of `size`. */
  method HandOnHeld(bytes: Bytes, size: nat, sink: Sink) returns (r: Result<nat>)
    requires size > 0
    modifies sink
    ensures r.Ok? ==> r.value == |bytes| && sink.received == old(sink.received) + Chunked(bytes, size)
    ensures r.Err? ==> FailsSo(Ok(bytes), r.retryable, true, sink, old(sink.asked))
    ensures r.Ok? <==> Accepts(sink, old(sink.asked), |Chunked(bytes, size)|)
    ensures SentOf(sink.received, old(sink.received), bytes)
  {
    hide Handed, Chunked, ChunksLeft, SentOf, Joined, Accepts;
    ghost var before, asked := sink.received, sink.asked;
    NoneYet(sink, asked, before, bytes, size);
    if bytes == [] {
      BegunSent(before, before, [], bytes);
      var taken := sink.Take([]);
      return if taken.Ok? then Ok(0) else Err(taken.retryable);
    }
    var handed := 0;
    ghost var pieces: seq<Bytes> := [];
    while handed < |bytes|
      invariant handed <= |bytes| && Handed(pieces, bytes, size, handed) && Accepts(sink, asked, |pieces|)
      invariant sink.received == before + pieces && sink.asked == asked + |pieces| && SentOf(sink.received, before, bytes)
      decreases |bytes| - handed
    {
      var taken;
      taken, pieces := HandHeldNext(bytes, size, sink, handed, pieces, before, asked);
      if taken.Err? { return Err(taken.retryable); }
      handed := handed + taken.value;
    }
    HandedWhole(pieces, bytes, size);
    r := Ok(|bytes|);
  }

  /** One piece of a body held handed on: how many bytes it had. */
  method HandHeldNext(bytes: Bytes, size: nat, sink: Sink, handed: nat, ghost pieces: seq<Bytes>,
                      ghost before: seq<Bytes>, ghost asked: nat) returns (r: Result<nat>, ghost pieces': seq<Bytes>)
    requires size > 0 && Handed(pieces, bytes, size, handed) && handed < |bytes| && Accepts(sink, asked, |pieces|)
    requires sink.received == before + pieces && sink.asked == asked + |pieces| && SentOf(sink.received, before, bytes)
    modifies sink
    ensures SentOf(sink.received, before, bytes)
    ensures r.Err? ==> FailsSo(Ok(bytes), r.retryable, true, sink, asked) && !Accepts(sink, asked, |Chunked(bytes, size)|)
    ensures r.Ok? ==>
              && 0 < r.value <= |bytes| - handed && Handed(pieces', bytes, size, handed + r.value)
              && sink.received == before + pieces' && sink.asked == asked + |pieces'| && Accepts(sink, asked, |pieces'|)
  {
    hide Handed, Chunked, ChunksLeft, SentOf, Joined, Accepts;
    var next := handed + Min(size, |bytes| - handed);
    PieceMore(pieces, bytes, size, handed, before, bytes);
    AcceptsOne(sink, asked, |pieces|);
    pieces' := pieces + [bytes[handed..next]];
    assert before + pieces' == sink.received + [bytes[handed..next]];
    BegunSent(sink.received, before, bytes[handed..next], bytes);
    var taken := sink.Take(bytes[handed..next]);
    if taken.Err? { return Err(taken.retryable), pieces'; }
    assert sink.received == before + pieces';
    r := Ok(next - handed);
  }

  lemma NoneYet(sink: Sink, asked: nat, before: seq<Bytes>, bytes: Bytes, size: nat)
    requires size > 0
    ensures Handed([], bytes, size, 0) && Accepts(sink, asked, 0) && before + [] == before
    ensures SentOf(before, before, bytes) && SentOf(before + [[]], before, bytes)
    ensures bytes == [] ==> Chunked(bytes, size) == [[]] && (Accepts(sink, asked, 1) <==> sink.accepts(asked))
  {
    EmptySent(before, bytes);
    HandedNone(bytes, size);
  }

  lemma HandedNone(bytes: Bytes, size: nat)
    requires size > 0
    ensures Handed([], bytes, size, 0) && (bytes == [] ==> Chunked(bytes, size) == [[]])
  {
    assert bytes[0..] == bytes;
  }

  /** A body as it is read, in pieces of `size`. */
  method HandOnRead(reader: Reader, size: nat, sink: Sink, still: bool) returns (r: Result<nat>)
    requires size > 0 && reader.Valid() && reader.read == 0
    modifies reader, reader.source, sink
    ensures var whole := Whole(reader.source.body, reader.length);
            && (r.Ok? <==> whole.Ok? && still && Accepts(sink, old(sink.asked), |Chunked(whole.value, size)|))
            && (r.Ok? ==> r.value == reader.length && sink.received == old(sink.received) + Chunked(whole.value, size))
            && (r.Err? ==> FailsSo(whole, r.retryable, still, sink, old(sink.asked)))
    ensures !still ==> sink.received == old(sink.received)
    ensures SentOf(sink.received, old(sink.received), reader.source.body.content)
  {
    hide Handed, Chunked, SentOf, Joined, Stop, Accepts;
    ghost var before, asked, body := sink.received, sink.asked, reader.source.body;
    ghost var bytes := body.content[..Stop(body, reader.length)];
    ghost var pieces: seq<Bytes> := [];
    var handed := 0;
    NoneYet(sink, asked, before, bytes, size);
    while true
      invariant reader.Valid() && reader.read == handed <= |bytes| && (handed > 0 ==> still)
      invariant Handed(pieces, bytes, size, handed) && sink.received == before + pieces && sink.asked == asked + |pieces|
      invariant Accepts(sink, asked, |pieces|)
      decreases |bytes| - handed
    {
      var taken;
      taken, pieces := HandOnNext(reader, size, sink, still, handed, pieces, before, asked);
      if taken.Err? { return Err(taken.retryable); }
      handed := handed + taken.value;
      if taken.value < size { return Ok(handed); }
    }
  }

  /** One piece read and handed on: how many bytes it had. */
  method HandOnNext(reader: Reader, size: nat, sink: Sink, still: bool, handed: nat, ghost pieces: seq<Bytes>,
                    ghost before: seq<Bytes>, ghost asked: nat) returns (r: Result<nat>, ghost pieces': seq<Bytes>)
    requires size > 0 && reader.Valid() && reader.read == handed && (handed > 0 ==> still)
    requires Handed(pieces, BytesOf(reader), size, handed) && sink.received == before + pieces && sink.asked == asked + |pieces|
    requires Accepts(sink, asked, |pieces|)
    modifies reader, reader.source, sink
    ensures r.Err? && WholeOf(reader).Ok? && still ==> !Accepts(sink, asked, |Chunked(WholeOf(reader).value, size)|)
    ensures r.Err? ==> FailsSo(WholeOf(reader), r.retryable, still, sink, asked)
    ensures r.Err? ==> (!still ==> sink.received == before) && SentOf(sink.received, before, reader.source.body.content)
    ensures r.Ok? ==> still && r.value <= size
    ensures r.Ok? && r.value < size ==>
              && WholeOf(reader).Ok? && handed + r.value == reader.length
              && Accepts(sink, asked, |Chunked(WholeOf(reader).value, size)|)
              && sink.received == before + Chunked(WholeOf(reader).value, size) && SentOf(sink.received, before, reader.source.body.content)
    ensures r.Ok? && r.value == size ==>
              && reader.Valid() && reader.read == handed + size <= |BytesOf(reader)|
              && Handed(pieces', BytesOf(reader), size, handed + size)
              && sink.received == before + pieces' && sink.asked == asked + |pieces'| && Accepts(sink, asked, |pieces'|)
  {
    hide Handed, Chunked, SentOf, Joined, Whole, Stop, Accepts;
    ghost var content, bytes, stop := reader.source.body.content, BytesOf(reader), Stop(reader.source.body, reader.length);
    OnTheWay(pieces, bytes, content, size, handed, before);
    WholeIs(reader.source.body, reader.length);
    AcceptsOne(sink, asked, |pieces|);
    pieces' := pieces;
    var taken := Fill(reader, size);
    if taken.Err? { return Err(taken.retryable), pieces; }
    if handed == 0 && !still { return Err(true), pieces; }
    assert |taken.value| == Min(size, stop - handed) && taken.value == bytes[handed..handed + |taken.value|];
    if |taken.value| > 0 || handed == 0 {
      assert before + (pieces + [taken.value]) == sink.received + [taken.value];
      BegunSent(sink.received, before, taken.value, content);
      var given := sink.Take(taken.value);
      if given.Err? { return Err(given.retryable), pieces; }
      pieces' := pieces + [taken.value];
    }
    r := Ok(|taken.value|);
  }

  lemma WholeIs(body: Opened, length: nat)
    ensures Whole(body, length).Ok? ==> body.content[..Stop(body, length)] == Whole(body, length).value && Stop(body, length) == length
  {}

  /** What handing on the next piece of a body comes to, as far as the body goes. */
  lemma OnTheWay(pieces: seq<Bytes>, bytes: Bytes, content: Bytes, size: nat, handed: nat, before: seq<Bytes>)
    requires size > 0 && Handed(pieces, bytes, size, handed) && bytes <= content
    ensures handed <= |bytes| && (handed == 0 ==> pieces == []) && SentOf(before + pieces, before, content)
    ensures var next := handed + Min(size, |bytes| - handed);
            var piece := bytes[handed..next];
            && SentOf(before + (pieces + [piece]), before, content)
            && (handed < |bytes| ==> Handed(pieces + [piece], bytes, size, next))
            && (handed < |bytes| || handed == 0 ==> |pieces| < |Chunked(bytes, size)|)
            && (next == |bytes| ==> Chunked(bytes, size) == if handed < |bytes| || handed == 0 then pieces + [piece] else pieces)
  {
    NoneHanded(pieces, bytes, size, handed);
    hide Handed, Chunked, Joined, SentOf;
    HandedSent(pieces, bytes, size, handed, before, content);
    if handed < |bytes| {
      PieceMore(pieces, bytes, size, handed, before, content);
    } else {
      PieceNone(pieces, bytes, size, handed, before, content);
    }
  }

  lemma PieceMore(pieces: seq<Bytes>, bytes: Bytes, size: nat, handed: nat, before: seq<Bytes>, content: Bytes)
    requires size > 0 && Handed(pieces, bytes, size, handed) && handed < |bytes| && bytes <= content
    ensures |pieces| < |Chunked(bytes, size)|
    ensures var next := handed + Min(size, |bytes| - handed);
            var with := pieces + [bytes[handed..next]];
            && Handed(with, bytes, size, next) && SentOf(before + with, before, content)
            && (next == |bytes| ==> Chunked(bytes, size) == with)
  {
    hide Handed, Chunked, Joined, SentOf;
    var next := handed + Min(size, |bytes| - handed);
    var with := pieces + [bytes[handed..next]];
    HandedNext(pieces, bytes, size, handed);
    HandedFewer(pieces, bytes, size, handed);
    HandedSent(with, bytes, size, next, before, content);
    if next == |bytes| { HandedWhole(with, bytes, size); }
  }

  lemma PieceNone(pieces: seq<Bytes>, bytes: Bytes, size: nat, handed: nat, before: seq<Bytes>, content: Bytes)
    requires size > 0 && Handed(pieces, bytes, size, handed) && handed == |bytes| && bytes <= content
    ensures SentOf(before + (pieces + [[]]), before, content)
    ensures handed == 0 ==> |pieces| < |Chunked(bytes, size)|
    ensures Chunked(bytes, size) == if handed == 0 then pieces + [[]] else pieces
  {
    JoinedBack(pieces, []);
    assert (before + (pieces + [[]]))[|before|..] == pieces + [[]];
    assert bytes[..handed] == bytes;
  }

  /** A reader's body as far as it goes, and whether it is whole. */
  ghost function BytesOf(reader: Reader): Bytes
    reads reader, reader.source
  {
    reader.source.body.content[..Stop(reader.source.body, reader.length)]
  }

  ghost function WholeOf(reader: Reader): Result<Bytes>
    reads reader, reader.source
  {
    Whole(reader.source.body, reader.length)
  }

  lemma NoneHanded(pieces: seq<Bytes>, bytes: Bytes, size: nat, handed: nat)
    requires size > 0 && Handed(pieces, bytes, size, handed)
    ensures handed <= |bytes| && (handed == 0 ==> pieces == [])
  {}
}
