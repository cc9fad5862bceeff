/**
 What a Receive Location refused and left where it lies: each item by its
 name, with the stamp it had. A listing leaves out what still lies so.
 */
module RefusedItems {

  import opened Wrappers

  /** What the memory keeps of a listing: each refused item whose first listing
      under its name has the stamp it was refused with. */
  function Still<K(!new), S(==), T>(held: map<K, S>, listing: seq<T>, name: T -> K, stamp: T --> Option<S>): map<K, S>
    requires forall t | t in listing && name(t) in held :: stamp.requires(t)
  {
    if listing == [] then map[]
    else
      var n := name(listing[0]);
      var rest := Still(held - {n}, listing[1..], name, stamp);
      if n in held && stamp(listing[0]) == Some(held[n]) then rest[n := held[n]] else rest
  }

  /** What the listing hands on: the rest, in its order. */
  function Sifted<K(!new), S(==), T>(held: map<K, S>, listing: seq<T>, name: T -> K, stamp: T --> Option<S>): seq<T>
    requires forall t | t in listing && name(t) in held :: stamp.requires(t)
  {
    if listing == [] then []
    else
      var n := name(listing[0]);
      var rest := Sifted(held - {n}, listing[1..], name, stamp);
      if n in held && stamp(listing[0]) == Some(held[n]) then rest else [listing[0]] + rest
  }

  class Refused<K(==,!new), S(==)> {
    var held: map<K, S>

    constructor ()
      ensures held == map[]
    {
      held := map[];
    }

    method Remember(name: K, stamp: S)
      modifies this
      ensures held == old(held)[name := stamp]
    {
      held := held[name := stamp];
    }

    /** What a listing kept, put back beside what was refused meanwhile, which is the newer. */
    method Keep(still: map<K, S>)
      modifies this
      ensures held == still + old(held)
    {
      held := still + held;
    }

    /** The stamp is asked only of a refused name: of any other it need not be to be had. */
    method Sift<T>(listing: seq<T>, name: T -> K, stamp: T --> Option<S>) returns (kept: seq<T>)
      requires forall t | t in listing && name(t) in held :: stamp.requires(t)
      modifies this
      ensures kept == Sifted(old(held), listing, name, stamp)
      ensures held == Still(old(held), listing, name, stamp)
    {
      ghost var was := held;
      var left := held;
      held := map[];
      var still: map<K, S> := map[];
      kept := [];
      var i := 0;
      while i < |listing|
        invariant 0 <= i <= |listing|
        invariant held == map[]
        invariant forall t | t in listing && name(t) in left :: stamp.requires(t)
        invariant left.Keys !! still.Keys
        invariant Still(was, listing, name, stamp) == Still(left, listing[i..], name, stamp) + still
        invariant Sifted(was, listing, name, stamp) == kept + Sifted(left, listing[i..], name, stamp)
      {
        var item := listing[i];
        var n := name(item);
        assert listing[i..][0] == item && listing[i..][1..] == listing[i + 1..];
        StillWithin(left - {n}, listing[i + 1..], name, stamp);
        if n in left && stamp(item) == Some(left[n]) {
          still := still[n := left[n]];
        } else {
          kept := kept + [item];
        }
        left := left - {n};
        i := i + 1;
      }
      assert Still(left, listing[i..], name, stamp) == map[];
      Keep(still);
    }
  }

  lemma {:induction false} StillWithin<K(!new), S, T>(held: map<K, S>, listing: seq<T>, name: T -> K, stamp: T --> Option<S>)
    requires forall t | t in listing && name(t) in held :: stamp.requires(t)
    ensures forall n | n in Still(held, listing, name, stamp) :: n in held && Still(held, listing, name, stamp)[n] == held[n]
  {
    if listing != [] {
      StillWithin(held - {name(listing[0])}, listing[1..], name, stamp);
    }
  }

  // --------------------------------------------------- what a listing hands on

  /** An item as a listing finds it: its name, and its stamp where it can be read. */
  type Item<K, S> = (K, Option<S>)

  function NameOf<K, S>(item: Item<K, S>): K { item.0 }

  function StampOf<K, S>(item: Item<K, S>): Option<S> { item.1 }

  predicate Lies<K(!new), S(==)>(held: map<K, S>, item: Item<K, S>) {
    item.0 in held && item.1 == Some(held[item.0])
  }

  predicate Listed<K(==), S>(items: seq<Item<K, S>>, name: K) {
    exists j :: 0 <= j < |items| && items[j].0 == name
  }

  /** One more item at a listing's end is left out exactly where it lies as
      refused and none of its name was listed before it. */
  lemma {:induction false} SiftedAtEnd<K(!new), S>(held: map<K, S>, items: seq<Item<K, S>>, item: Item<K, S>)
    ensures Sifted(held, items + [item], NameOf, StampOf)
         == Sifted(held, items, NameOf, StampOf) + if Lies(held, item) && !Listed(items, item.0) then [] else [item]
  {
    if items == [] {
      assert items + [item] == [item];
      assert Sifted(held - {item.0}, [item][1..], NameOf, StampOf) == [];
    } else {
      assert (items + [item])[1..] == items[1..] + [item];
      SiftedAtEnd(held - {items[0].0}, items[1..], item);
      assert Listed(items, item.0) <==> items[0].0 == item.0 || Listed(items[1..], item.0) by {
        if Listed(items, item.0) {
          var j :| 0 <= j < |items| && items[j].0 == item.0;
          if j > 0 { assert items[1..][j - 1].0 == item.0; }
        }
      }
    }
  }

  /** What is handed on was listed, and each as often as it was. */
  lemma {:induction false} SiftedAmong<K(!new), S(!new)>(held: map<K, S>, items: seq<Item<K, S>>)
    ensures forall item | item in Sifted(held, items, NameOf, StampOf) :: item in items
    ensures Once(items) ==> Once(Sifted(held, items, NameOf, StampOf))
  {
    if items != [] {
      SiftedAmong(held - {items[0].0}, items[1..]);
      assert Once(items) ==> Once(items[1..]) && forall item | item in items[1..] :: item.0 != items[0].0;
    }
  }

  ghost predicate Once<K(!new), S(!new)>(items: seq<Item<K, S>>) {
    forall i, j | 0 <= i < j < |items| :: items[i].0 != items[j].0
  }

  /** Of a listing that names each item once, each is handed on or lies as refused
      and is remembered so still. */
  lemma {:induction false} SiftedOrStill<K(!new), S(!new)>(held: map<K, S>, items: seq<Item<K, S>>)
    requires Once(items)
    ensures forall item | item in items ::
              item in Sifted(held, items, NameOf, StampOf) || Lies(Still(held, items, NameOf, StampOf), item)
  {
    if items != [] {
      var n, rest := items[0].0, items[1..];
      SiftedOrStill(held - {n}, rest);
      assert forall item | item in rest :: item.0 != n;
      assert forall item | item in items :: item == items[0] || item in rest;
    }
  }

  lemma {:induction false} NothingRefused<K(!new), S>(items: seq<Item<K, S>>)
    ensures Sifted(map[], items, NameOf, StampOf) == items && Still(map[], items, NameOf, StampOf) == map[]
  {
    if items != [] {
      NothingRefused(items[1..]);
      var none: map<K, S> := map[];
      assert none - {items[0].0} == none;
    }
  }

  /** Nothing handed on lies as it was refused: exactly where every item that
      does is the first of its name. */
  lemma {:induction false} LeavesOutExactly<K(!new), S>(held: map<K, S>, items: seq<Item<K, S>>)
    ensures (forall item | item in Sifted(held, items, NameOf, StampOf) :: !Lies(held, item))
       <==> (forall i | 0 <= i < |items| && Lies(held, items[i]) :: !Listed(items[..i], items[i].0))
  {
    if items != [] {
      var last := |items| - 1;
      var front, item := items[..last], items[last];
      assert items == front + [item];
      LeavesOutExactly(held, front);
      SiftedAtEnd(held, front, item);
      assert forall i | 0 <= i < last :: front[..i] == items[..i] && front[i] == items[i];
    }
  }

  /** Of a listing that names each item once, nothing that lies as refused is handed on. */
  lemma OnceLeavesOut<K(!new), S(!new)>(held: map<K, S>, items: seq<Item<K, S>>)
    requires Once(items)
    ensures forall item | item in Sifted(held, items, NameOf, StampOf) :: !Lies(held, item)
  {
    forall i | 0 <= i < |items| ensures !Listed(items[..i], items[i].0) {
      forall j | 0 <= j < i ensures items[..i][j].0 != items[i].0 {}
    }
    LeavesOutExactly(held, items);
  }

  /** One that names an item twice hands it on though it lies as it was refused. */
  lemma TwiceListedIsHandedOn()
    ensures Sifted(map["one.xml" := 1], [("one.xml", Some(1)), ("one.xml", Some(1))], NameOf, StampOf) == [("one.xml", Some(1))]
  {
    var items := [("one.xml", Some(1)), ("one.xml", Some(1))];
    var none: map<string, int> := map[];
    assert map["one.xml" := 1] - {"one.xml"} == none;
    NothingRefused(items[1..]);
    assert items[1..] == [("one.xml", Some(1))];
  }

  // ------------------------------------------------- against a full history

  datatype Event<K, S> = Refusal(name: K, stamp: S) | Listing(items: seq<Item<K, S>>)

  /** The memory after a history, event by event. */
  function Memory<K(!new), S(==)>(history: seq<Event<K, S>>): map<K, S> {
    if history == [] then map[]
    else
      var before := Memory(history[..|history| - 1]);
      match history[|history| - 1]
      case Refusal(name, stamp) => before[name := stamp]
      case Listing(items) => Still(before, items, NameOf, StampOf)
  }

  /** The first item listed under `name` has the stamp `stamp`. */
  ghost predicate FirstAs<K(!new), S(!new)>(items: seq<Item<K, S>>, name: K, stamp: S) {
    exists k :: 0 <= k < |items| && items[k] == (name, Some(stamp)) && !Listed(items[..k], name)
  }

  /** The simple thing: refused so at `i`, not refused again since, and found so
      by every listing since. */
  ghost predicate HiddenSince<K(!new), S(!new)>(history: seq<Event<K, S>>, i: nat, name: K, stamp: S) {
    && i < |history| && history[i] == Refusal(name, stamp)
    && forall j | i < j < |history| ::
         match history[j]
         case Refusal(other, _) => other != name
         case Listing(items) => FirstAs(items, name, stamp)
  }

  ghost predicate Hidden<K(!new), S(!new)>(history: seq<Event<K, S>>, name: K, stamp: S) {
    exists i :: HiddenSince(history, i, name, stamp)
  }

  lemma {:induction false} StillExactly<K(!new), S(!new)>(held: map<K, S>, items: seq<Item<K, S>>, name: K)
    ensures name in Still(held, items, NameOf, StampOf) <==> name in held && FirstAs(items, name, held[name])
  {
    StillWithin(held, items, NameOf, StampOf);
    if items != [] {
      var n, rest := items[0].0, items[1..];
      StillExactly(held - {n}, rest, name);
      StillWithin(held - {n}, rest, NameOf, StampOf);
      if name in held {
        if n == name {
          FirstAsHere(items, held[name]);
        } else {
          FirstAsLater(items, name, held[name]);
        }
      }
    }
  }

  lemma FirstAsHere<K(!new), S(!new)>(items: seq<Item<K, S>>, stamp: S)
    requires items != []
    ensures FirstAs(items, items[0].0, stamp) <==> items[0].1 == Some(stamp)
  {
    if items[0].1 == Some(stamp) {
      assert items[0] == (items[0].0, Some(stamp)) && !Listed(items[..0], items[0].0);
    }
    forall k | 0 < k < |items| ensures Listed(items[..k], items[0].0) {
      assert items[..k][0].0 == items[0].0;
    }
  }

  lemma FirstAsLater<K(!new), S(!new)>(items: seq<Item<K, S>>, name: K, stamp: S)
    requires items != [] && items[0].0 != name
    ensures FirstAs(items, name, stamp) <==> FirstAs(items[1..], name, stamp)
  {
    forall k | 0 <= k < |items[1..]| ensures Listed(items[..k + 1], name) <==> Listed(items[1..][..k], name) {
      forall j | 0 <= j < k ensures items[1..][..k][j] == items[..k + 1][j + 1] {}
      if Listed(items[..k + 1], name) {
        var j :| 0 <= j < k + 1 && items[..k + 1][j].0 == name;
        assert items[1..][..k][j - 1].0 == name;
      }
    }
    if FirstAs(items, name, stamp) {
      var k :| 0 <= k < |items| && items[k] == (name, Some(stamp)) && !Listed(items[..k], name);
      assert items[1..][k - 1] == (name, Some(stamp)) && !Listed(items[1..][..k - 1], name);
    }
    if FirstAs(items[1..], name, stamp) {
      var k :| 0 <= k < |items[1..]| && items[1..][k] == (name, Some(stamp)) && !Listed(items[1..][..k], name);
      assert items[k + 1] == (name, Some(stamp)) && !Listed(items[..k + 1], name);
    }
  }

  /** The memory is the full history's: it holds a name's refusal exactly while
      every listing since found the item as it was refused. */
  lemma {:induction false} MemoryAgrees<K(!new), S(!new)>(history: seq<Event<K, S>>, name: K, stamp: S)
    ensures name in Memory(history) && Memory(history)[name] == stamp <==> Hidden(history, name, stamp)
  {
    if history != [] {
      var last := |history| - 1;
      var front := history[..last];
      MemoryAgrees(front, name, stamp);
      match history[last]
      case Refusal(other, s) =>
        RefusedLast(history, name, stamp);
      case Listing(items) =>
        StillExactly(Memory(front), items, name);
        StillWithin(Memory(front), items, NameOf, StampOf);
        ListedLast(history, name, stamp);
    }
  }

  lemma RefusedLast<K(!new), S(!new)>(history: seq<Event<K, S>>, name: K, stamp: S)
    requires history != [] && history[|history| - 1].Refusal?
    ensures Hidden(history, name, stamp) <==>
            if history[|history| - 1].name == name then history[|history| - 1].stamp == stamp
            else Hidden(history[..|history| - 1], name, stamp)
  {
    var n := |history| - 1;
    var front, last := history[..n], history[n];
    if last == Refusal(name, stamp) { assert HiddenSince(history, n, name, stamp); }
    forall i: nat | i < n && last.name != name
      ensures HiddenSince(history, i, name, stamp) <==> HiddenSince(front, i, name, stamp)
    {
      assert forall j | i <= j < n :: front[j] == history[j];
    }
  }

  lemma ListedLast<K(!new), S(!new)>(history: seq<Event<K, S>>, name: K, stamp: S)
    requires history != [] && history[|history| - 1].Listing?
    ensures Hidden(history, name, stamp) <==>
            FirstAs(history[|history| - 1].items, name, stamp) && Hidden(history[..|history| - 1], name, stamp)
  {
    var n := |history| - 1;
    var front, last := history[..n], history[n];
    forall i: nat | i < n
      ensures HiddenSince(history, i, name, stamp) <==> HiddenSince(front, i, name, stamp) && FirstAs(last.items, name, stamp)
    {
      assert forall j | i <= j < n :: front[j] == history[j];
    }
  }

  /** After a listing nothing is remembered but what it listed. */
  lemma BoundedByListing<K(!new), S(!new)>(history: seq<Event<K, S>>, items: seq<Item<K, S>>)
    ensures forall n | n in Memory(history + [Listing(items)]) :: Listed(items, n)
  {
    assert (history + [Listing(items)])[..|history|] == history;
    forall n | n in Memory(history + [Listing(items)]) ensures Listed(items, n) {
      StillExactly(Memory(history), items, n);
    }
  }

  /** What is refused while a listing asks is as if it were refused after it. */
  lemma {:induction false} MeanwhileIsAfter<K(!new), S>(still: map<K, S>, meanwhile: seq<(K, S)>)
    ensures still + Remembered(map[], meanwhile) == Remembered(still, meanwhile)
  {
    if meanwhile != [] {
      MeanwhileIsAfter(still, meanwhile[..|meanwhile| - 1]);
    }
  }

  function Remembered<K, S>(held: map<K, S>, refusals: seq<(K, S)>): map<K, S> {
    if refusals == [] then held
    else
      var last := refusals[|refusals| - 1];
      Remembered(held, refusals[..|refusals| - 1])[last.0 := last.1]
  }
}
