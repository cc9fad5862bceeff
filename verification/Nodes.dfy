/**
 The node as a name carries it: its location percent-encoded (section 2.1 of
 RFC 3986, upper-case digits), every byte outside letters, digits, `-` and `_`;
 and the counts and times a name carries, in decimal.
 */
module Nodes {

  import opened Wrappers
  import opened Names

  newtype Byte = b: int | 0 <= b < 256

  type Location = seq<Byte>

  predicate Kept(b: Byte) {
    || 'A' as int <= b as int <= 'Z' as int
    || 'a' as int <= b as int <= 'z' as int
    || '0' as int <= b as int <= '9' as int
    || b as int == '-' as int || b as int == '_' as int
  }

  function HexDigit(n: int): (c: char)
    requires 0 <= n < 16
    ensures c != '.' && c != '%'
  {
    if n < 10 then ('0' as int + n) as char else ('A' as int + n - 10) as char
  }

  function HexValue(c: char): int {
    if IsDigit(c) then c as int - '0' as int
    else if 'A' <= c <= 'F' then c as int - 'A' as int + 10
    else 0
  }

  function EncodedByte(b: Byte): string {
    if Kept(b) then [b as char]
    else ['%', HexDigit(b as int / 16), HexDigit(b as int % 16)]
  }

  /** The claimant the node at `location` is (`Claimant::of`). */
  function ClaimantOf(location: Location): string {
    if location == [] then "" else EncodedByte(location[0]) + ClaimantOf(location[1..])
  }

  function Octet(n: int): Byte { if 0 <= n < 256 then n as Byte else 0 }

  /** The location a claimant names. */
  function LocationOf(claimant: string): Location
    decreases |claimant|
  {
    if claimant == "" then []
    else if claimant[0] == '%' && |claimant| >= 3
    then [Octet(HexValue(claimant[1]) * 16 + HexValue(claimant[2]))] + LocationOf(claimant[3..])
    else [Octet(claimant[0] as int)] + LocationOf(claimant[1..])
  }

  /** A claimant names its node and no other, slashes and dots and all. */
  lemma {:induction false} ClaimantNamesNode(location: Location)
    ensures LocationOf(ClaimantOf(location)) == location
    ensures '.' !in ClaimantOf(location) && '/' !in ClaimantOf(location)
  {
    if location != [] {
      var b, rest := location[0], location[1..];
      ClaimantNamesNode(rest);
      assert ClaimantOf(location) == EncodedByte(b) + ClaimantOf(rest);
      assert ClaimantOf(location)[|EncodedByte(b)|..] == ClaimantOf(rest);
      assert location == [b] + rest;
    }
  }

  /** A claimant is written in letters, digits, `-`, `_` and `%`. */
  lemma {:induction false} ClaimantsAlphabet(location: Location)
    ensures forall c | c in ClaimantOf(location) ::
              'A' <= c <= 'Z' || 'a' <= c <= 'z' || '0' <= c <= '9' || c == '-' || c == '_' || c == '%'
  {
    if location != [] { ClaimantsAlphabet(location[1..]); }
  }

  /** A slash and a byte past the alphabet, as they are written. */
  lemma ClaimantLooks()
    ensures ClaimantOf([97, 47, 255]) == "a%2F%FF"
  {
    assert [97, 47, 255][1..] == [47, 255] && [47, 255][1..] == [255] && [255][1..] == [];
    assert ClaimantOf([255]) == "%FF" + ClaimantOf([]);
    assert ClaimantOf([47, 255]) == "%2F" + ClaimantOf([255]);
  }

  /** Two nodes are never one claimant, one's location a prefix of the other's or not. */
  lemma DistinctNodes(one: Location, other: Location)
    ensures ClaimantOf(one) == ClaimantOf(other) <==> one == other
  {
    ClaimantNamesNode(one);
    ClaimantNamesNode(other);
  }

  predicate Plain(s: string) {
    forall i :: 0 <= i < |s| ==> s[i] as int < 128 && Kept(s[i] as int as Byte)
  }

  function Ascii(s: string): Location
    requires Plain(s)
  {
    if s == "" then [] else [s[0] as int as Byte] + Ascii(s[1..])
  }

  /** Letters, digits, `-` and `_` stand for themselves. */
  lemma {:induction false} PlainEncodesItself(s: string)
    requires Plain(s)
    ensures ClaimantOf(Ascii(s)) == s
  {
    if s != "" {
      PlainEncodesItself(s[1..]);
      assert Ascii(s)[1..] == Ascii(s[1..]);
    }
  }

  /** The location whose claims do not read back: the mark's own word. */
  const UNREADABLE_NODE: Location := Ascii(UNREADABLE)

  /** One location is written as a word of such bytes: the word itself. */
  lemma NodeOfWord(location: Location, word: string)
    requires Plain(word)
    ensures ClaimantOf(location) == word <==> location == Ascii(word)
  {
    PlainEncodesItself(word);
    DistinctNodes(location, Ascii(word));
  }

  lemma ReadableNode(location: Location)
    ensures Readable(ClaimantOf(location)) <==> location != [] && location != UNREADABLE_NODE
  {
    ClaimantNamesNode(location);
    NodeOfWord(location, "");
    NodeOfWord(location, UNREADABLE);
  }

  /** Of any node's claim of any artifact, the claimed name reads back the
      artifact's name and the node, and exactly where the name is one, the
      location is one, and the location is not the mark's own word. */
  lemma ClaimReadsBackItsNode(dropped: string, location: Location, nanos: nat)
    ensures ClaimOf(ClaimName(dropped, ClaimantOf(location), Decimal(nanos)))
              == Some(Claim(dropped, ClaimantOf(location)))
       <==> dropped != "" && location != [] && location != UNREADABLE_NODE
  {
    ClaimantNamesNode(location);
    ReadableNode(location);
    DecimalReadsBack(nanos);
    ClaimReadsBack(dropped, ClaimantOf(location), Decimal(nanos));
  }

  // ------------------------------------------------------- counts and times

  function Decimal(n: nat): string {
    (if n < 10 then "" else Decimal(n / 10)) + [('0' as int + n % 10) as char]
  }

  function Number(s: string): nat {
    if s == "" || !IsDigit(s[|s| - 1]) then 0
    else Number(s[..|s| - 1]) * 10 + (s[|s| - 1] as int - '0' as int)
  }

  lemma {:induction false} DecimalReadsBack(n: nat)
    ensures Digits(Decimal(n)) && Number(Decimal(n)) == n
  {
    var front := if n < 10 then "" else Decimal(n / 10);
    if n >= 10 { DecimalReadsBack(n / 10); }
    assert Decimal(n)[..|Decimal(n)| - 1] == front;
  }

  /** A claimed name is written from one artifact's name, one claimant and one time. */
  lemma ClaimNameInjective(d: string, c: string, n: nat, d': string, c': string, n': nat)
    requires '.' !in c && '.' !in c'
    requires ClaimName(d, c, Decimal(n)) == ClaimName(d', c', Decimal(n'))
    ensures d == d' && c == c' && n == n'
  {
    DecimalReadsBack(n);
    DecimalReadsBack(n');
    ClaimJoined(d, c, Decimal(n));
    ClaimJoined(d', c', Decimal(n'));
    LastDot(d + "." + UNREADABLE + "." + c, Decimal(n), d' + "." + UNREADABLE + "." + c', Decimal(n'));
    LastDot(d + "." + UNREADABLE, c, d' + "." + UNREADABLE, c');
    LastDot(d, UNREADABLE, d', UNREADABLE);
  }

  /** A clock's reading, at or after `after`, whose claimed name is none of `taken`:
      the time a claim is made at. */
  function Reading(taken: set<string>, dropped: string, claimant: string, after: nat): (nanos: nat)
    requires '.' !in claimant
    ensures after <= nanos
    ensures ClaimName(dropped, claimant, Decimal(nanos)) !in taken
    decreases |taken|
  {
    var name := ClaimName(dropped, claimant, Decimal(after));
    if name !in taken then after
    else
      var later := Reading(taken - {name}, dropped, claimant, after + 1);
      assert ClaimName(dropped, claimant, Decimal(later)) != name by {
        if ClaimName(dropped, claimant, Decimal(later)) == name {
          ClaimNameInjective(dropped, claimant, later, dropped, claimant, after);
        }
      }
      later
  }
}
