/** What snull does to the headers of a frame: another subnet in both addresses, and a new checksum. */
module SnullHeader {
  import opened Ring
  import opened SnullLists

  const HEADERS: nat := 34     // an Ethernet and an IP header
  const IP: nat := 14          // where the IP header starts
  const CHECK: nat := 24       // its checksum
  const SUBNET0: nat := 28     // the third octet of the source address
  const SUBNET1: nat := 32     // and of the destination address

  // ---- the Internet checksum, RFC 1071 ----

  function Word(high: byte, low: byte): (word: nat)
    ensures word < 0x10000
  {
    0x100 * (high as int) + low as int
  }

  function Sum(s: seq<byte>): nat {
    if |s| < 2 then 0 else Word(s[0], s[1]) + Sum(s[2..])
  }

  // Carries are added back in.
  function Fold(n: nat): nat {
    if n < 0x10000 then n else Fold(n % 0x10000 + n / 0x10000)
  }

  lemma {:induction false} FoldIsRemainder(n: nat) returns (q: nat)
    ensures Fold(n) < 0x10000 && (Fold(n) == 0 <==> n == 0) && n == Fold(n) + 0xFFFF * q
  {
    if n < 0x10000 {
      q := 0;
    } else {
      var low, high := n % 0x10000, n / 0x10000;
      assert n == low + high + 0xFFFF * high;
      q := FoldIsRemainder(low + high);
      q := q + high;
    }
  }

  // What completes a sum so that it folds to all ones: the complement, and all ones instead of zero.
  lemma ComplementCompletes(n: nat, check: nat)
    requires n > 0 && check < 0x10000
    ensures Fold(n + check) == 0xFFFF <==> check == 0xFFFF - Fold(n) || (check == 0xFFFF && Fold(n) == 0xFFFF)
  {
    hide Fold;
    var p := FoldIsRemainder(n);
    var q := FoldIsRemainder(n + check);
    assert Fold(n) + check == Fold(n + check) + 0xFFFF * (q - p);
    assert 0 <= q - p <= 1;
  }

  // The sum is that of the words: nothing for zeros, and
  lemma {:induction false} SumOfZeros(s: seq<byte>)
    requires forall i :: 0 <= i < |s| ==> s[i] == 0
    ensures Sum(s) == 0
  {
    if |s| >= 2 {
      SumOfZeros(s[2..]);
    }
  }

  // storing a word, with its high octet first, where there was none adds it.
  lemma {:induction false} SumOfPatched(s: seq<byte>, i: nat, a: byte, b: byte)
    requires i % 2 == 0 && i + 1 < |s| && s[i] == s[i + 1] == 0
    ensures Sum(s[i := a][i + 1 := b]) == Sum(s) + Word(a, b) == Sum(s) + 256 * a as int + b as int
  {
    var t: seq<byte> := s[i := a][i + 1 := b];
    if i == 0 {
      assert t[2..] == s[2..];
    } else {
      SumOfPatched(s[2..], i - 2, a, b);
      assert t[2..] == s[2..][i - 2 := a][i - 1 := b];
    }
  }

  // ---- the frame ----

  // The length that the IP header says it has.
  function HeaderLength(buf: Frame): nat
    requires |buf| >= HEADERS
  {
    4 * (buf[IP] % 16)
  }

  // It covers the fixed part of the header and lies inside the frame.
  predicate Sensible(buf: Frame) {
    |buf| >= HEADERS && HEADERS <= IP + HeaderLength(buf) <= |buf|
  }

  function Header(buf: Frame): seq<byte>
    requires Sensible(buf)
  {
    buf[IP..IP + HeaderLength(buf)]
  }

  function CheckField(buf: Frame): (check: nat)
    requires |buf| >= HEADERS
    ensures check < 0x10000
  {
    Word(buf[CHECK], buf[CHECK + 1])
  }

  // As a receiver tests it.
  predicate ChecksOut(buf: Frame) {
    Sensible(buf) && Fold(Sum(Header(buf))) == 0xFFFF
  }

  function Flip(b: byte): byte {
    if b % 2 == 0 then b + 1 else b - 1
  }

  function OtherSubnets(buf: Frame): Frame
    requires |buf| >= HEADERS
  {
    buf[SUBNET0 := Flip(buf[SUBNET0])][SUBNET1 := Flip(buf[SUBNET1])]
  }

  function WithCheck(buf: Frame, check: int): Frame
    requires |buf| >= HEADERS
  {
    buf[CHECK := check / 0x100 % 0x100][CHECK + 1 := check % 0x100]
  }

  // The checksum that belongs to the rest of the header; junk is what summing up gives
  // for a header length that makes no sense.
  function Checksum(buf: Frame, junk: nat): int
    requires |buf| >= HEADERS
  {
    if Sensible(buf) then 0xFFFF - Fold(Sum(Header(WithCheck(buf, 0)))) else junk
  }

  // The start of snull_hw_tx.
  function Rewritten(buf: Frame, junk: nat): (after: Frame)
    requires |buf| >= HEADERS
    ensures |after| == |buf|
  {
    var moved := OtherSubnets(buf);
    WithCheck(moved, Checksum(moved, junk))
  }

  // The sum over a header is the sum over the rest and the checksum field.
  lemma SumSplits(buf: Frame)
    requires Sensible(buf)
    ensures Sum(Header(buf)) == Sum(Header(WithCheck(buf, 0))) + CheckField(buf) && Sum(Header(WithCheck(buf, 0))) > 0
  {
    var blank: seq<byte> := Header(WithCheck(buf, 0));
    SumOfPatched(blank, CHECK - IP, buf[CHECK], buf[CHECK + 1]);
    assert Header(buf) == blank[CHECK - IP := buf[CHECK]][CHECK - IP + 1 := buf[CHECK + 1]];
    assert Sum(blank) >= Word(blank[0], blank[1]);
  }

  lemma CheckStored(buf: Frame, check: nat)
    requires |buf| >= HEADERS && check < 0x10000
    ensures CheckField(WithCheck(buf, check)) == check
    ensures forall other :: WithCheck(WithCheck(buf, check), other) == WithCheck(buf, other)
  {
  }

  lemma FieldStored(buf: Frame)
    requires |buf| >= HEADERS
    ensures WithCheck(buf, CheckField(buf)) == buf
  {
  }

  // No header sums up to nothing, so its checksum is never all ones.
  lemma ChecksumRange(buf: Frame, junk: nat)
    requires Sensible(buf)
    ensures 0 <= Checksum(buf, junk) < 0xFFFF
  {
    SumSplits(buf);
    var q := FoldIsRemainder(Sum(Header(WithCheck(buf, 0))));
  }

  // A receiver accepts the header exactly if the field holds the checksum of the rest, or all ones
  // in place of zero.
  lemma AcceptedExactly(buf: Frame, junk: nat)
    requires Sensible(buf)
    ensures ChecksOut(buf) <==>
      CheckField(buf) == Checksum(buf, junk) || (CheckField(buf) == 0xFFFF && Checksum(buf, junk) == 0)
  {
    SumSplits(buf);
    var rest := Sum(Header(WithCheck(buf, 0)));
    ComplementCompletes(rest, CheckField(buf));
  }

  // An octet with its lowest bit, and no other, turned over.
  predicate OtherOctet(before: byte, after: byte) {
    after / 2 == before / 2 && after % 2 != before % 2
  }

  // The third octets of the source and the destination address, at 28 and 32, are of the other
  // subnet, and nothing else but the checksum, at 24 and 25, has changed.
  predicate Moved(before: Frame, after: Frame)
    requires |before| >= HEADERS
  {
    && |after| == |before| && OtherOctet(before[28], after[28]) && OtherOctet(before[32], after[32])
    && forall i :: 0 <= i < |before| && i !in {28, 32, 24, 25} ==> after[i] == before[i]
  }

  // The header has a length of 20 or more in its first octet, in words, and lies inside the frame; and its words,
  // which are not all zero, add up to nothing modulo 65535.
  predicate AddsUp(frame: Frame)
    requires |frame| >= HEADERS
  {
    var length := 4 * (frame[14] % 16);
    20 <= length && 14 + length <= |frame| ==>
      Sum(frame[14..14 + length]) > 0 && Sum(frame[14..14 + length]) % 65535 == 0
  }

  lemma AcceptedAddsUp(frame: Frame)
    requires |frame| >= HEADERS && (Sensible(frame) ==> ChecksOut(frame))
    ensures AddsUp(frame)
  {
    if Sensible(frame) {
      hide Fold, Sum;
      var q := FoldIsRemainder(Sum(Header(frame)));
      MultipleOfOnes(Sum(Header(frame)), q);
    }
  }

  lemma MultipleOfOnes(n: nat, q: nat)
    requires n == 0xFFFF + 0xFFFF * q
    ensures n > 0 && n % 65535 == 0
  {
    var m: nat := q + 1;
    assert n == 65535 * m;
  }

  lemma RewritingMoves(buf: Frame, junk: nat)
    requires |buf| >= HEADERS
    ensures Moved(buf, Rewritten(buf, junk)) && (Sensible(Rewritten(buf, junk)) <==> Sensible(buf))
  {
    hide Checksum;
  }

  // What goes out is accepted, whatever came in: both addresses are in the other subnet, and
  // nothing else but the checksum has changed.
  lemma RewrittenIsAccepted(buf: Frame, junk: nat)
    requires |buf| >= HEADERS
    ensures var after := Rewritten(buf, junk);
      (Sensible(buf) ==> ChecksOut(after)) && Moved(buf, after) && AddsUp(after)
  {
    RewritingMoves(buf, junk);
    if Sensible(buf) {
      hide Fold, Sum, Moved;
      var moved := OtherSubnets(buf);
      ChecksumRange(moved, junk);
      CheckStored(moved, Checksum(moved, junk));
      AcceptedExactly(Rewritten(buf, junk), junk);
    }
    AcceptedAddsUp(Rewritten(buf, junk));
  }

  // The checksum does not depend on what the field holds.
  lemma SameRest(a: Frame, b: Frame, junk: nat)
    requires |a| >= HEADERS && |b| >= HEADERS && WithCheck(a, 0) == WithCheck(b, 0)
    ensures Checksum(a, junk) == Checksum(b, junk)
  {
    assert WithCheck(a, 0)[IP] == a[IP] && WithCheck(b, 0)[IP] == b[IP];
  }

  lemma BackAgain(buf: Frame, junk: nat)
    requires Sensible(buf)
    ensures Rewritten(Rewritten(buf, junk), junk) == WithCheck(buf, Checksum(buf, junk))
  {
    hide Checksum;
    var moved := OtherSubnets(buf);
    var sum := Checksum(moved, junk);
    ChecksumRange(moved, junk);
    var again := OtherSubnets(WithCheck(moved, sum));
    assert again == WithCheck(buf, sum);
    CheckStored(buf, sum);
    SameRest(again, buf, junk);
  }

  // Sent to the other side and sent back, a frame is what it was exactly if its checksum was the one
  // that belongs to it; that is, if a receiver would have accepted it, and not for all ones.
  lemma ThereAndBack(buf: Frame, junk: nat)
    requires Sensible(buf)
    ensures Rewritten(Rewritten(buf, junk), junk) == buf <==> ChecksOut(buf) && CheckField(buf) != 0xFFFF
  {
    hide Rewritten, WithCheck, CheckField;
    BackAgain(buf, junk);
    ChecksumRange(buf, junk);
    CheckStored(buf, Checksum(buf, junk));
    FieldStored(buf);
    AcceptedExactly(buf, junk);
  }
}
