/**
 Circular buffers as two of the drivers use them: a block of memory, a head where
 the producer stores next, and a tail where the consumer loads next.  One cell stays
 unused, so that head == tail means empty.
 */
module Ring {

  type byte = b: int | 0 <= b < 256

  // The stored elements, oldest first.
  function Contents<T>(buf: seq<T>, head: nat, tail: nat): seq<T>
    requires head < |buf| && tail < |buf|
  {
    if head >= tail then buf[tail..head] else buf[tail..] + buf[..head]
  }

  function Occupancy(size: nat, head: nat, tail: nat): (n: int)
    requires head < size && tail < size
    ensures 0 <= n < size
    ensures n == 0 <==> head == tail
  {
    if head >= tail then head - tail else head + size - tail
  }

  // Moving an index by at most one lap; an index that leaves the buffer re-enters at its start.
  function Advance(size: nat, index: nat, count: nat): (next: nat)
    requires index < size && index + count <= 2 * size - 1
    ensures next < size
  {
    if index + count >= size then index + count - size else index + count
  }

  // Storing data in consecutive cells.
  function Fill<T>(buf: seq<T>, at: nat, data: seq<T>): (filled: seq<T>)
    requires at + |data| <= |buf|
    ensures |filled| == |buf|
  {
    buf[..at] + data + buf[at + |data|..]
  }

  lemma ContentsLength<T>(buf: seq<T>, head: nat, tail: nat)
    requires head < |buf| && tail < |buf|
    ensures |Contents(buf, head, tail)| == Occupancy(|buf|, head, tail)
  {
  }

  // A producer that stays inside the free space leaves the stored elements alone.
  lemma FillKeepsContents<T>(buf: seq<T>, head: nat, tail: nat, data: seq<T>)
    requires head < |buf| && tail < |buf| && head + |data| <= |buf|
    requires Occupancy(|buf|, head, tail) + |data| <= |buf| - 1
    ensures Contents(Fill(buf, head, data), head, tail) == Contents(buf, head, tail)
  {
    var filled := Fill(buf, head, data);
    if head < tail {
      assert filled[tail..] == buf[tail..];
      assert filled[..head] == buf[..head];
    } else {
      assert filled[tail..head] == buf[tail..head];
    }
  }

  // Publishing freshly stored cells appends them.
  lemma AdvanceHeadAppends<T>(buf: seq<T>, head: nat, tail: nat, k: nat)
    requires head < |buf| && tail < |buf| && head + k <= |buf|
    requires Occupancy(|buf|, head, tail) + k <= |buf| - 1
    ensures Contents(buf, Advance(|buf|, head, k), tail) == Contents(buf, head, tail) + buf[head..head + k]
    ensures Occupancy(|buf|, Advance(|buf|, head, k), tail) == Occupancy(|buf|, head, tail) + k
  {
    var after := Contents(buf, Advance(|buf|, head, k), tail);
    if head < tail {
      assert buf[..head + k] == buf[..head] + buf[head..head + k];
    } else if head + k < |buf| {
      assert buf[tail..head + k] == buf[tail..head] + buf[head..head + k];
    } else {
      assert tail > 0 ==> after == buf[tail..];
      assert buf[tail..] == buf[tail..head] + buf[head..];
    }
  }

  // Consuming from the tail removes the oldest elements.
  lemma AdvanceTailRemoves<T>(buf: seq<T>, head: nat, tail: nat, k: nat)
    requires head < |buf| && tail < |buf| && tail + k <= |buf|
    requires k <= Occupancy(|buf|, head, tail)
    ensures Contents(buf, head, tail) == buf[tail..tail + k] + Contents(buf, head, Advance(|buf|, tail, k))
    ensures Occupancy(|buf|, head, Advance(|buf|, tail, k)) == Occupancy(|buf|, head, tail) - k
  {
    var after := Contents(buf, head, Advance(|buf|, tail, k));
    if head >= tail {
      assert buf[tail..head] == buf[tail..tail + k] + buf[tail + k..head];
    } else if tail + k < |buf| {
      assert buf[tail..] == buf[tail..tail + k] + buf[tail + k..];
    } else {
      assert after == buf[..head];
    }
  }

  lemma SmallRemainder(size: nat, x: nat)
    requires 0 < size && x <= 2 * size
    ensures x % size == if x < size then x else if x < 2 * size then x - size else 0
  {
    var q := x / size;
    assert x == q * size + x % size;
    if x < size {
      assert q == 0;
    } else if x < 2 * size {
      assert q == 1;
    } else {
      assert q == 2;
    }
  }

  // Going around is counting modulo the size.
  lemma AdvanceIsRemainder(size: nat, at: nat, k: nat)
    requires at < size && at + k < 2 * size
    ensures Advance(size, at, k) == (at + k) % size
  {
    SmallRemainder(size, at + k);
  }

  // The remainder that both drivers use to measure a ring.
  lemma RemainderIsFreeSpace(size: nat, head: nat, tail: nat)
    requires head < size && tail < size
    ensures (size + tail - head) % size
         == (if head == tail then 0 else size - Occupancy(size, head, tail))
  {
    SmallRemainder(size, size + tail - head);
  }
}
