/** A caller that repeats write, and then read, until everything has been moved. */
module ScullClient {
  import opened Ring
  import opened Spine
  import opened Scull
  import opened ScullIoctl
  import opened ScullRuns

  // The store after data has been taken in full at an offset.
  function Stored(p: Plain, off: nat, data: seq<byte>): Plain {
    Plain(Patch(p.bytes, off, data), if data != [] && p.size < off + |data| then off + |data| else p.size)
  }

  // A write that takes n of the bytes still to go moves the store n bytes on.
  lemma StoredMore(p: Plain, off: nat, buf: seq<byte>, done: nat, next: nat,
                   mid: Plain, op: Op, out: Outcome, after: Plain)
    requires done < |buf| && mid == Stored(p, off, buf[..done])
    requires op == Write(buf[done..], off + done, true) && Fits(mid, op, out) && after == After(mid, op, out)
    requires next == if out.w.Wrote? then done + out.w.n else done
    ensures next <= |buf| && after == Stored(p, off, buf[..next])
    ensures out.w.Wrote? ==> next > done
  {
    if out.w.Wrote? {
      assert out == WriteGave(Wrote(out.w.n));
      StoredAgain(p, off, buf, done, out.w.n, mid, op);
    }
  }

  lemma StoredAgain(p: Plain, off: nat, buf: seq<byte>, done: nat, n: nat, mid: Plain, op: Op)
    requires 0 < n && done + n <= |buf| && mid == Stored(p, off, buf[..done])
    requires op == Write(buf[done..], off + done, true)
    ensures After(mid, op, WriteGave(Wrote(n))) == Stored(p, off, buf[..done + n])
  {
    hide Patch;
    var piece := buf[done..done + n];
    assert op.buf[..n] == piece;
    assert Patch(mid.bytes, off + done, piece) == Patch(p.bytes, off, buf[..done + n]) by {
      PatchPatches(p.bytes, off, buf, done, n);
    }
  }

  lemma PatchPatches(bytes: map<nat, byte>, off: nat, buf: seq<byte>, done: nat, n: nat)
    requires done + n <= |buf|
    ensures Patch(Patch(bytes, off, buf[..done]), off + done, buf[done..done + n]) == Patch(bytes, off, buf[..done + n])
  {
  }

  lemma StoredNothing(p: Plain, off: nat, buf: seq<byte>)
    ensures Stored(p, off, buf[..0]) == p
  {
    assert Patch(p.bytes, off, buf[..0]) == p.bytes;
  }

  // One turn of the writing loop.
  method WriteSome(dev: ScullDev, params: Params, buf: seq<byte>, off: nat, done: nat, ghost start: Plain)
      returns (next: nat)
    requires Ready(dev, params) && done < |buf| && View(dev) == Stored(start, off, buf[..done])
    modifies dev, dev.where.Keys, dev.mem, params
    ensures Ready(dev, params) && done <= next <= |buf| && View(dev) == Stored(start, off, buf[..next])
    ensures fresh(dev.where.Keys - old(dev.where.Keys))
    ensures dev.mem.live == (old(dev.mem.live) - old(dev.where.Keys)) + dev.where.Keys
    ensures dev.mem.refused == old(dev.mem.refused) + if next == done then 1 else 0
  {
    var op := Write(buf[done..], off + done, true);
    var out := Perform(dev, params, op);
    next := if out.w.Wrote? then done + out.w.n else done;
    StoredMore(start, off, buf, done, next, old(View(dev)), op, out, View(dev));
  }

  // All of buf is taken, for every geometry, unless an allocation is refused; then a prefix is.
  method WriteAll(dev: ScullDev, params: Params, buf: seq<byte>, off: nat) returns (done: nat, ok: bool)
    requires Ready(dev, params)
    modifies dev, dev.where.Keys, dev.mem, params
    ensures Ready(dev, params) && done <= |buf| && (ok <==> done == |buf|)
    ensures View(dev) == Stored(old(View(dev)), off, buf[..done])
    ensures fresh(dev.where.Keys - old(dev.where.Keys))
    ensures dev.mem.live == (old(dev.mem.live) - old(dev.where.Keys)) + dev.where.Keys
    ensures dev.mem.refused == old(dev.mem.refused) + if ok then 0 else 1
  {
    done, ok := 0, true;
    ghost var start := View(dev);
    StoredNothing(start, off, buf);
    while done < |buf| && ok
      invariant Ready(dev, params) && done <= |buf| && View(dev) == Stored(start, off, buf[..done])
      invariant !ok ==> done < |buf|
      invariant dev.mem.refused == old(dev.mem.refused) + if ok then 0 else 1
      invariant fresh(dev.where.Keys - old(dev.where.Keys))
      invariant dev.mem.live == (old(dev.mem.live) - old(dev.where.Keys)) + dev.where.Keys
      decreases |buf| - done, ok
    {
      var next := WriteSome(dev, params, buf, off, done, start);
      ok := next > done;
      done := next;
    }
  }

  // Every offset in the stretch has been written, with these bytes.
  ghost predicate Holds(p: Plain, off: nat, data: seq<byte>) {
    && (data != [] ==> off + |data| <= p.size)
    && forall o: nat {:trigger o in p.bytes} :: off <= o < off + |data| ==> o in p.bytes && p.bytes[o] == data[o - off]
  }

  lemma StoredHolds(p: Plain, off: nat, data: seq<byte>)
    ensures Holds(Stored(p, off, data), off, data)
  {
  }

  // A read inside a written stretch gets at least one byte, and the right ones.
  lemma ReadMore(p: Plain, off: nat, data: seq<byte>, done: nat, op: Op, out: Outcome)
    requires Holds(p, off, data) && done < |data|
    requires op == Read(|data| - done, off + done, true) && Fits(p, op, out)
    ensures out.ReadGave? && out.r.Data? && out.r.bytes != [] && done + |out.r.bytes| <= |data|
    ensures data[..done] + out.r.bytes == data[..done + |out.r.bytes|]
  {
    var more := out.r.bytes;
    forall i | 0 <= i < |more|
      ensures more[i] == data[done + i]
    {
      assert off + done + i in p.bytes;
    }
  }

  // One turn of the reading loop.
  method ReadSome(dev: ScullDev, params: Params, off: nat, n: nat, got: seq<byte>, ghost data: seq<byte>)
      returns (more: seq<byte>)
    requires Ready(dev, params) && |data| == n && Holds(View(dev), off, data) && |got| < n && got == data[..|got|]
    modifies dev, dev.where.Keys, dev.mem, params
    ensures Ready(dev, params) && View(dev) == old(View(dev))
    ensures more != [] && |got + more| <= n && got + more == data[..|got + more|]
    ensures fresh(dev.where.Keys - old(dev.where.Keys))
    ensures dev.mem.live == (old(dev.mem.live) - old(dev.where.Keys)) + dev.where.Keys
  {
    var at := |got|;
    var op := Read(n - at, off + at, true);
    var out := Perform(dev, params, op);
    ReadMore(old(View(dev)), off, data, at, op, out);
    more := out.r.bytes;
  }

  // Reading until as many bytes have come gives back exactly what was written.
  method ReadAll(dev: ScullDev, params: Params, off: nat, n: nat, ghost data: seq<byte>) returns (got: seq<byte>)
    requires Ready(dev, params) && |data| == n && Holds(View(dev), off, data)
    modifies dev, dev.where.Keys, dev.mem, params
    ensures Ready(dev, params) && got == data && View(dev) == old(View(dev))
    ensures fresh(dev.where.Keys - old(dev.where.Keys))
    ensures dev.mem.live == (old(dev.mem.live) - old(dev.where.Keys)) + dev.where.Keys
  {
    got := [];
    ghost var start := View(dev);
    while |got| < n
      invariant Ready(dev, params) && View(dev) == start && |got| <= n && got == data[..|got|]
      invariant fresh(dev.where.Keys - old(dev.where.Keys))
      invariant dev.mem.live == (old(dev.mem.live) - old(dev.where.Keys)) + dev.where.Keys
    {
      var more := ReadSome(dev, params, off, n, got, data);
      got := got + more;
    }
    assert data[..n] == data;
  }

  // Writing and reading back is the identity, whatever the quantum and the array size.
  method RoundTrip(dev: ScullDev, params: Params, buf: seq<byte>, off: nat) returns (ok: bool, got: seq<byte>)
    requires Ready(dev, params)
    modifies dev, dev.where.Keys, dev.mem, params
    ensures Ready(dev, params)
    ensures if ok then got == buf && View(dev) == Stored(old(View(dev)), off, buf)
            else dev.mem.refused > old(dev.mem.refused)
  {
    var done;
    done, ok := WriteAll(dev, params, buf, off);
    got := [];
    if ok {
      assert buf[..|buf|] == buf;
      StoredHolds(old(View(dev)), off, buf);
      got := ReadAll(dev, params, off, |buf|, buf);
    }
  }

  // What one device does leaves another one as it was, if they own different storage.
  twostate predicate Untouched(dev: ScullDev, params: Params)
    reads dev, dev.items, dev.tables.Values, dev.blocks.Values, dev.mem, params
  {
    Ready(dev, params) && View(dev) == old(View(dev)) && dev.where == old(dev.where)
  }

  // A write on one device touches nothing that is kept apart from its storage.
  method WriteApart(dev: ScullDev, params: Params, buf: seq<byte>, off: nat, ghost kept: set<object>) returns (ok: bool)
    requires Ready(dev, params) && kept !! dev.where.Keys && kept !! {dev, dev.mem, params}
    modifies dev, dev.where.Keys, dev.mem, params
    ensures Ready(dev, params) && (ok ==> View(dev) == Stored(old(View(dev)), off, buf))
    ensures dev.mem.refused == old(dev.mem.refused) + if ok then 0 else 1
    ensures unchanged(kept) && kept !! dev.where.Keys && kept * old(dev.mem.live) <= dev.mem.live
    ensures fresh(dev.where.Keys - old(dev.where.Keys))
  {
    var done;
    done, ok := WriteAll(dev, params, buf, off);
    KeptOwned(old(dev.mem.live), old(dev.where.Keys), kept, dev.where.Keys);
    if ok {
      assert buf[..done] == buf;
    }
  }

  // So another device, which may share the allocator and the parameters, is as good as before.
  method WriteBeside(dev: ScullDev, other: ScullDev, params: Params, buf: seq<byte>, off: nat) returns (ok: bool)
    requires Ready(dev, params) && Ready(other, params) && dev != other && dev.where.Keys !! other.where.Keys
    modifies dev, dev.where.Keys, dev.mem, params
    ensures Ready(dev, params) && (ok ==> View(dev) == Stored(old(View(dev)), off, buf))
    ensures dev.mem.refused == old(dev.mem.refused) + if ok then 0 else 1
    ensures Untouched(other, params) && dev.where.Keys !! other.where.Keys
    ensures fresh(dev.where.Keys - old(dev.where.Keys))
  {
    forall o: object | o in other.where || o in dev.where
      ensures !(o is ScullDev) && !(o is Allocator) && !(o is Params)
    {
      OwnsOnlyStorage(if o in other.where then other else dev, o);
    }
    other.ValidIsIntact();
    ok := WriteApart(dev, params, buf, off, other.where.Keys + {other});
    other.ValidIsIntact();
  }

  lemma MemoryIsNotOwned(dev: ScullDev, other: ScullDev)
    requires dev.Valid()
    ensures other.mem !in dev.where
  {
    if other.mem in dev.where {
      OwnsOnlyStorage(dev, other.mem);
    }
  }

  // Two devices that hold the same contents, in any two geometries, still do after the same write,
  // repeated until it is done.
  method SameContents(a: ScullDev, b: ScullDev, params: Params, buf: seq<byte>, off: nat) returns (ok: bool)
    requires Ready(a, params) && Ready(b, params) && a != b && a.where.Keys !! b.where.Keys && View(a) == View(b)
    modifies a, a.where.Keys, a.mem, b, b.where.Keys, b.mem, params
    ensures Ready(a, params) && Ready(b, params) && a.where.Keys !! b.where.Keys
    ensures fresh(a.where.Keys - old(a.where.Keys)) && fresh(b.where.Keys - old(b.where.Keys))
    ensures ok ==> View(a) == View(b) == Stored(old(View(a)), off, buf)
    ensures ok <==> a.mem.refused == old(a.mem.refused) && b.mem.refused == old(b.mem.refused)
  {
    hide ScullDev.Valid;
    MemoryIsNotOwned(a, b);
    ok := WriteBeside(a, b, params, buf, off);
    MemoryIsNotOwned(b, a);
    if ok {
      ok := WriteBeside(b, a, params, buf, off);
    }
  }

  datatype Store = Store(off: nat, buf: seq<byte>)

  // The store after each of the buffers has been taken in full, in order.
  function StoredAll(p: Plain, stores: seq<Store>): Plain {
    if stores == [] then p
    else var last := stores[|stores| - 1]; Stored(StoredAll(p, stores[..|stores| - 1]), last.off, last.buf)
  }

  // And after any sequence of such writes.  What reads find is then the same by ReadAll.
  method SameContentsAll(a: ScullDev, b: ScullDev, params: Params, stores: seq<Store>) returns (ok: bool)
    requires Ready(a, params) && Ready(b, params) && a != b && a.where.Keys !! b.where.Keys && View(a) == View(b)
    modifies a, a.where.Keys, a.mem, b, b.where.Keys, b.mem, params
    ensures Ready(a, params) && Ready(b, params)
    ensures ok ==> View(a) == View(b) == StoredAll(old(View(a)), stores)
    ensures ok <==> a.mem.refused == old(a.mem.refused) && b.mem.refused == old(b.mem.refused)
  {
    hide ScullDev.Valid;
    ok := true;
    ghost var start := View(a);
    for i := 0 to |stores|
      invariant Ready(a, params) && Ready(b, params) && a.where.Keys !! b.where.Keys
      invariant fresh(a.where.Keys - old(a.where.Keys)) && fresh(b.where.Keys - old(b.where.Keys))
      invariant ok && View(a) == View(b) == StoredAll(start, stores[..i])
      invariant a.mem.refused == old(a.mem.refused) && b.mem.refused == old(b.mem.refused)
    {
      ok := SameContents(a, b, params, stores[i].buf, stores[i].off);
      if !ok {
        return;
      }
      assert stores[..i + 1][..i] == stores[..i];
    }
    assert stores[..|stores|] == stores;
  }
}
