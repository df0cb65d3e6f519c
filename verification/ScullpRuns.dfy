/** What stays put in a scullp device for as long as it is mapped. */
module ScullpRuns {
  import opened Ring
  import opened Geometry
  import opened Spine
  import opened Scull
  import opened Scullp

  // One call; an open for writing trims, with the settings of the moment.
  datatype Op =
    | OpenForWrite(settings: Settings)
    | Read(count: nat, off: nat, copyOk: bool)
    | Write(buf: seq<byte>, off: nat, copyOk: bool)
    | Fault(off: nat)
    | Mmap
    | VmaOpen
    | VmaClose

  // The geometry and every page that user programs could see are still there.
  twostate predicate Pinned(dev: ScullpDev)
    requires 0 < old(dev.list.quantum) && 0 < old(dev.list.qset) && 0 < dev.list.quantum && 0 < dev.list.qset
    reads dev, dev.list, dev.list.mem
  {
    && dev.order == old(dev.order) && dev.list.qset == old(dev.list.qset) && dev.list.quantum == old(dev.list.quantum)
    && dev.list.size >= old(dev.list.size)
    && (forall k <- old(dev.list.blocks) :: k in dev.list.blocks && dev.list.blocks[k] == old(dev.list.blocks)[k])
    && old(dev.Owned()) <= dev.Owned() && old(dev.list.mem.live) <= dev.list.mem.live
  }

  // What a call answers.
  datatype Outcome =
    | Trimmed(result: int)
    | Gave(r: ReadResult)
    | Took(w: WriteResult)
    | Found(page: array?<byte>)
    | Mapped(result: int)
    | Counted

  // The bytes that the device stores after a call on it while it is mapped.
  function After(bytes: map<nat, byte>, op: Op, out: Outcome): map<nat, byte> {
    if op.Write? && out.Took? && out.w.Wrote? && out.w.n <= |op.buf| then Patch(bytes, op.off, op.buf[..out.w.n])
    else bytes
  }

  // The answer fits what is stored: bytes last written or zeros, a refused trim, a mapping that is granted.
  ghost predicate Fits(bytes: map<nat, byte>, op: Op, out: Outcome) {
    match op
    case OpenForWrite(_) => out == Trimmed(EBUSY)
    case Read(count, off, copyOk) =>
      && out.Gave? && (out.r.ReadFault? ==> !copyOk)
      && (out.r.Data? ==>
            && |out.r.bytes| <= count && (copyOk && count > 0 && off in bytes ==> out.r.bytes != [])
            && forall i :: 0 <= i < |out.r.bytes| ==>
                 out.r.bytes[i] == if off + i in bytes then bytes[off + i] else 0)
    case Write(buf, off, copyOk) =>
      && out.Took? && (out.w.WriteFault? ==> !copyOk)
      && (out.w.Wrote? ==> copyOk && out.w.n <= |buf| && (buf != [] ==> out.w.n > 0))
    case Fault(off) => out.Found? && (off in bytes ==> out.page != null)
    case Mmap => out == Mapped(0)
    case VmaOpen => out == Counted
    case VmaClose => out == Counted
  }

  ghost function Replay(bytes: map<nat, byte>, ops: seq<Op>, outs: seq<Outcome>): map<nat, byte>
    requires |ops| == |outs|
  {
    if |ops| == 0 then bytes
    else After(Replay(bytes, ops[..|ops| - 1], outs[..|ops| - 1]), ops[|ops| - 1], outs[|ops| - 1])
  }

  ghost predicate AllFit(bytes: map<nat, byte>, ops: seq<Op>, outs: seq<Outcome>)
    requires |ops| == |outs|
  {
    forall i :: 0 <= i < |ops| ==> Fits(Replay(bytes, ops[..i], outs[..i]), ops[i], outs[i])
  }

  lemma ReplayExtends(bytes: map<nat, byte>, ops: seq<Op>, outs: seq<Outcome>, op: Op, out: Outcome)
    requires |ops| == |outs| && AllFit(bytes, ops, outs) && Fits(Replay(bytes, ops, outs), op, out)
    ensures AllFit(bytes, ops + [op], outs + [out])
    ensures Replay(bytes, ops + [op], outs + [out]) == After(Replay(bytes, ops, outs), op, out)
  {
    var ops1, outs1 := ops + [op], outs + [out];
    assert ops1[..|ops|] == ops && outs1[..|ops|] == outs;
    hide Fits, After, Replay;
    forall i | 0 <= i < |ops1|
      ensures Fits(Replay(bytes, ops1[..i], outs1[..i]), ops1[i], outs1[i])
    {
      if i < |ops| {
        assert ops1[..i] == ops[..i] && outs1[..i] == outs[..i];
      }
    }
  }

  lemma WrittenIsThere(dev: ScullpDev, off: nat)
    requires dev.Valid() && off in dev.list.bytes
    ensures off < dev.list.size && KeyOf(off, dev.page, dev.list.qset) in dev.list.blocks
    ensures PosOf(off, dev.page, dev.list.qset) < dev.page
  {
    Recompose(off, dev.page, dev.list.qset);
    assert CellOf(off, dev.list.quantum, dev.list.qset) in dev.list.cells;
  }

  method PerformRead(dev: ScullpDev, count: nat, off: nat, copyOk: bool) returns (r: ReadResult)
    requires dev.Valid() && dev.order == 0
    modifies dev.list`data, dev.list`items, dev.list`where, dev.list.items`next, dev.list.mem
    ensures dev.Valid() && dev.list.Allocated(old(dev.list.where.Keys), old(dev.list.mem.live))
    ensures Fits(dev.list.bytes, Read(count, off, copyOk), Gave(r))
  {
    hide ScullDev.Shape;
    if off in dev.list.bytes {
      WrittenIsThere(dev, off);
    }
    r := dev.ScullpRead(count, off, copyOk);
  }

  method PerformWrite(dev: ScullpDev, buf: seq<byte>, off: nat, copyOk: bool) returns (w: WriteResult)
    requires dev.Valid() && dev.order == 0
    modifies dev, dev.list, dev.list.where.Keys, dev.list.mem
    ensures dev.Valid() && Pinned(dev) && dev.vmas == old(dev.vmas)
    ensures fresh(dev.list.where.Keys - old(dev.list.where.Keys))
    ensures Fits(old(dev.list.bytes), Write(buf, off, copyOk), Took(w))
    ensures dev.list.bytes == After(old(dev.list.bytes), Write(buf, off, copyOk), Took(w))
    ensures dev.list.mem.refused == old(dev.list.mem.refused) + if w.NoMemory? then 1 else 0
  {
    hide ScullDev.Shape;
    dev.list.OwnsAll();
    w := dev.ScullpWrite(buf, off, copyOk);
    Recompose(off, dev.page, dev.list.qset);
  }

  // One call on a mapped device.
  method Perform(dev: ScullpDev, op: Op) returns (out: Outcome)
    requires dev.Valid() && dev.vmas > 0 && (op.OpenForWrite? ==> op.settings.qset > 0)
    modifies dev, dev.list, dev.list.where.Keys, dev.list.mem
    ensures dev.Valid() && Pinned(dev) && fresh(dev.list.where.Keys - old(dev.list.where.Keys))
    ensures dev.vmas == old(dev.vmas) + if op.Mmap? || op.VmaOpen? then 1 else if op.VmaClose? then -1 else 0
    ensures Fits(old(dev.list.bytes), op, out) && dev.list.bytes == After(old(dev.list.bytes), op, out)
    ensures op.Fault? ==> out.page == dev.PageAt(op.off)
    ensures op.Write? ==> dev.list.mem.refused == old(dev.list.mem.refused) + if out.w.NoMemory? then 1 else 0
  {
    hide ScullDev.Shape;
    dev.list.OwnsAll();
    match op {
      case OpenForWrite(settings) =>
        var result := dev.ScullpTrim(settings);
        out := Trimmed(result);
      case Read(count, off, copyOk) =>
        var r := PerformRead(dev, count, off, copyOk);
        out := Gave(r);
      case Write(buf, off, copyOk) =>
        var w := PerformWrite(dev, buf, off, copyOk);
        out := Took(w);
      case Fault(off) =>
        if off in dev.list.bytes {
          WrittenIsThere(dev, off);
        }
        var pageptr := dev.ScullpVmaNopage(off);
        out := Found(pageptr);
      case Mmap =>
        var result := dev.ScullpMmap();
        out := Mapped(result);
      case VmaOpen =>
        dev.ScullpVmaOpen();
        out := Counted;
      case VmaClose =>
        dev.ScullpVmaClose();
        out := Counted;
    }
  }

  // The mappings after some of the calls.
  function Mappings(n: int, ops: seq<Op>): int {
    if |ops| == 0 then n
    else
      var last := ops[|ops| - 1];
      Mappings(n, ops[..|ops| - 1]) + if last.Mmap? || last.VmaOpen? then 1 else if last.VmaClose? then -1 else 0
  }

  lemma MappingsExtend(n: int, ops: seq<Op>, op: Op)
    ensures Mappings(n, ops + [op]) ==
            Mappings(n, ops) + if op.Mmap? || op.VmaOpen? then 1 else if op.VmaClose? then -1 else 0
  {
    assert (ops + [op])[..|ops|] == ops;
  }

  lemma NothingYet(n: int, bytes: map<nat, byte>, ops: seq<Op>, outs: seq<Outcome>)
    requires ops == [] && outs == []
    ensures Mappings(n, ops) == n && Replay(bytes, ops, outs) == bytes && AllFit(bytes, ops, outs)
  {
  }

  // A page fault that found a page still finds the same one.
  twostate predicate SamePages(dev: ScullpDev)
    requires 0 < old(dev.list.quantum) && 0 < old(dev.list.qset) && 0 < dev.list.quantum && 0 < dev.list.qset
    reads dev, dev.list
  {
    forall off: nat :: old(dev.PageAt(off)) != null ==> dev.PageAt(off) == old(dev.PageAt(off))
  }

  twostate lemma PinnedPages(dev: ScullpDev)
    requires old(dev.Valid()) && dev.Valid() && Pinned(dev)
    ensures SamePages(dev)
  {
    hide ScullDev.Shape;
  }

  // Any run of calls, up to the moment when the last mapping goes away.
  method RunWhileMapped(dev: ScullpDev, ops: seq<Op>) returns (n: nat, outs: seq<Outcome>)
    requires dev.Valid() && dev.vmas > 0 && forall op <- ops :: op.OpenForWrite? ==> op.settings.qset > 0
    modifies dev, dev.list, dev.list.where.Keys, dev.list.mem
    ensures dev.Valid() && n <= |ops| && (n < |ops| ==> dev.vmas == 0)
    ensures dev.vmas == Mappings(old(dev.vmas), ops[..n]) && |outs| == n
    ensures AllFit(old(dev.list.bytes), ops[..n], outs)
    ensures dev.list.bytes == Replay(old(dev.list.bytes), ops[..n], outs)
    ensures Pinned(dev) && dev.order == 0
    ensures SamePages(dev)
  {
    hide ScullDev.Shape, Fits, After, Replay, AllFit, Mappings, SamePages;
    n, outs := 0, [];
    ghost var start := dev.list.bytes;
    NothingYet(dev.vmas, start, ops[..0], outs);
    while n < |ops| && dev.vmas > 0
      invariant dev.Valid() && n <= |ops| && Pinned(dev)
      invariant dev.vmas == Mappings(old(dev.vmas), ops[..n]) && |outs| == n
      invariant AllFit(start, ops[..n], outs) && dev.list.bytes == Replay(start, ops[..n], outs)
      invariant fresh(dev.list.where.Keys - old(dev.list.where.Keys))
    {
      var out := Perform(dev, ops[n]);
      ReplayExtends(start, ops[..n], outs, ops[n], out);
      MappingsExtend(old(dev.vmas), ops[..n], ops[n]);
      assert ops[..n + 1] == ops[..n] + [ops[n]];
      outs := outs + [out];
      n := n + 1;
    }
    PinnedPages(dev);
  }
}
