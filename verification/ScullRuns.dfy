/** Runs of the scull device against a plain map. */
module ScullRuns {
  import opened Options
  import opened Ring
  import opened Geometry
  import opened Spine
  import opened Scull
  import opened ScullIoctl

  // The store as its users see it.
  datatype Plain = Plain(bytes: map<nat, byte>, size: nat)

  datatype Op =
    | OpenForWrite
    | Read(count: nat, off: nat, copyOk: bool)
    | Write(buf: seq<byte>, off: nat, copyOk: bool)
    | Ioctl(cmd: IoctlCmd, admin: bool, user: UserMemory)

  datatype Outcome =
    | Opened
    | ReadGave(r: ReadResult)
    | WriteGave(w: WriteResult)
    | IoctlGave(result: int, put: Option<nat>)

  // The outcome is one that the plain store allows.
  ghost predicate Fits(p: Plain, op: Op, out: Outcome) {
    match op
    case OpenForWrite => out.Opened?
    case Read(count, off, copyOk) =>
      out.ReadGave? &&
      (match out.r
       case ReadFault => !copyOk
       case Data(data) =>
         && |data| <= count && (data != [] ==> off + |data| <= p.size)
         && (count > 0 && off in p.bytes ==> data != [])
         && forall i :: 0 <= i < |data| && off + i in p.bytes ==> data[i] == p.bytes[off + i])
    case Write(buf, off, copyOk) =>
      out.WriteGave? &&
      (match out.w
       case Wrote(n) => copyOk && n <= |buf| && (buf != [] ==> n > 0)
       case NoMemory => true
       case WriteFault => !copyOk)
    case Ioctl(_, _, _) => out.IoctlGave?
  }

  // What the operation does to the plain store.
  function After(p: Plain, op: Op, out: Outcome): Plain {
    match op
    case OpenForWrite => Plain(map[], 0)
    case Write(buf, off, _) =>
      if out.WriteGave? && out.w.Wrote? && out.w.n <= |buf| then
        Plain(Patch(p.bytes, off, buf[..out.w.n]), if p.size < off + out.w.n then off + out.w.n else p.size)
      else p
    case _ => p
  }

  // Running the operations on the plain store; the device is not involved.
  ghost function Replay(p: Plain, ops: seq<Op>, outs: seq<Outcome>): Plain
    requires |ops| == |outs|
  {
    if |ops| == 0 then p else After(Replay(p, ops[..|ops| - 1], outs[..|ops| - 1]), ops[|ops| - 1], outs[|ops| - 1])
  }

  ghost predicate AllFit(p: Plain, ops: seq<Op>, outs: seq<Outcome>)
    requires |ops| == |outs|
  {
    forall i :: 0 <= i < |ops| ==> Fits(Replay(p, ops[..i], outs[..i]), ops[i], outs[i])
  }

  lemma ReplayExtends(p: Plain, ops: seq<Op>, outs: seq<Outcome>, op: Op, out: Outcome)
    requires |ops| == |outs| && AllFit(p, ops, outs) && Fits(Replay(p, ops, outs), op, out)
    ensures AllFit(p, ops + [op], outs + [out])
    ensures Replay(p, ops + [op], outs + [out]) == After(Replay(p, ops, outs), op, out)
  {
    assert (ops + [op])[..|ops|] == ops && (outs + [out])[..|ops|] == outs;
    forall i | 0 <= i < |ops| + 1
      ensures Fits(Replay(p, (ops + [op])[..i], (outs + [out])[..i]), (ops + [op])[i], (outs + [out])[i])
    {
      if i < |ops| {
        assert (ops + [op])[..i] == ops[..i] && (outs + [out])[..i] == outs[..i];
      }
    }
  }

  // An ioctl keeps the geometry positive if what it stores is.
  predicate PositiveOp(op: Op) {
    op.Ioctl? ==>
      && op.cmd.Stores(true, op.admin, op.user) != Some(0)
      && op.cmd.Stores(false, op.admin, op.user) != Some(0)
  }

  // What the operation does to the two parameters, and what an ioctl answers.
  function KnobsAfter(k: Knobs, op: Op): Knobs {
    if op.Ioctl? then ScullIoctl.Tuned(k, Call(op.cmd, op.admin, op.user)) else k
  }

  function Answered(k: Knobs, op: Op): Outcome
    requires op.Ioctl?
  {
    IoctlGave(Answer(k, Call(op.cmd, op.admin, op.user)), Put(k, Call(op.cmd, op.admin, op.user)))
  }

  function KnobsAfterAll(k: Knobs, ops: seq<Op>): Knobs {
    if |ops| == 0 then k else KnobsAfter(KnobsAfterAll(k, ops[..|ops| - 1]), ops[|ops| - 1])
  }

  ghost predicate Ready(dev: ScullDev, params: Params)
    reads dev, dev.items, dev.tables.Values, dev.blocks.Values, dev.mem, params
  {
    dev.Valid() && params.Positive()
  }

  ghost function View(dev: ScullDev): Plain
    reads dev
  {
    Plain(dev.bytes, dev.size)
  }

  method PerformRead(dev: ScullDev, count: nat, off: nat, copyOk: bool) returns (r: ReadResult)
    requires dev.Valid()
    modifies dev`data, dev`items, dev`where, dev.items`next, dev.mem
    ensures dev.Valid() && Fits(View(dev), Read(count, off, copyOk), ReadGave(r))
    ensures fresh(dev.where.Keys - old(dev.where.Keys)) && old(dev.where.Keys) <= dev.where.Keys
    ensures dev.mem.live == old(dev.mem.live) + dev.where.Keys
  {
    r := dev.ScullRead(count, off, copyOk);
    if r.Data? && r.bytes != [] {
      AnswerFits(dev, count, off, copyOk, r.bytes);
    } else if off in dev.bytes {
      assert CellOf(off, dev.quantum, dev.qset) in dev.cells;
    }
  }

  lemma AnswerFits(dev: ScullDev, count: nat, off: nat, copyOk: bool, data: seq<byte>)
    requires 0 < dev.quantum && 0 < dev.qset && off < dev.size
    requires dev.ReadsBack(data, if off + count > dev.size then dev.size - off else count, off)
    ensures Fits(View(dev), Read(count, off, copyOk), ReadGave(Data(data)))
  {
  }

  lemma KeptOwned<T>(live: set<T>, given: set<T>, kept: set<T>, owned: set<T>)
    requires given !! kept
    ensures kept * live <= (live - given) + owned
  {
  }

  // What a device has allocated is items, arrays and blocks.
  lemma OwnsOnlyStorage(dev: ScullDev, o: object)
    requires dev.Valid() && o in dev.where
    ensures !(o is ScullDev) && !(o is Allocator) && !(o is Params)
  {
    assert InPlace(o, dev.where[o], dev.items, dev.tables, dev.blocks);
  }

  // One system call, with what it does to the plain store; what the device holds of the
  // allocator's memory is always exactly accounted for.
  method Perform(dev: ScullDev, params: Params, op: Op) returns (out: Outcome)
    requires Ready(dev, params) && PositiveOp(op)
    modifies dev, dev.where.Keys, dev.mem, params
    ensures Ready(dev, params)
    ensures Fits(old(View(dev)), op, out)
    ensures View(dev) == After(old(View(dev)), op, out)
    ensures fresh(dev.where.Keys - old(dev.where.Keys))
    ensures dev.mem.live == (old(dev.mem.live) - old(dev.where.Keys)) + dev.where.Keys
    ensures !op.OpenForWrite? ==> dev.quantum == old(dev.quantum) && dev.qset == old(dev.qset)
    ensures op.OpenForWrite? ==> dev.quantum == params.quantum && dev.qset == params.qset && dev.where == map[]
    ensures op.Write? ==> dev.mem.refused == old(dev.mem.refused) + if out.w.NoMemory? then 1 else 0
    ensures !op.Ioctl? ==> unchanged(params)
    ensures params.View() == KnobsAfter(old(params.View()), op)
    ensures op.Ioctl? ==> out == Answered(old(params.View()), op)
  {
    hide ScullDev.Shape;
    dev.OwnsAll();
    match op {
      case OpenForWrite =>
        dev.ScullTrim(params);
        out := Opened;
      case Read(count, off, copyOk) =>
        var r := PerformRead(dev, count, off, copyOk);
        out := ReadGave(r);
      case Write(buf, off, copyOk) =>
        var w := dev.ScullWrite(buf, off, copyOk, false);
        out := WriteGave(w);
      case Ioctl(cmd, admin, user) =>
        var result, put := params.ScullIoctl(cmd, admin, user);
        out := IoctlGave(result, put);
    }
  }

  // Every run of opens, reads, writes and ioctls behaves as on the plain store, and never
  // leaks a block: what is live is what was live before, with the device's part replaced.
  method PerformAll(dev: ScullDev, params: Params, ops: seq<Op>) returns (outs: seq<Outcome>)
    requires Ready(dev, params) && forall op <- ops :: PositiveOp(op)
    modifies dev, dev.where.Keys, dev.mem, params
    ensures Ready(dev, params) && |outs| == |ops|
    ensures AllFit(old(View(dev)), ops, outs)
    ensures View(dev) == Replay(old(View(dev)), ops, outs)
    ensures params.View() == KnobsAfterAll(old(params.View()), ops)
    ensures forall i :: 0 <= i < |ops| && ops[i].Ioctl? ==>
      outs[i] == Answered(KnobsAfterAll(old(params.View()), ops[..i]), ops[i])
    ensures dev.mem.live == (old(dev.mem.live) - old(dev.where.Keys)) + dev.where.Keys
  {
    hide ScullDev.Shape;
    outs := [];
    ghost var start, knobs := View(dev), params.View();
    for i := 0 to |ops|
      invariant Ready(dev, params) && |outs| == i
      invariant AllFit(start, ops[..i], outs) && View(dev) == Replay(start, ops[..i], outs)
      invariant params.View() == KnobsAfterAll(knobs, ops[..i])
      invariant forall j :: 0 <= j < i && ops[j].Ioctl? ==> outs[j] == Answered(KnobsAfterAll(knobs, ops[..j]), ops[j])
      invariant fresh(dev.where.Keys - old(dev.where.Keys))
      invariant dev.mem.live == (old(dev.mem.live) - old(dev.where.Keys)) + dev.where.Keys
    {
      var out := Perform(dev, params, ops[i]);
      ReplayExtends(start, ops[..i], outs, ops[i], out);
      assert ops[..i + 1] == ops[..i] + [ops[i]];
      outs := outs + [out];
    }
    assert ops[..|ops|] == ops;
  }
}
