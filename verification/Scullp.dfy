/** The scullp device at order 0: pages instead of quanta, which user programs can also map. */
module Scullp {
  import opened Ring
  import opened Geometry
  import opened Spine
  import opened Scull

  const EBUSY: int := -16
  const ENODEV: int := -19

  // scullp_order and scullp_qset, which any ioctl can change at any time.
  datatype Settings = Settings(order: nat, qset: nat)

  // The device structure is itself the first item of the list, so that item is never freed.
  class ScullpDev {
    const list: ScullDev
    const head: Item
    const page: nat
    var vmas: nat
    var order: nat

    ghost predicate Valid()
      reads this, list, list.items, list.tables.Values, list.blocks.Values, list.mem
    {
      && list.Valid() && list.Cleared() && list.quantum == page
      && list.items != [] && list.items[0] == head && (vmas > 0 ==> order == 0)
    }

    // What belongs to the device and can be freed.
    ghost function Owned(): set<object>
      reads list
    {
      list.where.Keys - {head}
    }

    constructor (mem: Allocator, page: nat, qset: nat)
      requires 0 < page && 0 < qset
      modifies mem
      ensures Valid() && fresh(list) && list.mem == mem && this.page == page && list.qset == qset
      ensures order == 0 && vmas == 0 && list.size == 0 && list.bytes == map[] && Owned() == {}
    {
      var first := new Item();
      mem.live := mem.live + {first};
      var store := new ScullDev(mem, page, qset);
      list, head, this.page, vmas, order := store, first, page, 0, 0;
      new;
      hide ScullDev.Shape;
      Attach();
    }

    // The device's own item becomes the first and only one of an empty list.
    method Attach()
      requires list.Valid() && list.quantum == page && list.where == map[] && list.items == [] && list.blocks == map[]
      requires head.data == null && head.next == null && head in list.mem.live && vmas == 0
      modifies list`data, list`items, list`where
      ensures Valid() && Owned() == {}
    {
      hide ScullDev.Shape;
      list.Append(null, head);
    }

    // The page that holds an offset below the size, or null at a hole and past the end.
    ghost function PageAt(off: nat): array?<byte>
      requires 0 < list.quantum && 0 < list.qset
      reads list
    {
      if off < list.size && KeyOf(off, list.quantum, list.qset) in list.blocks
      then list.blocks[KeyOf(off, list.quantum, list.qset)] else null
    }

    // The byte at an offset of a page that is there: the one last written, or zero.
    ghost function ByteAt(off: nat): byte
      reads list
    {
      if off in list.bytes then list.bytes[off] else 0
    }

    lemma PageHolds(block: Block, off: nat, i: nat)
      requires Valid() && KeyOf(off, page, list.qset) in list.blocks
      requires block == list.blocks[KeyOf(off, page, list.qset)] && PosOf(off, page, list.qset) + i < page
      ensures var at := PosOf(off, page, list.qset) + i; at < block.Length && block[at] == ByteAt(off + i)
    {
      WithinQuantum(off, i, page, list.qset);
      if off + i in list.bytes {
        list.WrittenBytes(block, off, i);
      }
    }

    // scullp_read.  Unlike scull_read it lets an offset equal to the size through.
    method ScullpRead(count: nat, off: nat, copyOk: bool) returns (r: ReadResult)
      requires Valid() && order == 0
      modifies list`data, list`items, list`where, list.items`next, list.mem
      ensures Valid() && list.Allocated(old(list.where.Keys), old(list.mem.live))
      ensures var k, at := KeyOf(off, page, list.qset), PosOf(off, page, list.qset);
        if off > list.size || k !in list.blocks then r == Data([])
        else if !copyOk then r == ReadFault
        else
          && r.Data? && at + |r.bytes| <= list.blocks[k].Length && r.bytes == list.blocks[k][at..at + |r.bytes|]
          && at + |r.bytes| <= page && |r.bytes| <= count && off + |r.bytes| <= list.size
          && (|r.bytes| == count || off + |r.bytes| == list.size || at + |r.bytes| == page)
          && forall i :: 0 <= i < |r.bytes| ==> r.bytes[i] == ByteAt(off + i)
    {
      hide ScullDev.Shape;
      r := Data([]);
      if off <= list.size {
        Recompose(off, page, list.qset);
        var block := list.Find(KeyOf(off, page, list.qset));
        if block != null {
          if copyOk {
            var answer := list.CopyToUser(block, if off + count > list.size then list.size - off else count, off);
            forall i | 0 <= i < |answer|
              ensures answer[i] == ByteAt(off + i)
            {
              PageHolds(block, off, i);
            }
            r := Data(answer);
          } else {
            r := ReadFault;
          }
        }
      }
    }

    // scullp_write takes the steps of scull_write, with the page size as the quantum, and clears a new page.
    method ScullpWrite(buf: seq<byte>, off: nat, copyOk: bool) returns (r: WriteResult)
      requires Valid() && order == 0
      modifies list`data, list`items, list`tables, list`blocks, list`where, list`cells, list`bytes, list`size
      modifies list.items, list.tables.Values, list.blocks.Values, list.mem
      ensures Valid() && list.Allocated(old(list.where.Keys), old(list.mem.live))
      ensures list.mem.refused == old(list.mem.refused) + if r.NoMemory? then 1 else 0
      ensures var k := KeyOf(off, page, list.qset);
        && (forall l <- old(list.blocks) :: l in list.blocks && list.blocks[l] == old(list.blocks)[l])
        && (r.NoMemory? <==> k !in list.blocks) && (r.WriteFault? <==> k in list.blocks && !copyOk)
      ensures var at := PosOf(off, page, list.qset);
        r.Wrote? ==> r.n <= |buf| && at + r.n <= page && (r.n == |buf| || at + r.n == page)
      ensures r.Wrote? ==> list.bytes == Patch(old(list.bytes), off, buf[..r.n])
      ensures !r.Wrote? ==> list.bytes == old(list.bytes)
      ensures list.size == if r.Wrote? && old(list.size) < off + r.n then off + r.n else old(list.size)
    {
      hide ScullDev.Shape;
      r := list.ScullWrite(buf, off, copyOk, true);
    }

    // The loop of scullp_vma_nopage: the page number is reduced by the size of an array, item by item.
    method WalkPages(number: nat) returns (ptr: Item?, offset: nat, ghost i: nat)
      requires Linked(list.items) && list.items != [] && head == list.items[0] && 0 < list.qset
      ensures number == i * list.qset + offset && i <= |list.items|
      ensures ptr == if i < |list.items| then list.items[i] else null
      ensures ptr != null ==> offset < list.qset
    {
      ptr, offset, i := head, number, 0;
      while ptr != null && offset >= list.qset
        invariant i <= |list.items| && ptr == if i < |list.items| then list.items[i] else null
        invariant number == i * list.qset + offset
      {
        ptr := ptr.next;
        offset := offset - list.qset;
        OneMore(i, list.qset);
        i := i + 1;
      }
    }

    // What an item's array has at a place.
    method Entry(ptr: Item?, ghost i: nat, offset: nat) returns (pageptr: array?<byte>)
      requires list.Shape() && ptr == (if i < |list.items| then list.items[i] else null)
      requires ptr != null ==> offset < list.qset
      ensures pageptr == if i < |list.items| && (i, offset) in list.blocks then list.blocks[(i, offset)] else null
    {
      pageptr := null;
      if ptr != null {
        var table := ptr.data;
        if table != null {
          pageptr := table[offset];
        }
      }
    }

    method ScullpVmaNopage(off: nat) returns (pageptr: array?<byte>)
      requires Valid() && order == 0
      ensures pageptr == PageAt(off)
      ensures pageptr != null <==> off < list.size && KeyOf(off, page, list.qset) in list.blocks
      ensures pageptr != null ==> pageptr == list.blocks[KeyOf(off, page, list.qset)]
    {
      pageptr := null;
      if off < list.size {
        var ptr, offset;
        ghost var i;
        ptr, offset, i := WalkPages(off / page);
        pageptr := Entry(ptr, i, offset);
        WalkIsDivision(off, page, list.qset, i, offset);
      }
    }

    // A page fault and a read agree on what is a hole, and on the bytes where there is none.
    method FaultAndRead(off: nat, count: nat) returns (pageptr: array?<byte>, r: ReadResult)
      requires Valid() && order == 0 && off < list.size && count > 0
      modifies list`data, list`items, list`where, list.items`next, list.mem
      ensures Valid() && r.Data? && (pageptr == null <==> r.bytes == [])
      ensures pageptr != null ==>
        var at := PosOf(off, page, list.qset);
        at + |r.bytes| <= pageptr.Length && r.bytes == pageptr[at..at + |r.bytes|]
    {
      pageptr := ScullpVmaNopage(off);
      r := ScullpRead(count, off, true);
    }

    // scullp_mmap
    method ScullpMmap() returns (result: int)
      requires Valid()
      modifies this`vmas
      ensures Valid() && result == (if order == 0 then 0 else ENODEV)
      ensures vmas == old(vmas) + if order == 0 then 1 else 0
    {
      if order != 0 {
        return ENODEV;
      }
      ScullpVmaOpen();
      result := 0;
    }

    method ScullpVmaOpen()
      requires Valid() && order == 0
      modifies this`vmas
      ensures Valid() && vmas == old(vmas) + 1
    {
      vmas := vmas + 1;
    }

    // Only a mapping that is open is closed.
    method ScullpVmaClose()
      requires Valid() && vmas > 0
      modifies this`vmas
      ensures Valid() && vmas == old(vmas) - 1
    {
      vmas := vmas - 1;
    }

    // One turn of the loop in scullp_trim: the item is freed unless it is the device itself.
    method FreeListItem(dptr: Item, ghost j: nat, ghost freed: set<object>)
        returns (next: Item?, ghost after: set<object>)
      requires list.Freeable(freed, j) && j < |list.items| && dptr == list.items[j] && head == list.items[0]
      modifies dptr`data, list.mem
      ensures list.Freeable(after, j + 1) && next == Following(list.items, j) && freed <= after
      ensures list.mem.live == old(list.mem.live) - (after - freed - {head})
      ensures dptr.data == null
    {
      assert forall i: nat :: i < |list.items| && list.items[i] == dptr ==> i == j;
      after := list.FreeData(dptr, j, freed);
      next := dptr.next;
      if dptr != head {
        list.mem.Free(dptr);
      }
      after := after + {dptr};
    }

    // The loop of scullp_trim: what the device has allocated is freed, each object once, but not the device.
    method FreeAll()
      requires Valid()
      modifies list.items`data, list.mem
      ensures list.mem.live == old(list.mem.live) - Owned() && head.data == null
    {
      var dptr: Item? := head;
      ghost var freed: set<object> := {};
      ghost var j := 0;
      while dptr != null
        invariant j <= |list.items| && dptr == if j < |list.items| then list.items[j] else null
        invariant list.Freeable(freed, j) && list.mem.live == old(list.mem.live) - (freed - {head})
        invariant j > 0 ==> head.data == null
        decreases |list.items| - j
      {
        dptr, freed := FreeListItem(dptr, j, freed);
        j := j + 1;
      }
      assert freed == list.where.Keys;
    }

    // The device is a single, empty item again, in the geometry of the day.
    method Restart(settings: Settings)
      requires list.quantum == page && 0 < page && 0 < settings.qset && vmas == 0
      requires list.data == head && head.data == null && head in list.mem.live
      modifies this`order, list, head`next
      ensures Valid() && Owned() == {} && list.bytes == map[] && list.blocks == map[]
      ensures order == settings.order && list.qset == settings.qset && list.size == 0
    {
      hide ScullDev.Shape;
      order, head.next := settings.order, null;
      list.Clear(page, settings.qset);
      Attach();
    }

    // scullp_trim.  It refuses while the device is mapped.
    method ScullpTrim(settings: Settings) returns (result: int)
      requires Valid() && 0 < settings.qset
      modifies this`order, list, list.items, list.mem
      ensures Valid()
      ensures old(vmas) > 0 ==>
        result == EBUSY && unchanged(this) && unchanged(list) && unchanged(list.items) && unchanged(list.mem)
      ensures old(vmas) == 0 ==>
        && result == 0 && order == settings.order && list.qset == settings.qset && list.size == 0
        && list.bytes == map[] && list.blocks == map[] && Owned() == {}
        && list.mem.live == old(list.mem.live) - old(Owned())
    {
      if vmas != 0 {
        return EBUSY;
      }
      result := 0;
      FreeAll();
      Restart(settings);
    }
  }

  lemma OneMore(i: nat, n: nat)
    ensures (i + 1) * n == i * n + n
  {
  }

  lemma WalkIsDivision(off: nat, page: nat, qset: nat, i: nat, rest: nat)
    requires 0 < page && 0 < qset && off / page == i * qset + rest
    ensures rest < qset ==> KeyOf(off, page, qset) == (i, rest)
    ensures i <= ItemOf(off, page, qset)
  {
    PageNumber(off, page, qset);
    var item, slot := ItemOf(off, page, qset), SlotOf(off, page, qset);
    if rest < qset {
      SameMultiple(item, i, qset, slot, rest);
    }
    if item < i {
      Distributes(i, item, qset);
      AtLeastOnce(i - item, qset);
    }
  }
}
