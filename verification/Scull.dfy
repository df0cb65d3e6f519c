/** The scull device: a sparse byte store whose geometry is fixed between two trims. */
module Scull {
  import opened Options
  import opened Ring
  import opened Geometry
  import opened ScullIoctl
  import opened Spine

  // What a read or write returns: the bytes moved, -ENOMEM or -EFAULT.
  datatype ReadResult = Data(bytes: seq<byte>) | ReadFault
  datatype WriteResult = Wrote(n: nat) | NoMemory | WriteFault

  lemma UnionGrows<T>(a: set<T>, b: set<T>, c: set<T>)
    requires b <= c
    ensures (a + b) + c == a + c
  {
  }

  // Nothing has changed, or an entry has been added at a key that had none.
  ghost predicate AddedAt<K, V>(before: map<K, V>, after: map<K, V>, k: K) {
    after == before || (k !in before && k in after && after == before[k := after[k]])
  }

  class ScullDev {
    const mem: Allocator
    var data: Item?
    var quantum: nat
    var qset: nat
    var size: nat
    ghost var where: map<object, Place>   // what the device has allocated, and what for
    ghost var items: seq<Item>
    ghost var tables: map<nat, Table>
    ghost var blocks: map<Key, Block>
    ghost var cells: map<Cell, byte>
    ghost var bytes: map<nat, byte>       // every byte written since the last trim

    // The list, the arrays and the blocks are linked as the ghost fields say.
    ghost predicate Shape()
      reads `data, `quantum, `qset, `where, `items, `tables, `blocks, `cells, items, tables.Values, blocks.Values
    {
      && data == (if items == [] then null else items[0])
      && PlacesOk(where, items, tables, blocks)
      && Linked(items)
      && TablesOk(items, tables, qset)
      && BlocksOk(tables, blocks, quantum, qset)
      && CellsOk(cells, blocks, quantum)
    }

    ghost predicate Sound()
      reads `data, `quantum, `qset, `where, `items, `tables, `blocks, `cells, items, tables.Values, blocks.Values, mem
    {
      0 < quantum && 0 < qset && Shape() && where.Keys <= mem.live
    }

    // What has not been written is zero.
    ghost predicate Cleared()
      reads `blocks, `cells, blocks.Values
    {
      ZeroBeside(cells, blocks)
    }

    // The contents, seen as a plain map from offsets to bytes.
    ghost predicate Valid()
      reads this, items, tables.Values, blocks.Values, mem
    {
      && Sound()
      && Matches(bytes, cells, quantum, qset)
      && (forall off <- bytes :: off < size)
    }

    // Everything that is linked is something the device has allocated.
    ghost predicate OwnsLinked()
      reads this
    {
      (forall item <- items :: item in where) && tables.Values <= where.Keys && blocks.Values <= where.Keys
    }

    lemma OwnsAll()
      requires Shape()
      ensures OwnsLinked()
    {
    }

    // What makes the device valid and lies in its own storage.
    ghost predicate Intact()
      reads this, where.Keys
    {
      && OwnsLinked()
      && 0 < quantum && 0 < qset && Shape()
      && Matches(bytes, cells, quantum, qset)
      && (forall off <- bytes :: off < size)
    }

    lemma ValidIsIntact()
      ensures Valid() <==> Intact() && where.Keys <= mem.live
    {
      if Valid() {
        OwnsAll();
      }
    }

    // What is owned more than before is freshly allocated, and nothing else has been.
    twostate predicate Allocated(owned: set<object>, live: set<object>)
      reads this, mem
    {
      owned <= where.Keys && fresh(where.Keys - owned) && mem.live == live + where.Keys
    }

    constructor (mem: Allocator, quantum: nat, qset: nat)
      requires 0 < quantum && 0 < qset
      ensures Valid() && this.mem == mem && this.quantum == quantum && this.qset == qset
      ensures where == map[] && items == [] && bytes == map[] && size == 0
    {
      this.mem := mem;
      data, this.quantum, this.qset, size := null, quantum, qset, 0;
      where, items, tables, blocks, cells, bytes := map[], [], map[], map[], map[], map[];
    }

    // The pointer to a new, empty item is stored behind the last one.
    method LinkLast(last: Item?, item: Item)
      requires Linked(items) && item !in items && item.next == null
      requires forall i, j :: 0 <= i < j < |items| ==> items[i] != items[j]
      requires last == (if items == [] then null else items[|items| - 1])
      requires data == (if items == [] then null else items[0])
      modifies this`data, items`next
      ensures Linked(items + [item]) && data == (items + [item])[0]
    {
      if last == null {
        data := item;
      } else {
        last.next := item;
      }
      LinkedAppend(items, item);
    }

    method Append(last: Item?, item: Item)
      requires Shape() && item !in where && item.data == null && item.next == null
      requires last == if items == [] then null else items[|items| - 1]
      modifies this`data, this`items, this`where, items`next
      ensures Shape() && items == old(items) + [item]
      ensures where == old(where)[item := AtItem(|old(items)|)]
    {
      hide PlacesOk, Linked, BlocksOk, CellsOk;
      PlaceItem(where, items, tables, blocks, item);
      LinkLast(last, item);
      TablesAppend(items, tables, qset, item);
      where := where[item := AtItem(|items|)];
      items := items + [item];
    }

    // The item behind item k, added if there is none.
    method NextItem(qs: Item, ghost k: nat) returns (next: Item?)
      requires Sound() && k < |items| && qs == items[k]
      modifies this`data, this`items, this`where, items`next, mem
      ensures Shape() && Allocated(old(where.Keys), old(mem.live))
      ensures mem.refused == old(mem.refused) + if next == null then 1 else 0
      ensures if next == null then items == old(items) && k + 1 == |items|
              else k + 1 < |items| && next == items[k + 1]
      ensures items == old(items) || (next != null && fresh(next) && items == old(items) + [next])
      ensures k + 1 < |old(items)| ==> next != null && items == old(items)
    {
      next := qs.next;
      if next == null {
        next := mem.NewItem();
        if next != null {
          Append(qs, next);
        }
      }
    }

    // The loop of scull_follow.
    method Walk(first: Item, n: nat) returns (qs: Item?)
      requires Sound() && items != [] && first == items[0]
      modifies this`data, this`items, this`where, items`next, mem
      ensures Shape() && Allocated(old(where.Keys), old(mem.live))
      ensures mem.refused == old(mem.refused) + if qs == null then 1 else 0
      ensures old(items) <= items && FreshItems(old(|items|)) && (items == old(items) || |items| <= n + 1)
      ensures qs != null ==> n < |items| && qs == items[n]
      ensures n < |old(items)| ==> qs != null && items == old(items)
    {
      hide Shape;
      qs := first;
      var k := 0;
      while k < n && qs != null
        invariant k <= n && (qs != null ==> k < |items| && qs == items[k])
        invariant mem.refused == old(mem.refused) + if qs == null then 1 else 0
        invariant Shape() && Allocated(old(where.Keys), old(mem.live))
        invariant old(items) <= items && FreshItems(old(|items|)) && (items == old(items) || |items| <= k + 1)
        invariant n < |old(items)| ==> qs != null && items == old(items)
      {
        ghost var live, owned := old(mem.live), where.Keys;
        qs := NextItem(qs, k);
        UnionGrows(live, owned, where.Keys);
        k := k + 1;
      }
    }

    twostate predicate FreshItems(n: nat)
      reads this
    {
      forall i: nat :: n <= i < |items| ==> fresh(items[i])
    }

    // scull_follow: walk to item n, adding empty items at the end where needed.
    method Follow(n: nat) returns (qs: Item?)
      requires Sound()
      modifies this`data, this`items, this`where, items`next, mem
      ensures Sound() && old(items) <= items && Allocated(old(where.Keys), old(mem.live))
      ensures mem.refused == old(mem.refused) + if qs == null then 1 else 0
      ensures FreshItems(old(|items|)) && (items == old(items) || |items| <= n + 1)
      ensures qs != null ==> n < |items| && qs == items[n]
      ensures n < |old(items)| ==> qs != null && items == old(items)
    {
      qs := data;
      if qs == null {
        qs := mem.NewItem();
        if qs == null {
          return;
        }
        Append(null, qs);
      }
      ghost var live, owned := old(mem.live), where.Keys;
      qs := Walk(qs, n);
      UnionGrows(live, owned, where.Keys);
    }

    // ---- write ----

    // Hang a fresh, empty array on an item.
    method HangTable(qs: Item, item: nat, table: Table)
      requires TablesOk(items, tables, qset) && item < |items| && qs == items[item] && item !in tables
      requires table.Length == qset && forall i: nat :: i < |items| && items[i] == qs ==> i == item
      modifies qs`data
      ensures TablesOk(items, tables[item := table], qset)
    {
      qs.data := table;
    }

    method AddTable(qs: Item, item: nat, table: Table)
      requires Shape() && item < |items| && qs == items[item] && item !in tables
      requires table !in where && table.Length == qset
      requires forall s :: 0 <= s < qset ==> table[s] == null
      modifies qs`data, this`tables, this`where
      ensures Shape() && tables == old(tables)[item := table]
      ensures where == old(where)[table := AtTable(item)]
    {
      hide PlacesOk, Linked, CellsOk;
      PlaceTable(where, items, tables, blocks, item, table);
      HangTable(qs, item, table);
      where := where[table := AtTable(item)];
      tables := tables[item := table];
    }

    // Hang a fresh quantum into an empty slot.
    method HangBlock(table: Table, k: Key, block: Block)
      requires (forall i <- tables :: tables[i].Length == qset) && BlocksOk(tables, blocks, quantum, qset)
      requires k.0 in tables && table == tables[k.0] && k.1 < qset && k !in blocks && block.Length == quantum
      requires forall i <- tables :: tables[i] == table ==> i == k.0
      modifies table
      ensures BlocksOk(tables, blocks[k := block], quantum, qset)
    {
      table[k.1] := block;
    }

    method AddBlock(table: Table, k: Key, block: Block)
      requires Shape() && k.0 in tables && table == tables[k.0] && k.1 < qset && k !in blocks
      requires block !in where && block.Length == quantum
      modifies table, this`blocks, this`where
      ensures Shape() && blocks == old(blocks)[k := block]
      ensures where == old(where)[block := AtBlock(k)]
    {
      hide PlacesOk, Linked;
      PlaceBlock(where, items, tables, blocks, k, block);
      HangBlock(table, k, block);
      where := where[block := AtBlock(k)];
      blocks := blocks[k := block];
    }

    // copy_from_user into a quantum.
    method CopyFromUser(block: Block, at: nat, data: seq<byte>)
      requires at + |data| <= block.Length
      modifies block
      ensures forall i :: 0 <= i < block.Length ==>
        block[i] == if at <= i < at + |data| then data[i - at] else old(block[i])
    {
      for n := 0 to |data|
        invariant forall i :: 0 <= i < block.Length ==>
          block[i] == if at <= i < at + n then data[i - at] else old(block[i])
      {
        block[at + n] := data[n];
      }
    }

    // Put bytes into a quantum that is there.
    method FillCells(block: Block, k: Key, at: nat, chunk: seq<byte>)
      requires (forall l <- blocks :: blocks[l].Length == quantum) && CellsOk(cells, blocks, quantum)
      requires k in blocks && block == blocks[k] && at + |chunk| <= quantum
      requires forall l <- blocks :: blocks[l] == block ==> l == k
      modifies block
      ensures CellsOk(PatchCells(cells, k, at, chunk), blocks, quantum)
      ensures old(ZeroBeside(cells, blocks)) ==> ZeroBeside(PatchCells(cells, k, at, chunk), blocks)
    {
      CopyFromUser(block, at, chunk);
    }

    lemma BlockApart(k: Key)
      requires Shape() && k in blocks
      ensures forall l <- blocks :: blocks[l] == blocks[k] ==> l == k
      ensures forall i <- tables :: tables[i] as object != blocks[k]
    {
      assert where[blocks[k]] == AtBlock(k);
    }

    method StoreCells(block: Block, k: Key, at: nat, chunk: seq<byte>)
      requires Shape() && k in blocks && block == blocks[k] && at + |chunk| <= quantum
      modifies block, this`cells
      ensures Shape() && cells == PatchCells(old(cells), k, at, chunk)
      ensures old(Cleared()) ==> Cleared()
    {
      BlockApart(k);
      FillCells(block, k, at, chunk);
      cells := PatchCells(cells, k, at, chunk);
    }

    // The array of an item, allocated if need be.
    method EnsureTable(qs: Item, item: nat) returns (table: MaybeTable)
      requires Sound() && item < |items| && qs == items[item]
      modifies qs`data, this`tables, this`where, mem
      ensures Sound() && Allocated(old(where.Keys), old(mem.live))
      ensures mem.refused == old(mem.refused) + if table == null then 1 else 0
      ensures if table == null then tables == old(tables) && item !in tables
              else item in tables && table == tables[item]
      ensures item in old(tables) ==> tables == old(tables)
      ensures item !in old(tables) && table != null ==> tables == old(tables)[item := table] && fresh(table)
    {
      table := qs.data;
      if table == null {
        table := mem.NewTable(qset);
        if table != null {
          AddTable(qs, item, table);
        }
      }
    }

    lemma SlotHolds(table: Table, k: Key)
      requires Shape() && k.0 in tables && table == tables[k.0] && k.1 < qset
      ensures k.1 < table.Length && table[k.1] == if k in blocks then blocks[k] else null
      ensures forall l <- blocks :: blocks[l] as object != table
    {
    }

    lemma NoItemNoTable(i: nat)
      requires Shape() && |items| <= i
      ensures i !in tables
    {
    }

    lemma NoTableNoBlock(k: Key)
      requires Shape() && k.0 !in tables
      ensures k !in blocks
    {
    }

    method ZeroFill(block: Block)
      modifies block
      ensures forall i :: 0 <= i < block.Length ==> block[i] == 0
    {
      for n := 0 to block.Length
        invariant forall i :: 0 <= i < n ==> block[i] == 0
      {
        block[n] := 0;
      }
    }

    // The quantum in a slot, allocated, and on request cleared, if need be.
    method EnsureBlock(table: Table, k: Key, clear: bool) returns (block: array?<byte>)
      requires Sound() && k.0 in tables && table == tables[k.0] && k.1 < qset
      modifies table, this`blocks, this`where, mem
      ensures Sound() && Allocated(old(where.Keys), old(mem.live))
      ensures mem.refused == old(mem.refused) + if block == null then 1 else 0
      ensures AddedAt(old(blocks), blocks, k)
      ensures if block == null then k !in blocks else k in blocks && block == blocks[k]
      ensures k !in old(blocks) && block != null ==> fresh(block)
      ensures clear && old(Cleared()) ==> Cleared()
    {
      hide Shape;
      SlotHolds(table, k);
      block := table[k.1];
      if block == null {
        block := mem.NewBlock(quantum);
        if block != null {
          if clear {
            ZeroFill(block);
          }
          AddBlock(table, k, block);
        }
      }
    }

    // The array of an item, with everything on the way allocated if need be.
    method ReachTable(item: nat) returns (table: MaybeTable)
      requires Sound()
      modifies this`data, this`items, this`tables, this`where, items, mem
      ensures Sound() && Allocated(old(where.Keys), old(mem.live)) && old(items) <= items
      ensures mem.refused == old(mem.refused) + if table == null then 1 else 0
      ensures table != null ==> item in tables && table == tables[item] && (table in old(tables.Values) || fresh(table))
      ensures table == null ==> item !in tables
    {
      hide Shape;
      if |items| <= item {
        NoItemNoTable(item);
      }
      table := null;
      ghost var live, start := mem.live, where.Keys;
      var qs := Follow(item);
      if qs != null {
        ghost var owned := where.Keys;
        table := EnsureTable(qs, item);
        UnionGrows(live, owned, where.Keys);
        assert fresh(where.Keys - start);
      }
    }

    // The quantum for a slot of an item, likewise.
    method Reach(k: Key, clear: bool) returns (block: array?<byte>)
      requires Sound() && k.1 < qset
      modifies this`data, this`items, this`tables, this`blocks, this`where, items, tables.Values, mem
      ensures Sound() && Allocated(old(where.Keys), old(mem.live)) && old(items) <= items
      ensures mem.refused == old(mem.refused) + if block == null then 1 else 0
      ensures AddedAt(old(blocks), blocks, k)
      ensures if block == null then k !in blocks else k in blocks && block == blocks[k]
      ensures k !in old(blocks) && block != null ==> fresh(block)
      ensures clear && old(Cleared()) ==> Cleared()
    {
      hide Shape, Cleared;
      block := null;
      ghost var live := mem.live;
      var table := ReachTable(k.0);
      if table != null {
        ghost var owned := where.Keys;
        block := EnsureBlock(table, k, clear);
        UnionGrows(live, owned, where.Keys);
      } else {
        NoTableNoBlock(k);
      }
    }

    // The write, in coordinates: reach the quantum, then copy.
    method WriteCells(k: Key, at: nat, chunk: seq<byte>, copyOk: bool, clear: bool) returns (r: WriteResult)
      requires Sound() && k.1 < qset && at + |chunk| <= quantum
      modifies this`data, this`items, this`tables, this`blocks, this`where, this`cells
      modifies items, tables.Values, blocks.Values, mem
      ensures Sound() && Allocated(old(where.Keys), old(mem.live)) && old(items) <= items
      ensures mem.refused == old(mem.refused) + if r.NoMemory? then 1 else 0
      ensures AddedAt(old(blocks), blocks, k)
      ensures r == if k !in blocks then NoMemory else if copyOk then Wrote(|chunk|) else WriteFault
      ensures cells == if r.Wrote? then PatchCells(old(cells), k, at, chunk) else old(cells)
      ensures clear && old(Cleared()) ==> Cleared()
    {
      hide Shape;
      var block := Reach(k, clear);
      if block == null {
        r := NoMemory;
      } else if !copyOk {
        r := WriteFault;
      } else {
        StoreCells(block, k, at, chunk);
        r := Wrote(|chunk|);
      }
    }

    // How much one write or read moves: all of it, or up to the end of the quantum.
    function Chunk(count: nat, off: nat): (n: nat)
      requires 0 < quantum && 0 < qset
      reads this
      ensures n <= count && PosOf(off, quantum, qset) + n <= quantum
      ensures n == count || PosOf(off, quantum, qset) + n == quantum
      ensures count > 0 ==> n > 0
    {
      Recompose(off, quantum, qset);
      var room := quantum - PosOf(off, quantum, qset);
      if count > room then room else count
    }

    // Account for a chunk that has been stored.
    method Record(off: nat, chunk: seq<byte>)
      requires Sound() && Matches(Patch(bytes, off, chunk), cells, quantum, qset)
      requires forall o <- bytes :: o < size
      modifies this`bytes, this`size
      ensures Valid() && bytes == Patch(old(bytes), off, chunk)
      ensures size == if old(size) < off + |chunk| then off + |chunk| else old(size)
    {
      hide Shape;
      bytes := Patch(bytes, off, chunk);
      if size < off + |chunk| {
        size := off + |chunk|;
      }
    }

    // scull_write.  It fails only if an allocation has been refused or for a bad buffer, and then leaves the contents
    // and the size as they were, whatever it has allocated on the way.  The pages of scullp are cleared.
    method ScullWrite(buf: seq<byte>, off: nat, copyOk: bool, clear: bool) returns (r: WriteResult)
      requires Valid()
      modifies this`data, this`items, this`tables, this`blocks, this`where, this`cells, this`bytes, this`size
      modifies items, tables.Values, blocks.Values, mem
      ensures Valid() && Allocated(old(where.Keys), old(mem.live)) && old(items) <= items
      ensures mem.refused == old(mem.refused) + if r.NoMemory? then 1 else 0
      ensures var k := KeyOf(off, quantum, qset);
              && AddedAt(old(blocks), blocks, k)
              && (r.NoMemory? <==> k !in blocks) && (r.WriteFault? <==> k in blocks && !copyOk)
      ensures r.Wrote? ==> r.n <= |buf| && PosOf(off, quantum, qset) + r.n <= quantum
      ensures r.Wrote? ==> r.n == |buf| || PosOf(off, quantum, qset) + r.n == quantum
      ensures r.Wrote? ==> bytes == Patch(old(bytes), off, buf[..r.n])
      ensures !r.Wrote? ==> bytes == old(bytes)
      ensures size == if r.Wrote? && old(size) < off + r.n then off + r.n else old(size)
      ensures clear && old(Cleared()) ==> Cleared()
    {
      hide Shape, Cleared, PatchCells;
      Recompose(off, quantum, qset);
      var chunk := buf[..Chunk(|buf|, off)];
      PatchKeepsMatch(bytes, cells, off, chunk, quantum, qset);
      r := WriteCells(KeyOf(off, quantum, qset), PosOf(off, quantum, qset), chunk, copyOk, clear);
      if r.Wrote? {
        Record(off, chunk);
      }
    }

    // ---- read ----

    // The quantum for a slot of an item, or null at a hole; nothing but empty items is added.
    method Find(k: Key) returns (block: array?<byte>)
      requires Sound() && k.1 < qset
      modifies this`data, this`items, this`where, items`next, mem
      ensures Sound() && Allocated(old(where.Keys), old(mem.live)) && old(items) <= items
      ensures if k in blocks then block == blocks[k] else block == null
    {
      block := null;
      var dptr := Follow(k.0);
      if dptr != null {
        var table := dptr.data;
        if table != null {
          block := table[k.1];
        }
      }
    }

    // What a quantum holds is what has been written at its offsets.
    lemma WrittenBytes(block: Block, off: nat, i: nat)
      requires Valid() && KeyOf(off, quantum, qset) in blocks && block == blocks[KeyOf(off, quantum, qset)]
      requires PosOf(off, quantum, qset) + i < quantum && off + i in bytes
      ensures block[PosOf(off, quantum, qset) + i] == bytes[off + i]
    {
      WithinQuantum(off, i, quantum, qset);
      assert CellOf(off + i, quantum, qset) in cells;
    }

    // The answer to a read of so many bytes: all of them, or those up to the end of the quantum; and at
    // every offset that has been written, the byte last written there.
    ghost predicate ReadsBack(answer: seq<byte>, wanted: nat, off: nat)
      requires 0 < quantum && 0 < qset
      reads this
    {
      && |answer| <= wanted && PosOf(off, quantum, qset) + |answer| <= quantum
      && (|answer| == wanted || PosOf(off, quantum, qset) + |answer| == quantum)
      && forall i :: 0 <= i < |answer| && off + i in bytes ==> answer[i] == bytes[off + i]
    }

    // copy_to_user from a quantum.
    method CopyToUser(block: Block, wanted: nat, off: nat) returns (answer: seq<byte>)
      requires Valid() && KeyOf(off, quantum, qset) in blocks && block == blocks[KeyOf(off, quantum, qset)]
      ensures ReadsBack(answer, wanted, off)
      ensures PosOf(off, quantum, qset) + |answer| <= block.Length
      ensures answer == block[PosOf(off, quantum, qset)..PosOf(off, quantum, qset) + |answer|]
    {
      var at, n := PosOf(off, quantum, qset), Chunk(wanted, off);
      answer := block[at..at + n];
      forall i | 0 <= i < n
        ensures off + i in bytes ==> answer[i] == bytes[off + i]
      {
        if off + i in bytes {
          WrittenBytes(block, off, i);
        }
      }
    }

    // scull_read.  It stops at the end of the data, at a hole and at the end of a quantum, gives
    // back what was written, and changes nothing that a reader could see.
    method ScullRead(count: nat, off: nat, copyOk: bool) returns (r: ReadResult)
      requires Valid()
      modifies this`data, this`items, this`where, items`next, mem
      ensures Valid() && Allocated(old(where.Keys), old(mem.live)) && old(items) <= items
      ensures off >= size || KeyOf(off, quantum, qset) !in blocks ==> r == Data([])
      ensures off < size && KeyOf(off, quantum, qset) in blocks ==>
        if copyOk
        then r.Data? && ReadsBack(r.bytes, if off + count > size then size - off else count, off)
        else r == ReadFault
    {
      hide Shape;
      r := Data([]);
      if off < size {
        Recompose(off, quantum, qset);
        var block := Find(KeyOf(off, quantum, qset));
        if block != null {
          if copyOk {
            var answer := CopyToUser(block, if off + count > size then size - off else count, off);
            r := Data(answer);
          } else {
            r := ReadFault;
          }
        }
      }
    }

    // ---- trim ----

    // What has been freed when item j comes next, and its slots before s are done.
    ghost predicate FreedUpTo(freed: set<object>, j: nat, s: nat)
      reads this
    {
      && freed <= where.Keys
      && forall o <- where ::
           o in freed <==> Home(where[o]) < j || (where[o].AtBlock? && where[o].k.0 == j && where[o].k.1 < s)
    }

    // The next slot.
    lemma SlotToFree(table: Table, j: nat, s: nat, freed: set<object>)
      requires PlacesOk(where, items, tables, blocks) && j in tables && table == tables[j] && s < qset
      requires (forall i <- tables :: tables[i].Length == qset) && BlocksOk(tables, blocks, quantum, qset)
      requires FreedUpTo(freed, j, s)
      ensures if table[s] == null then FreedUpTo(freed, j, s + 1)
              else table[s] in where && table[s] !in freed && FreedUpTo(freed + {table[s]}, j, s + 1)
    {
      if table[s] != null {
        assert (j, s) in blocks && where[blocks[(j, s)]] == AtBlock((j, s));
      }
    }

    // The inner loop of scull_trim.
    method FreeSlots(table: Table, ghost j: nat, ghost freed: set<object>) returns (ghost after: set<object>)
      requires PlacesOk(where, items, tables, blocks) && j in tables && table == tables[j]
      requires (forall i <- tables :: tables[i].Length == qset) && BlocksOk(tables, blocks, quantum, qset)
      requires FreedUpTo(freed, j, 0) && where.Keys - freed <= mem.live
      modifies mem
      ensures FreedUpTo(after, j, qset) && freed <= after && mem.live == old(mem.live) - (after - freed)
    {
      hide FreedUpTo, PlacesOk, BlocksOk;
      after := freed;
      for s := 0 to qset
        invariant FreedUpTo(after, j, s) && freed <= after && mem.live == old(mem.live) - (after - freed)
      {
        SlotToFree(table, j, s, after);
        var block := table[s];
        mem.Free(block);
        if block != null {
          after := after + {block};
        }
      }
    }

    // The body of scull_trim's loop: every quantum of one item, its array, and then the item.
    method FreeData(dptr: Item, ghost j: nat, ghost freed: set<object>) returns (ghost after: set<object>)
      requires PlacesOk(where, items, tables, blocks) && j < |items| && dptr == items[j]
      requires dptr.data == if j in tables then tables[j] else null
      requires (forall i <- tables :: tables[i].Length == qset) && BlocksOk(tables, blocks, quantum, qset)
      requires FreedUpTo(freed, j, 0) && where.Keys - freed <= mem.live
      modifies dptr`data, mem
      ensures FreedUpTo(after + {dptr}, j + 1, 0) && dptr !in after && freed <= after && dptr.data == null
      ensures mem.live == old(mem.live) - (after - freed)
    {
      after := freed;
      var table := dptr.data;
      if table != null {
        after := FreeSlots(table, j, freed);
        mem.Free(table);
        after := after + {table};
        dptr.data := null;
      }
    }

    // Everything from item j on can still be freed.
    ghost predicate Freeable(freed: set<object>, j: nat)
      reads this, items, tables.Values, mem
    {
      && PlacesOk(where, items, tables, blocks) && Linked(items)
      && (forall i: nat {:trigger items[i].data} :: j <= i < |items| ==>
            items[i].data == if i in tables then tables[i] else null)
      && (forall i <- tables :: tables[i].Length == qset) && BlocksOk(tables, blocks, quantum, qset)
      && FreedUpTo(freed, j, 0) && where.Keys - freed <= mem.live
    }

    method FreeItem(dptr: Item, ghost j: nat, ghost freed: set<object>)
        returns (next: Item?, ghost after: set<object>)
      requires Freeable(freed, j) && j < |items| && dptr == items[j]
      modifies dptr`data, mem
      ensures Freeable(after, j + 1) && next == Following(items, j)
      ensures freed <= after && mem.live == old(mem.live) - (after - freed)
    {
      assert forall i: nat :: i < |items| && items[i] == dptr ==> i == j;
      after := FreeData(dptr, j, freed);
      next := dptr.next;
      mem.Free(dptr);
      after := after + {dptr};
    }

    // The loop of scull_trim: exactly what the device has allocated is freed, each object once.
    method FreeAll()
      requires Valid()
      modifies items`data, mem
      ensures mem.live == old(mem.live) - where.Keys
    {
      var dptr := data;
      ghost var freed: set<object> := {};
      ghost var j := 0;
      while dptr != null
        invariant j <= |items| && dptr == if j < |items| then items[j] else null
        invariant Freeable(freed, j) && mem.live == old(mem.live) - freed
        decreases |items| - j
      {
        dptr, freed := FreeItem(dptr, j, freed);
        j := j + 1;
      }
      assert freed == where.Keys;
    }

    method Clear(quantum: nat, qset: nat)
      requires 0 < quantum && 0 < qset
      modifies this
      ensures Valid() && where == map[] && items == [] && bytes == map[] && blocks == map[] && size == 0
      ensures this.quantum == quantum && this.qset == qset
    {
      size, this.quantum, this.qset, data := 0, quantum, qset, null;
      where, items, tables, blocks, cells, bytes := map[], [], map[], map[], map[], map[];
    }

    // scull_trim.  This is the one place where the device takes over the current geometry.
    method ScullTrim(params: Params)
      requires Valid() && params.Positive()
      modifies this, items`data, mem
      ensures Valid() && where == map[] && bytes == map[] && blocks == map[] && size == 0
      ensures quantum == params.quantum && qset == params.qset
      ensures mem.live == old(mem.live) - old(where.Keys)
    {
      FreeAll();
      Clear(params.quantum, params.qset);
    }
  }
}
