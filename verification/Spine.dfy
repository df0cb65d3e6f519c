/**
 The storage that the scull devices share: a linked list of items, each with an array of
 pointers to blocks of bytes.  Ghost mirrors name what is linked where: the items in order,
 the arrays by item number, the blocks by item number and slot.
 */
module Spine {
  import opened Ring
  import opened Geometry

  type Block = array<byte>
  type Table = array<array?<byte>>
  type MaybeTable = array?<array?<byte>>

  class Item {
    var data: MaybeTable
    var next: Item?

    constructor ()
      ensures data == null && next == null
    {
      data, next := null, null;
    }
  }

  // kmalloc and kfree, with the set of what is allocated.  An allocation may be refused.
  class Allocator {
    ghost var live: set<object>
    ghost var refused: nat       // how many have been

    constructor ()
      ensures live == {} && refused == 0
    {
      live, refused := {}, 0;
    }

    // Whether there is memory.
    method Asked() returns (memory: bool)
      modifies this`refused
      ensures refused == old(refused) + if memory then 0 else 1
    {
      memory := *;
      if !memory {
        refused := refused + 1;
      }
    }

    method NewItem() returns (item: Item?)
      modifies this
      ensures item == null ==> live == old(live)
      ensures refused == old(refused) + if item == null then 1 else 0
      ensures item != null ==>
        fresh(item) && item !in old(live) && live == old(live) + {item} && item.data == null && item.next == null
    {
      ghost var before := live;
      var memory := Asked();
      item := null;
      if memory {
        item := new Item();
        live := live + {item};
      }
    }

    method NewTable(size: nat) returns (table: MaybeTable)
      modifies this
      ensures table == null ==> live == old(live)
      ensures refused == old(refused) + if table == null then 1 else 0
      ensures table != null ==>
        && fresh(table) && table !in old(live) && live == old(live) + {table} && table.Length == size
        && forall s :: 0 <= s < size ==> table[s] == null
    {
      var memory := Asked();
      table := null;
      if memory {
        table := new array?<byte>[size](_ => null);
        live := live + {table};
      }
    }

    method NewBlock(size: nat) returns (block: array?<byte>)
      modifies this
      ensures block == null ==> live == old(live)
      ensures refused == old(refused) + if block == null then 1 else 0
      ensures block != null ==>
        fresh(block) && block !in old(live) && live == old(live) + {block} && block.Length == size
    {
      var memory := Asked();
      block := null;
      if memory {
        block := new byte[size];
        live := live + {block};
      }
    }

    // Freeing what is not allocated is an error; freeing NULL is not.
    method Free(o: object?)
      requires o != null ==> o in live
      modifies this
      ensures live == old(live) - {o} && refused == old(refused)
    {
      live := live - {o};
    }
  }

  // What an allocated object is used for.
  datatype Place = AtItem(i: nat) | AtTable(i: nat) | AtBlock(k: Key)

  // The objects in use and their places determine each other; so no two places share an object.
  ghost predicate PlacesOk(where: map<object, Place>, items: seq<Item>, tables: map<nat, Table>,
                           blocks: map<Key, Block>)
  {
    && (forall i: nat :: i < |items| ==> items[i] in where && where[items[i]] == AtItem(i))
    && (forall i <- tables :: tables[i] in where && where[tables[i]] == AtTable(i))
    && (forall k <- blocks :: blocks[k] in where && where[blocks[k]] == AtBlock(k))
    && (forall o <- where :: InPlace(o, where[o], items, tables, blocks))
  }

  ghost predicate InPlace(o: object, p: Place, items: seq<Item>, tables: map<nat, Table>, blocks: map<Key, Block>) {
    match p
    case AtItem(i) => i < |items| && items[i] == o
    case AtTable(i) => i in tables && tables[i] == o
    case AtBlock(k) => k in blocks && blocks[k] == o
  }

  // The number of the item that an object belongs to.
  function Home(p: Place): nat {
    match p
    case AtItem(i) => i
    case AtTable(i) => i
    case AtBlock(k) => k.0
  }

  lemma PlaceItem(where: map<object, Place>, items: seq<Item>, tables: map<nat, Table>, blocks: map<Key, Block>,
                  item: Item)
    requires PlacesOk(where, items, tables, blocks) && item !in where
    ensures PlacesOk(where[item := AtItem(|items|)], items + [item], tables, blocks)
    ensures item !in items && forall i, j :: 0 <= i < j < |items| ==> items[i] != items[j]
  {
    var more := items + [item];
    assert forall i: nat :: i < |items| ==> more[i] == items[i];
  }

  lemma PlaceTable(where: map<object, Place>, items: seq<Item>, tables: map<nat, Table>, blocks: map<Key, Block>,
                   i: nat, table: Table)
    requires PlacesOk(where, items, tables, blocks) && table !in where && i !in tables && i < |items|
    ensures PlacesOk(where[table := AtTable(i)], items, tables[i := table], blocks)
    ensures forall j: nat :: j < |items| && items[j] == items[i] ==> j == i
  {
  }

  lemma PlaceBlock(where: map<object, Place>, items: seq<Item>, tables: map<nat, Table>, blocks: map<Key, Block>,
                   k: Key, block: Block)
    requires PlacesOk(where, items, tables, blocks) && block !in where && k !in blocks && k.0 in tables
    ensures PlacesOk(where[block := AtBlock(k)], items, tables, blocks[k := block])
    ensures forall i <- tables :: tables[i] == tables[k.0] ==> i == k.0
    ensures forall l <- blocks :: blocks[l] as object != tables[k.0]
  {
  }

  function Following(items: seq<Item>, i: nat): Item?
    requires i < |items|
  {
    if i + 1 < |items| then items[i + 1] else null
  }

  ghost predicate Linked(items: seq<Item>)
    reads items`next
  {
    forall i {:trigger items[i].next} :: 0 <= i < |items| ==> items[i].next == Following(items, i)
  }

  lemma LinkedAppend(items: seq<Item>, item: Item)
    requires item.next == null
    requires forall i {:trigger items[i].next} :: 0 <= i < |items| - 1 ==> items[i].next == Following(items, i)
    requires items != [] ==> items[|items| - 1].next == item
    ensures Linked(items + [item])
  {
    var more := items + [item];
    forall i | 0 <= i < |more|
      ensures more[i].next == Following(more, i)
    {
      if i < |items| - 1 {
        assert items[i].next == Following(items, i);
      }
    }
  }

  lemma TablesAppend(items: seq<Item>, tables: map<nat, Table>, qset: nat, item: Item)
    requires TablesOk(items, tables, qset) && item.data == null
    ensures TablesOk(items + [item], tables, qset)
  {
    var more := items + [item];
    assert forall i: nat :: i < |items| ==> more[i] == items[i];
  }

  // The items' pointers to their arrays, null where there is none.
  ghost predicate TablesOk(items: seq<Item>, tables: map<nat, Table>, qset: nat)
    reads items`data
  {
    && (forall i <- tables :: i < |items| && tables[i].Length == qset)
    && (forall i: nat {:trigger items[i].data} :: i < |items| ==>
          items[i].data == if i in tables then tables[i] else null)
  }

  // The arrays' pointers to their quanta, null where there is none.
  ghost predicate BlocksOk(tables: map<nat, Table>, blocks: map<Key, Block>, quantum: nat, qset: nat)
    requires forall i <- tables :: tables[i].Length == qset
    reads tables.Values
  {
    && (forall k <- blocks :: k.0 in tables && k.1 < qset && blocks[k].Length == quantum)
    && (forall i: nat, s: nat {:trigger tables[i][s]} :: i in tables && s < qset ==>
          tables[i][s] == if (i, s) in blocks then blocks[(i, s)] else null)
  }

  type Cell = (Key, nat)

  // What is known of the blocks' contents, by block and position.
  ghost predicate CellsOk(cells: map<Cell, byte>, blocks: map<Key, Block>, quantum: nat)
    requires forall k <- blocks :: blocks[k].Length == quantum
    reads blocks.Values
  {
    forall c <- cells :: c.0 in blocks && c.1 < quantum && blocks[c.0][c.1] == cells[c]
  }

  // Where nothing is known, the blocks hold zeros.
  ghost predicate ZeroBeside(cells: map<Cell, byte>, blocks: map<Key, Block>)
    reads blocks.Values
  {
    forall k <- blocks, p: nat {:trigger blocks[k][p]} ::
      p < blocks[k].Length && (k, p) !in cells ==> blocks[k][p] == 0
  }

  function CellOf(off: nat, quantum: nat, qset: nat): Cell
    requires 0 < quantum && 0 < qset
  {
    (KeyOf(off, quantum, qset), PosOf(off, quantum, qset))
  }

  // The same knowledge, as a plain map from offsets to bytes.
  ghost predicate Matches(bytes: map<nat, byte>, cells: map<Cell, byte>, quantum: nat, qset: nat)
    requires 0 < quantum && 0 < qset
  {
    && (forall off <- bytes :: CellOf(off, quantum, qset) in cells && cells[CellOf(off, quantum, qset)] == bytes[off])
    && (forall off: nat :: CellOf(off, quantum, qset) in cells ==> off in bytes)
  }

  predicate Within(off: nat, at: nat, n: nat) {
    at <= off < at + n
  }

  // Storing data at an offset.
  function Patch(bytes: map<nat, byte>, at: nat, data: seq<byte>): (patched: map<nat, byte>)
    ensures forall off :: off in patched <==> off in bytes || at <= off < at + |data|
    ensures forall off <- patched :: patched[off] == if at <= off < at + |data| then data[off - at] else bytes[off]
  {
    bytes + map off: nat | at <= off < at + |data| && Within(off, at, |data|) :: data[off - at]
  }

  // Storing data in one block.
  function PatchCells(cells: map<Cell, byte>, k: Key, at: nat, data: seq<byte>): (patched: map<Cell, byte>)
    ensures forall c: Cell :: c in patched <==> c in cells || (c.0 == k && at <= c.1 < at + |data|)
    ensures forall c: Cell <- patched ::
      patched[c] == if c.0 == k && at <= c.1 < at + |data| then data[c.1 - at] else cells[c]
  {
    cells + map i: nat | at <= i < at + |data| && Within(i, at, |data|) :: (k, i) := data[i - at]
  }

  // Which offsets fall into a stretch of one block.
  lemma StretchOfBlock(off: nat, n: nat, o: nat, quantum: nat, qset: nat)
    requires 0 < quantum && 0 < qset && PosOf(off, quantum, qset) + n <= quantum
    ensures var k, at := KeyOf(off, quantum, qset), PosOf(off, quantum, qset);
            var c := CellOf(o, quantum, qset);
            (off <= o < off + n <==> c.0 == k && at <= c.1 < at + n) &&
            (off <= o < off + n ==> c == (k, at + (o - off)))
  {
    var k, at := KeyOf(off, quantum, qset), PosOf(off, quantum, qset);
    var c := CellOf(o, quantum, qset);
    if off <= o < off + n {
      WithinQuantum(off, o - off, quantum, qset);
    } else if c.0 == k && at <= c.1 < at + n {
      WithinQuantum(off, c.1 - at, quantum, qset);
      SameCell(o, off + (c.1 - at), quantum, qset);
    }
  }

  // Storing inside one quantum is storing at the offset: seen at one offset, and then at all.
  lemma PatchMatchesAt(bytes: map<nat, byte>, cells: map<Cell, byte>, off: nat, data: seq<byte>,
                       quantum: nat, qset: nat, o: nat)
    requires 0 < quantum && 0 < qset && Matches(bytes, cells, quantum, qset)
    requires PosOf(off, quantum, qset) + |data| <= quantum
    ensures var patched := Patch(bytes, off, data);
            var stored := PatchCells(cells, KeyOf(off, quantum, qset), PosOf(off, quantum, qset), data);
            var c := CellOf(o, quantum, qset);
            (o in patched <==> c in stored) && (o in patched ==> stored[c] == patched[o])
  {
    hide KeyOf, PosOf, Patch, PatchCells;
    StretchOfBlock(off, |data|, o, quantum, qset);
  }

  lemma PatchKeepsMatch(bytes: map<nat, byte>, cells: map<Cell, byte>, off: nat, data: seq<byte>,
                        quantum: nat, qset: nat)
    requires 0 < quantum && 0 < qset && Matches(bytes, cells, quantum, qset)
    requires PosOf(off, quantum, qset) + |data| <= quantum
    ensures Matches(Patch(bytes, off, data),
                    PatchCells(cells, KeyOf(off, quantum, qset), PosOf(off, quantum, qset), data), quantum, qset)
  {
    hide CellOf, Patch, PatchCells;
    forall o: nat {
      PatchMatchesAt(bytes, cells, off, data, quantum, qset, o);
    }
  }
}
