/** The catalogue of the storage manager: tables with their schemas and indexes, in memory and back. */
module Catalogue {
  import opened Memory
  import opened Words
  import opened Schemas
  import HI = HashIndex

  datatype TableV = TableV(tableId: nat, secondaryCount: nat, schema: Schema, index: HI.IndexHeader)

  /** GetSerializeSize of Table and of StorageManager; MAX_TABLES is kMaxTableNum. */
  const TABLE_SIZE: nat := 8 * 2 + SCHEMA_SIZE + HI.INDEX_SIZE
  const MAX_TABLES: nat := 16
  const CATALOGUE_SIZE: nat := 8 + MAX_TABLES * TABLE_SIZE

  ghost predicate ValidTable(t: TableV) {
    t.tableId < WORD && t.secondaryCount < WORD && ValidSchema(t.schema) && HI.ValidIndexHeader(t.index)
  }

  /** The table is in memory at a. */
  ghost predicate TableIn(m: Mem, a: GAddr, t: TableV)
    requires ValidTable(t)
  {
    && Load(m, a, 16) == Bytes([t.tableId, t.secondaryCount])
    && SchemaIn(m, Gadd(a, 16), t.schema)
    && Load(m, Gadd(a, 16 + SCHEMA_SIZE), HI.INDEX_SIZE) == HI.IndexBytes(t.index)
  }

  function TableAt(a: GAddr, i: nat): GAddr { Gadd(a, 8 + i * TABLE_SIZE) }

  ghost predicate ValidTables(ts: seq<TableV>) { |ts| < MAX_TABLES && forall i :: 0 <= i < |ts| ==> ValidTable(ts[i]) }

  /** The number of tables, and the first i of them, are in memory at a. */
  ghost predicate FirstIn(m: Mem, a: GAddr, ts: seq<TableV>, i: nat)
    requires ValidTables(ts) && i <= |ts|
  {
    Load(m, a, 8) == Bytes([|ts|]) && forall j: nat {:trigger TableAt(a, j)} :: j < i ==> TableIn(m, TableAt(a, j), ts[j])
  }

  ghost predicate CatalogueIn(m: Mem, a: GAddr, ts: seq<TableV>)
    requires ValidTables(ts)
  {
    FirstIn(m, a, ts, |ts|)
  }

  /** What lies elsewhere stays. */
  lemma TableKept(m: Mem, m': Mem, a: GAddr, n: nat, b: GAddr, t: TableV)
    requires ValidTable(t) && TableIn(m, b, t) && Outside(m, m', a, n) && Apart(a, n, b, TABLE_SIZE)
    ensures TableIn(m', b, t)
  {
    LoadOutside(m, m', a, n, b, 16);
    SchemaKept(m, m', a, n, Gadd(b, 16), t.schema);
    LoadOutside(m, m', a, n, Gadd(b, 16 + SCHEMA_SIZE), HI.INDEX_SIZE);
  }

  lemma SchemaKept(m: Mem, m': Mem, a: GAddr, n: nat, b: GAddr, s: Schema)
    requires ValidSchema(s) && SchemaIn(m, b, s) && Outside(m, m', a, n) && Apart(a, n, b, SCHEMA_SIZE)
    ensures SchemaIn(m', b, s)
  {
    LoadOutside(m, m', a, n, b, 272);
    LoadOutside(m, m', a, n, Gadd(b, 272), COLUMN_SIZE * s.columnCount);
  }

  /** Memory determines the table. */
  lemma TableUnique(m: Mem, a: GAddr, t: TableV, u: TableV)
    requires ValidTable(t) && ValidTable(u) && TableIn(m, a, t) && TableIn(m, a, u)
    ensures t == u
  {
    NumbersOf([t.tableId, t.secondaryCount]);
    NumbersOf([u.tableId, u.secondaryCount]);
    assert [t.tableId, t.secondaryCount][1] == [u.tableId, u.secondaryCount][1];
    SchemaUnique(m, Gadd(a, 16), t.schema, u.schema);
    HI.HeaderUnique(t.index, u.index);
  }

  /** Memory determines the whole catalogue: two catalogues that are both in memory at a are equal. */
  lemma CatalogueUnique(m: Mem, a: GAddr, ts: seq<TableV>, us: seq<TableV>)
    requires ValidTables(ts) && ValidTables(us) && CatalogueIn(m, a, ts) && CatalogueIn(m, a, us)
    ensures ts == us
  {
    NumbersOf([|ts|]);
    NumbersOf([|us|]);
    assert [|ts|][0] == [|us|][0];
    forall i: nat | i < |ts| ensures ts[i] == us[i] {
      assert TableIn(m, TableAt(a, i), ts[i]) && TableIn(m, TableAt(a, i), us[i]);
      TableUnique(m, TableAt(a, i), ts[i], us[i]);
    }
  }

  class Table {
    var tableId: nat
    var secondaryCount: nat
    var schema: RecordSchema?
    var index: HI.HashIndex?

    constructor ()
      ensures schema == null && index == null
    {
      tableId, secondaryCount, schema, index := 0, 0, null, null;
    }

    ghost predicate Complete()
      reads this, schema, index, if index == null then {} else {index.buckets}
    {
      schema != null && index != null && ValidTable(Value())
    }

    function Value(): TableV
      requires schema != null && index != null
      reads this, schema, index, index.buckets
    {
      TableV(tableId, secondaryCount, schema.Value(), index.Value())
    }

    method Serialize(addr: GAddr, g: GAlloc)
      requires Complete()
      modifies g`mem
      ensures TableIn(g.mem, addr, Value()) && Outside(old(g.mem), g.mem, addr, TABLE_SIZE)
    {
      ghost var m, v := g.mem, Value();
      StoreNothing(m, addr);
      var off := 0;
      Append(g, addr, off, [tableId], m, [], []);
      off := off + 8;
      assert [] + [tableId] == [tableId];
      Append(g, addr, off, [secondaryCount], m, [], [tableId]);
      off := off + 8;
      ghost var m1 := g.mem;
      schema.Serialize(Gadd(addr, off), g);
      ghost var m2 := g.mem;
      index.Serialize(Gadd(Gadd(addr, off), SCHEMA_SIZE), g);
      Written(m, m1, m2, g.mem, addr, v);
    }

    /** Reads what was serialized as v, into a new schema and a new index. */
    method Deserialize(addr: GAddr, g: GAlloc, ghost v: TableV)
      requires ValidTable(v) && TableIn(g.mem, addr, v)
      modifies this
      ensures schema != null && index != null && fresh(schema) && fresh(index) && fresh(index.buckets) && Value() == v
    {
      ghost var bs: seq<Byte>, ws := [], [v.tableId, v.secondaryCount];
      assert bs + Bytes(ws) == Bytes(ws);
      var id := Get(g, addr, 0, 1, bs, ws, 0);
      var count := Get(g, addr, 8, 1, bs, ws, 1);
      tableId, secondaryCount := id[0], count[0];
      var s := new RecordSchema(tableId);
      s.Deserialize(Gadd(addr, 16), g, v.schema);
      var i := new HI.HashIndex();
      assert Gadd(Gadd(addr, 16), SCHEMA_SIZE) == Gadd(addr, 16 + SCHEMA_SIZE);
      i.Deserialize(Gadd(Gadd(addr, 16), SCHEMA_SIZE), g, v.index);
      schema, index := s, i;
    }
  }

  /** The three parts of a table do not overwrite each other. */
  lemma Written(m: Mem, m1: Mem, m2: Mem, m3: Mem, addr: GAddr, v: TableV)
    requires ValidTable(v) && m1 == Store(m, addr, [] + Bytes([v.tableId] + [v.secondaryCount]))
    requires SchemaIn(m2, Gadd(addr, 16), v.schema) && Outside(m1, m2, Gadd(addr, 16), SCHEMA_SIZE)
    requires m3 == Store(m2, Gadd(Gadd(addr, 16), SCHEMA_SIZE), HI.IndexBytes(v.index))
    ensures TableIn(m3, addr, v) && Outside(m, m3, addr, TABLE_SIZE)
  {
    var head, at, index := Bytes([v.tableId] + [v.secondaryCount]), Gadd(Gadd(addr, 16), SCHEMA_SIZE), HI.IndexBytes(v.index);
    assert [] + head == head && [v.tableId] + [v.secondaryCount] == [v.tableId, v.secondaryCount];
    assert at == Gadd(addr, 16 + SCHEMA_SIZE) && |index| == HI.INDEX_SIZE;
    LoadStored(m, addr, head);
    LoadOutside(m1, m2, Gadd(addr, 16), SCHEMA_SIZE, addr, 16);
    StoreOutside(m2, at, index, HI.INDEX_SIZE);
    LoadOutside(m2, m3, at, HI.INDEX_SIZE, addr, 16);
    SchemaKept(m2, m3, at, HI.INDEX_SIZE, Gadd(addr, 16), v.schema);
    LoadStored(m2, at, index);
    StoreOutside(m, addr, head, TABLE_SIZE);
    OutsideInside(m1, m2, Gadd(addr, 16), SCHEMA_SIZE, addr, TABLE_SIZE);
    OutsideInside(m2, m3, at, HI.INDEX_SIZE, addr, TABLE_SIZE);
    OutsideTwice(m, m1, m2, addr, TABLE_SIZE);
    OutsideTwice(m, m2, m3, addr, TABLE_SIZE);
  }

  /** Writing the next table leaves the ones before it, and stays inside the catalogue. */
  lemma NextIn(m: Mem, m': Mem, a: GAddr, ts: seq<TableV>, i: nat)
    requires ValidTables(ts) && i < |ts| && FirstIn(m, a, ts, i)
    requires TableIn(m', TableAt(a, i), ts[i]) && Outside(m, m', TableAt(a, i), TABLE_SIZE)
    ensures FirstIn(m', a, ts, i + 1) && Outside(m, m', a, CATALOGUE_SIZE)
  {
    TablesApart(a, i, i);
    LoadOutside(m, m', TableAt(a, i), TABLE_SIZE, a, 8);
    forall j: nat | j < i + 1 ensures TableIn(m', TableAt(a, j), ts[j]) {
      if j < i {
        TablesApart(a, j, i);
        TableKept(m, m', TableAt(a, i), TABLE_SIZE, TableAt(a, j), ts[j]);
      }
    }
    OutsideInside(m, m', TableAt(a, i), TABLE_SIZE, a, CATALOGUE_SIZE);
  }

  /** Tables have ranges of their own, behind the count and within the size of the catalogue. */
  lemma TablesApart(a: GAddr, j: nat, i: nat)
    requires j <= i < MAX_TABLES
    ensures j < i ==> Apart(TableAt(a, i), TABLE_SIZE, TableAt(a, j), TABLE_SIZE)
    ensures Apart(TableAt(a, i), TABLE_SIZE, a, 8) && TableAt(a, i).node == a.node
    ensures a.addr <= TableAt(a, i).addr && TableAt(a, i).addr + TABLE_SIZE <= a.addr + CATALOGUE_SIZE
  {
    assert (j + 1) * TABLE_SIZE <= i * TABLE_SIZE || j == i;
    assert (i + 1) * TABLE_SIZE <= MAX_TABLES * TABLE_SIZE;
  }

  /** The table has this value. */
  ghost predicate IsTable(t: Table, v: TableV)
    reads t, t.schema, t.index, if t.index == null then {} else {t.index.buckets}
  {
    t.Complete() && t.Value() == v
  }

  class StorageManager {
    var tables: seq<Table>
    var tableCount: nat

    constructor ()
      ensures tables == [] && tableCount == 0
    {
      tables, tableCount := [], 0;
    }

    /** The tables have these values. */
    ghost predicate Are(ts: seq<TableV>)
      reads *
    {
      && tableCount == |tables| == |ts| && ValidTables(ts)
      && forall i {:trigger IsTable(tables[i], ts[i])} :: 0 <= i < |ts| ==> IsTable(tables[i], ts[i])
    }

    method Serialize(addr: GAddr, g: GAlloc, ghost ts: seq<TableV>)
      requires Are(ts)
      modifies g`mem
      ensures CatalogueIn(g.mem, addr, ts) && Outside(old(g.mem), g.mem, addr, CATALOGUE_SIZE)
    {
      assert Gadd(addr, 0) == addr;
      g.Write(addr, 0, Bytes([tableCount]));
      LoadStored(old(g.mem), addr, Bytes([tableCount]));
      StoreOutside(old(g.mem), addr, Bytes([tableCount]), CATALOGUE_SIZE);
      WriteTables(Gadd(addr, 8), g, old(g.mem), addr, ts);
    }

    /** The loop of Serialize. */
    method WriteTables(first: GAddr, g: GAlloc, ghost m0: Mem, ghost addr: GAddr, ghost ts: seq<TableV>)
      requires Are(ts) && first == Gadd(addr, 8) && FirstIn(g.mem, addr, ts, 0) && Outside(m0, g.mem, addr, CATALOGUE_SIZE)
      modifies g`mem
      ensures CatalogueIn(g.mem, addr, ts) && Outside(m0, g.mem, addr, CATALOGUE_SIZE)
    {
      var cur, i := first, 0;
      while i < tableCount
        invariant i <= tableCount && cur == TableAt(addr, i)
        invariant FirstIn(g.mem, addr, ts, i) && Outside(m0, g.mem, addr, CATALOGUE_SIZE)
        invariant forall j {:trigger IsTable(tables[j], ts[j])} :: 0 <= j < |ts| ==> IsTable(tables[j], ts[j])
      {
        ghost var m := g.mem;
        assert IsTable(tables[i], ts[i]);
        tables[i].Serialize(cur, g);
        NextIn(m, g.mem, addr, ts, i);
        OutsideTwice(m0, m, g.mem, addr, CATALOGUE_SIZE);
        cur := Gadd(cur, TABLE_SIZE);
        i := i + 1;
      }
    }

    /** Reads what was serialized as ts, into new tables. */
    method Deserialize(addr: GAddr, g: GAlloc, ghost ts: seq<TableV>)
      requires ValidTables(ts) && CatalogueIn(g.mem, addr, ts)
      modifies this
      ensures Are(ts) && fresh(tables)
    {
      ghost var bs: seq<Byte>, ws := [], [|ts|];
      assert bs + Bytes(ws) == Bytes(ws);
      var count := Get(g, addr, 0, 1, bs, ws, 0);
      tableCount := count[0];
      tables := ReadTables(Gadd(addr, 8), tableCount, g, addr, ts);
    }
  }

  method ReadTable(at: GAddr, g: GAlloc, ghost addr: GAddr, ghost ts: seq<TableV>, ghost i: nat) returns (table: Table)
    requires ValidTables(ts) && CatalogueIn(g.mem, addr, ts) && i < |ts| && at == TableAt(addr, i)
    ensures fresh(table) && IsTable(table, ts[i])
  {
    table := new Table();
    table.Deserialize(at, g, ts[i]);
  }

  /** The loop of Deserialize. */
  method ReadTables(first: GAddr, count: nat, g: GAlloc, ghost addr: GAddr, ghost ts: seq<TableV>) returns (list: seq<Table>)
    requires ValidTables(ts) && CatalogueIn(g.mem, addr, ts) && first == TableAt(addr, 0) && count == |ts|
    ensures |list| == |ts| && fresh(list)
    ensures forall j {:trigger IsTable(list[j], ts[j])} :: 0 <= j < |ts| ==> IsTable(list[j], ts[j])
  {
    var cur, i := first, 0;
    list := [];
    while i < count
      invariant i == |list| <= count && cur == TableAt(addr, i) && fresh(list)
      invariant forall j {:trigger IsTable(list[j], ts[j])} :: 0 <= j < i ==> IsTable(list[j], ts[j])
    {
      var table := ReadTable(cur, g, addr, ts, i);
      NextAt(addr, i);
      list := list + [table];
      cur := Gadd(cur, TABLE_SIZE);
      i := i + 1;
    }
  }

  lemma NextAt(addr: GAddr, i: nat)
    ensures Gadd(TableAt(addr, i), TABLE_SIZE) == TableAt(addr, i + 1)
  {}
}
