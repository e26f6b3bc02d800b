/** RecordSchema: the columns of a table, and their form in memory. */
module Schemas {
  import opened Memory
  import opened Words

  /** ColumnInfo: the name takes 16 bytes. */
  datatype Column = Column(name: seq<Byte>, kind: nat, size: nat, offset: nat)

  const NAME: nat := 16
  const COLUMN_SIZE: nat := NAME + 8 * 3

  /** kMaxColumnNum. */
  const MAX_COLUMNS: nat := 32

  predicate ValidColumn(c: Column) { |c.name| == NAME && c.kind < WORD && c.size < WORD && c.offset < WORD }

  function ColumnBytes(c: Column): (r: seq<Byte>)
    requires ValidColumn(c)
    ensures |r| == COLUMN_SIZE
  {
    c.name + Bytes([c.kind, c.size, c.offset])
  }

  function ColumnOf(bs: seq<Byte>): Column
    requires |bs| == COLUMN_SIZE
  {
    var ws := Numbers(bs[NAME..]);
    Column(bs[..NAME], ws[0], ws[1], ws[2])
  }

  lemma ColumnRoundTrip(c: Column)
    requires ValidColumn(c)
    ensures ColumnOf(ColumnBytes(c)) == c
  {
    NumbersOf([c.kind, c.size, c.offset]);
    assert ColumnBytes(c)[..NAME] == c.name && ColumnBytes(c)[NAME..] == Bytes([c.kind, c.size, c.offset]);
  }

  ghost predicate ValidColumns(cs: seq<Column>) { forall i :: 0 <= i < |cs| ==> ValidColumn(cs[i]) }

  function ColumnsBytes(cs: seq<Column>): (r: seq<Byte>)
    requires forall i :: 0 <= i < |cs| ==> ValidColumn(cs[i])
    ensures |r| == COLUMN_SIZE * |cs|
  {
    if cs == [] then [] else ColumnBytes(cs[0]) + ColumnsBytes(cs[1..])
  }

  function ColumnsOf(bs: seq<Byte>, n: nat): (r: seq<Column>)
    requires |bs| == COLUMN_SIZE * n
    ensures |r| == n
  {
    if n == 0 then [] else [ColumnOf(bs[..COLUMN_SIZE])] + ColumnsOf(bs[COLUMN_SIZE..], n - 1)
  }

  lemma {:induction false} ColumnsRoundTrip(cs: seq<Column>)
    requires ValidColumns(cs)
    ensures ColumnsOf(ColumnsBytes(cs), |cs|) == cs
  {
    if cs != [] {
      ColumnRoundTrip(cs[0]);
      ColumnsRoundTrip(cs[1..]);
      var bs := ColumnsBytes(cs);
      assert bs[..COLUMN_SIZE] == ColumnBytes(cs[0]) && bs[COLUMN_SIZE..] == ColumnsBytes(cs[1..]);
    }
  }

  // ---- the schema as a value -------------------------------------------------------------------------------

  datatype Schema = Schema(tableId: nat, columnCount: nat, columnOffset: nat, primaryIds: seq<nat>, primaryNum: nat,
    secondaryIds: seq<seq<nat>>, secondaryNums: seq<nat>, secondaryCount: nat, partitionIds: seq<nat>, partitionNum: nat,
    columns: seq<Column>)

  /** GetSerializeSize. */
  const SCHEMA_SIZE: nat := 8 * 3 + (8 * 5 + 8) + (8 * 3 * 5 + 8 * 3 + 8) + (8 * 5 + 8) + COLUMN_SIZE * MAX_COLUMNS

  predicate Shaped(s: Schema) {
    && |s.primaryIds| == 5 && |s.secondaryIds| == 3 && |s.secondaryIds[0]| == 5 && |s.secondaryIds[1]| == 5 && |s.secondaryIds[2]| == 5
    && |s.secondaryNums| == 3 && |s.partitionIds| == 5 && |s.columns| == s.columnCount <= MAX_COLUMNS
  }

  ghost predicate ValidSchema(s: Schema) { Shaped(s) && Fit(SchemaWords(s)) && ValidColumns(s.columns) }

  /** The fields before the columns, in their order. */
  function SchemaWords(s: Schema): (r: seq<nat>)
    requires Shaped(s)
    ensures |r| == 34
  {
    Start(s) + s.secondaryIds[0] + s.secondaryIds[1] + s.secondaryIds[2] + s.secondaryNums + [s.secondaryCount] + s.partitionIds + [s.partitionNum]
  }

  function Start(s: Schema): (r: seq<nat>)
    requires Shaped(s)
    ensures |r| == 9
  {
    [s.tableId] + [s.columnCount] + [s.columnOffset] + s.primaryIds + [s.primaryNum]
  }

  /** The schema is in memory at a. */
  ghost predicate SchemaIn(m: Mem, a: GAddr, s: Schema)
    requires ValidSchema(s)
  {
    Load(m, a, 272) == Bytes(SchemaWords(s)) && Load(m, Gadd(a, 272), COLUMN_SIZE * s.columnCount) == ColumnsBytes(s.columns)
  }

  lemma {:induction false} StartParts(s: Schema)
    requires Shaped(s)
    ensures var ws := SchemaWords(s);
      && ws[0..1] == [s.tableId] && ws[1..2] == [s.columnCount] && ws[2..3] == [s.columnOffset]
      && ws[3..8] == s.primaryIds && ws[8..9] == [s.primaryNum]
  {
    var ws := SchemaWords(s);
    assert ws[..9] == Start(s);
    assert ws[3..8] == ws[..9][3..8];
  }

  lemma {:induction false} RestParts(s: Schema)
    requires Shaped(s)
    ensures var ws := SchemaWords(s);
      && ws[9..14] == s.secondaryIds[0] && ws[14..19] == s.secondaryIds[1] && ws[19..24] == s.secondaryIds[2]
      && ws[24..27] == s.secondaryNums && ws[27..28] == [s.secondaryCount] && ws[28..33] == s.partitionIds && ws[33..34] == [s.partitionNum]
  {}

  /** Memory determines the schema. */
  lemma {:induction false} SchemaUnique(m: Mem, a: GAddr, s: Schema, t: Schema)
    requires ValidSchema(s) && ValidSchema(t) && SchemaIn(m, a, s) && SchemaIn(m, a, t)
    ensures s == t
  {
    NumbersOf(SchemaWords(s));
    NumbersOf(SchemaWords(t));
    WordsUnique(s, t);
    ColumnsRoundTrip(s.columns);
    ColumnsRoundTrip(t.columns);
  }

  lemma {:induction false} WordsUnique(s: Schema, t: Schema)
    requires Shaped(s) && Shaped(t) && SchemaWords(s) == SchemaWords(t)
    ensures s == t.(columns := s.columns)
  {
    StartParts(s);
    StartParts(t);
    RestParts(s);
    RestParts(t);
    assert s.secondaryIds == [s.secondaryIds[0], s.secondaryIds[1], s.secondaryIds[2]];
    assert t.secondaryIds == [t.secondaryIds[0], t.secondaryIds[1], t.secondaryIds[2]];
    assert [s.tableId][0] == [t.tableId][0] && [s.columnCount][0] == [t.columnCount][0] && [s.columnOffset][0] == [t.columnOffset][0];
    assert [s.primaryNum][0] == [t.primaryNum][0] && [s.secondaryCount][0] == [t.secondaryCount][0] && [s.partitionNum][0] == [t.partitionNum][0];
  }

  // ---- columns in a record -----------------------------------------------------------------------------------

  function Width(cs: seq<Column>): nat { if cs == [] then 0 else Width(cs[..|cs| - 1]) + cs[|cs| - 1].size }

  /** The columns as given, one behind the other from base. */
  ghost predicate Placed(cs: seq<Column>, given: seq<Column>, base: nat) {
    |cs| == |given| && forall i: nat {:trigger PlacedAt(cs, given, base, i)} :: i < |cs| ==> PlacedAt(cs, given, base, i)
  }

  predicate PlacedAt(cs: seq<Column>, given: seq<Column>, base: nat, i: nat)
    requires i < |cs| && i < |given|
  {
    cs[i] == given[i].(offset := base + Width(given[..i]))
  }

  lemma {:induction false} WidthNext(given: seq<Column>, i: nat)
    requires i < |given|
    ensures Width(given[..i + 1]) == Width(given[..i]) + given[i].size
  {
    assert given[..i + 1][..i] == given[..i];
  }

  /** Columns do not overlap, and lie in the record. */
  lemma {:induction false} PlacedApart(cs: seq<Column>, given: seq<Column>, base: nat, i: nat, j: nat)
    requires Placed(cs, given, base) && i < j <= |cs|
    ensures cs[i].offset + cs[i].size <= base + Width(given[..j])
    ensures j < |cs| ==> cs[i].offset + cs[i].size <= cs[j].offset
    decreases j
  {
    WidthNext(given, j - 1);
    assert PlacedAt(cs, given, base, i);
    if i + 1 < j { PlacedApart(cs, given, base, i, j - 1); }
    if j < |cs| { assert PlacedAt(cs, given, base, j); }
  }

  // ---- the class ---------------------------------------------------------------------------------------------

  class RecordSchema {
    var tableId: nat
    var columnCount: nat
    var columnOffset: nat
    var primaryIds: seq<nat>
    var primaryNum: nat
    var secondaryIds: seq<seq<nat>>
    var secondaryNums: seq<nat>
    var secondaryCount: nat
    var partitionIds: seq<nat>
    var partitionNum: nat
    var columns: seq<Column>

    function Value(): Schema
      reads this
    {
      Schema(tableId, columnCount, columnOffset, primaryIds, primaryNum, secondaryIds, secondaryNums, secondaryCount,
             partitionIds, partitionNum, columns)
    }

    constructor (tableId: nat)
      ensures Shaped(Value()) && Value().tableId == tableId && columns == []
    {
      this.tableId, columnCount, columnOffset, primaryNum, secondaryCount, partitionNum, columns := tableId, 0, 0, 0, 0, 0, [];
      var none: seq<nat> := seq(5, i => 0);
      primaryIds, secondaryIds, secondaryNums, partitionIds := none, [none, none, none], [0, 0, 0], none;
    }

    method InsertColumns(given: seq<Column>)
      requires |given| <= MAX_COLUMNS
      modifies `columnCount, `columnOffset, `columns
      ensures columnCount == |columns| && Placed(columns, given, old(columnOffset))
      ensures columnOffset == old(columnOffset) + Width(given)
    {
      columnCount := |given|;
      var cs: seq<Column>, offset, base, i := [], columnOffset, columnOffset, 0;
      while i < |given|
        invariant i == |cs| <= |given| == columnCount && offset == base + Width(given[..i])
        invariant forall k: nat {:trigger PlacedAt(cs, given, base, k)} :: k < i ==> PlacedAt(cs, given, base, k)
      {
        WidthNext(given, i);
        ghost var before := cs;
        cs := cs + [given[i].(offset := offset)];
        assert forall k: nat :: k < i ==> PlacedAt(before, given, base, k) ==> PlacedAt(cs, given, base, k);
        offset := offset + given[i].size;
        i := i + 1;
      }
      assert given[..i] == given;
      columns, columnOffset := cs, offset;
    }

    method Serialize(addr: GAddr, g: GAlloc)
      requires ValidSchema(Value())
      modifies g`mem
      ensures SchemaIn(g.mem, addr, Value()) && Outside(old(g.mem), g.mem, addr, SCHEMA_SIZE)
    {
      ghost var m, s := g.mem, Value();
      WriteWords(addr, g);
      g.Write(addr, 272, ColumnsBytes(columns));
      StoreTwice(m, addr, Bytes(SchemaWords(s)), ColumnsBytes(s.columns));
      StoreOutside(m, addr, Bytes(SchemaWords(s)) + ColumnsBytes(s.columns), SCHEMA_SIZE);
      LoadApart(Store(m, addr, Bytes(SchemaWords(s))), Gadd(addr, 272), ColumnsBytes(s.columns), addr, 272);
      LoadStored(m, addr, Bytes(SchemaWords(s)));
      LoadStored(Store(m, addr, Bytes(SchemaWords(s))), Gadd(addr, 272), ColumnsBytes(s.columns));
    }

    /** The writes of Serialize before the columns. */
    method WriteWords(addr: GAddr, g: GAlloc)
      requires ValidSchema(Value())
      modifies g`mem
      ensures g.mem == Store(old(g.mem), addr, Bytes(SchemaWords(Value())))
    {
      ghost var m, s, done := g.mem, Value(), Start(Value());
      WriteStart(addr, g);
      var off := 8 * 9;
      ghost var w := Start(s);
      Append(g, addr, off, secondaryIds[0], m, [], w);
      w, off := w + secondaryIds[0], off + 8 * 5;
      Append(g, addr, off, secondaryIds[1], m, [], w);
      w, off := w + secondaryIds[1], off + 8 * 5;
      Append(g, addr, off, secondaryIds[2], m, [], w);
      w, off := w + secondaryIds[2], off + 8 * 5;
      Append(g, addr, off, secondaryNums, m, [], w);
      w, off := w + secondaryNums, off + 8 * 3;
      Append(g, addr, off, [secondaryCount], m, [], w);
      w, off := w + [secondaryCount], off + 8;
      Append(g, addr, off, partitionIds, m, [], w);
      w, off := w + partitionIds, off + 8 * 5;
      Append(g, addr, off, [partitionNum], m, [], w);
      assert [] + Bytes(SchemaWords(s)) == Bytes(SchemaWords(s));
    }

    method WriteStart(addr: GAddr, g: GAlloc)
      requires Shaped(Value())
      modifies g`mem
      ensures g.mem == Store(old(g.mem), addr, [] + Bytes(Start(Value())))
    {
      ghost var m := g.mem;
      StoreNothing(m, addr);
      var off := 0;
      Append(g, addr, off, [tableId], m, [], []);
      off := off + 8;
      assert [] + [tableId] == [tableId];
      Append(g, addr, off, [columnCount], m, [], [tableId]);
      off := off + 8;
      Append(g, addr, off, [columnOffset], m, [], [tableId] + [columnCount]);
      off := off + 8;
      Append(g, addr, off, primaryIds, m, [], [tableId] + [columnCount] + [columnOffset]);
      off := off + 8 * 5;
      Append(g, addr, off, [primaryNum], m, [], [tableId] + [columnCount] + [columnOffset] + primaryIds);
    }

    /** Reads what was serialized as s. */
    method Deserialize(addr: GAddr, g: GAlloc, ghost s: Schema)
      requires ValidSchema(s) && SchemaIn(g.mem, addr, s)
      modifies this
      ensures Value() == s
    {
      ReadStart(addr, g, s);
      ReadRest(addr, g, s);
      var cs := g.Read(addr, 272, COLUMN_SIZE * columnCount);
      ColumnsRoundTrip(s.columns);
      columns := ColumnsOf(cs, columnCount);
    }

    method ReadStart(addr: GAddr, g: GAlloc, ghost s: Schema)
      requires ValidSchema(s) && SchemaIn(g.mem, addr, s)
      modifies `tableId, `columnCount, `columnOffset, `primaryIds, `primaryNum
      ensures tableId == s.tableId && columnCount == s.columnCount && columnOffset == s.columnOffset
      ensures primaryIds == s.primaryIds && primaryNum == s.primaryNum
    {
      ghost var bs: seq<Byte>, ws := [], SchemaWords(s);
      assert bs + Bytes(ws) == Bytes(ws);
      StartParts(s);
      var id := Get(g, addr, 0, 1, bs, ws, 0);
      var count := Get(g, addr, 8, 1, bs, ws, 1);
      var offset := Get(g, addr, 16, 1, bs, ws, 2);
      var ids := Get(g, addr, 24, 5, bs, ws, 3);
      var num := Get(g, addr, 64, 1, bs, ws, 8);
      tableId, columnCount, columnOffset, primaryIds, primaryNum := id[0], count[0], offset[0], ids, num[0];
    }

    method ReadRest(addr: GAddr, g: GAlloc, ghost s: Schema)
      requires ValidSchema(s) && SchemaIn(g.mem, addr, s)
      modifies `secondaryIds, `secondaryNums, `secondaryCount, `partitionIds, `partitionNum
      ensures secondaryIds == s.secondaryIds && secondaryNums == s.secondaryNums && secondaryCount == s.secondaryCount
      ensures partitionIds == s.partitionIds && partitionNum == s.partitionNum
    {
      ghost var bs: seq<Byte>, ws := [], SchemaWords(s);
      assert bs + Bytes(ws) == Bytes(ws);
      var x := Get(g, addr, 72, 5, bs, ws, 9);
      var y := Get(g, addr, 112, 5, bs, ws, 14);
      var z := Get(g, addr, 152, 5, bs, ws, 19);
      var nums := Get(g, addr, 192, 3, bs, ws, 24);
      var count := Get(g, addr, 216, 1, bs, ws, 27);
      var ids := Get(g, addr, 224, 5, bs, ws, 28);
      var num := Get(g, addr, 264, 1, bs, ws, 33);
      RestParts(s);
      assert [x, y, z] == s.secondaryIds;
      secondaryIds, secondaryNums, secondaryCount, partitionIds, partitionNum := [x, y, z], nums, count[0], ids, num[0];
    }
  }

  lemma StoreNothing(m: Mem, a: GAddr)
    ensures Store(m, a, [] + Bytes([])) == m
  {
    assert [] + Bytes([]) == [];
    forall x ensures x !in Range(a, 0) { InRange(a, 0, x); }
  }
}
