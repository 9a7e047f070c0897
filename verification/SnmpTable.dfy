/** From walk results to a table: the map of normalised names, and the loop that turns its
    keys into rows and columns. */
module SnmpTable {
  import opened Common
  import opened JobModel
  import opened Oids
  import SnmpWalk
  import opened Decimals

  function NormalizeOID(oid: string): string {
    if "iso." <= oid then ".1." + oid[4..]
    else if !("." <= oid) then "." + oid
    else oid
  }

  /** Row and column text of a name: its last two components; (-1, "") when it has fewer
      than two dots. */
  function RowAndColName(oid: string): (int, string) {
    var index := LastDot(oid);
    if index == -1 then (-1, "")
    else
      var row := Atoi(oid[index + 1..]);
      var sub := oid[..index];
      var index2 := LastDot(sub);
      if index2 == -1 then (-1, "") else (Int32(row), sub[index2 + 1..])
  }

  /** A normalised name begins with a dot and stays as it is when normalised again; `iso` at
      its beginning is written as a number, and a missing first dot is added. */
  lemma NormalForm(oid: string, rest: string)
    ensures NormalizeOID(oid) != [] && NormalizeOID(oid)[0] == '.'
    ensures NormalizeOID(NormalizeOID(oid)) == NormalizeOID(oid)
    ensures NormalizeOID("iso." + rest) == ".1." + rest
    ensures NormalizeOID("." + rest) == "." + rest
    ensures !("iso." <= oid) && (oid == [] || oid[0] != '.') ==> NormalizeOID(oid) == "." + oid
  {
    assert ("iso." + rest)[4..] == rest;
    assert "iso."[0] == 'i';
  }

  /** Row and column are what stands after the last two dots; a name with fewer dots has row
      -1 and no column. */
  lemma RowAndColumn(front: string, col: string, row: string)
    requires '.' !in col && '.' !in row
    ensures RowAndColName(front + "." + col + "." + row) == (Int32(Atoi(row)), col)
    ensures RowAndColName(col + "." + row) == (-1, "") && RowAndColName(col) == (-1, "")
  {
    LastDotAt(front + "." + col, row);
    LastDotAt(front, col);
    LastDotAt(col, row);
  }

  type Cells = map<int, map<int, Option<Bytes>>>

  datatype Table = Table(cells: Cells, columns: map<int, string>)

  function ColumnName(t: Table, col: int): string {
    if col in t.columns then t.columns[col] else ""
  }

  /** SetValue on values: a missing row is created, a column is named once, by the first
      value that is not nil. */
  function Put(t: Table, row: int, col: int, name: string, value: Option<Bytes>): Table {
    var data := if row in t.cells then t.cells[row] else map[];
    Table(t.cells[row := data[col := value]],
          if value.Some? && ColumnName(t, col) == "" then t.columns[col := name] else t.columns)
  }

  /** A value together with the place its key stands for. */
  datatype Entry = Entry(row: int, col: int, name: string, value: Option<Bytes>)

  function EntryOf(key: string, value: Option<Bytes>): Entry {
    var (row, name) := RowAndColName(key);
    Entry(row, Int32(Atoi(name)), name, value)
  }

  function EntriesOf(m: map<string, Option<Bytes>>, order: seq<string>): (r: seq<Entry>)
    requires forall k :: k in order ==> k in m
    ensures |r| == |order|
    ensures forall i :: 0 <= i < |r| ==> r[i] == EntryOf(order[i], m[order[i]])
  {
    seq(|order|, i requires 0 <= i < |order| => EntryOf(order[i], m[order[i]]))
  }

  /** The table after the first `n` entries were made. */
  function Built(es: seq<Entry>, n: nat): Table
    requires n <= |es|
  {
    if n == 0 then Table(map[], map[])
    else
      var e := es[n - 1];
      Put(Built(es, n - 1), e.row, e.col, e.name, e.value)
  }

  /** The table of a map, its keys visited in the given order. */
  function TableOf(m: map<string, Option<Bytes>>, order: seq<string>): Table
    requires forall k :: k in order ==> k in m
  {
    Built(EntriesOf(m, order), |order|)
  }

  // ----- the source's form

  class CRow {
    var Data: map<int, Option<Bytes>>

    constructor ()
      ensures Data == map[]
    {
      Data := map[];
    }
  }

  class CTable {
    var Rows: map<int, CRow>
    var Columns: map<int, string>
    ghost var View: Table

    ghost predicate Valid()
      reads this, Rows.Values
    {
      && Rows.Keys == View.cells.Keys
      && Columns == View.columns
      && (forall r :: r in Rows ==> Rows[r].Data == View.cells[r])
      && (forall r1, r2 :: r1 in Rows && r2 in Rows && r1 != r2 ==> Rows[r1] != Rows[r2])
    }

    constructor ()
      ensures Valid() && Rows == map[] && View == Table(map[], map[])
    {
      Rows, Columns, View := map[], map[], Table(map[], map[]);
    }
  }

  /** Creates a row that is missing. */
  method EnsureRow(row: int, tbl: CTable)
    requires tbl.Valid()
    modifies tbl
    ensures tbl.Valid() && row in tbl.Rows
    ensures tbl.View == if row in old(tbl.View.cells) then old(tbl.View)
                        else old(tbl.View).(cells := old(tbl.View).cells[row := map[]])
    ensures forall r :: r in tbl.Rows.Values ==> r in old(tbl.Rows.Values) || fresh(r)
  {
    if row !in tbl.Rows {
      var rowData := new CRow();
      tbl.Rows := tbl.Rows[row := rowData];
      tbl.View := tbl.View.(cells := tbl.View.cells[row := map[]]);
    }
  }

  method WriteCell(row: int, col: int, value: Option<Bytes>, tbl: CTable)
    requires tbl.Valid() && row in tbl.Rows
    modifies tbl`View, tbl.Rows[row]
    ensures tbl.Valid()
    ensures tbl.View == old(tbl.View).(cells := old(tbl.View).cells[row := old(tbl.View).cells[row][col := value]])
  {
    var rowData := tbl.Rows[row];
    rowData.Data := rowData.Data[col := value];
    tbl.View := tbl.View.(cells := tbl.View.cells[row := rowData.Data]);
  }

  /** Puts a value into the table at a row and column. */
  method SetValue(row: int, col: int, colName: string, value: Option<Bytes>, tbl: CTable?)
    requires tbl != null ==> tbl.Valid()
    modifies tbl, if tbl == null then {} else tbl.Rows.Values
    ensures tbl != null ==>
              && tbl.Valid()
              && tbl.View == Put(old(tbl.View), row, col, colName, value)
              && (forall r :: r in tbl.Rows.Values ==> r in old(tbl.Rows.Values) || fresh(r))
  {
    if tbl == null {
      return;
    }
    PutInto(row, col, colName, value, tbl);
  }

  /** Writes a value into its cell, in a row that is created if it is missing. */
  method WriteRow(row: int, col: int, value: Option<Bytes>, tbl: CTable)
    requires tbl.Valid()
    modifies tbl, tbl.Rows.Values
    ensures tbl.Valid() && tbl.View == Put(old(tbl.View), row, col, "", value).(columns := old(tbl.View).columns)
    ensures forall r :: r in tbl.Rows.Values ==> r in old(tbl.Rows.Values) || fresh(r)
  {
    EnsureRow(row, tbl);
    WriteCell(row, col, value, tbl);
  }

  method PutInto(row: int, col: int, colName: string, value: Option<Bytes>, tbl: CTable)
    requires tbl.Valid()
    modifies tbl, tbl.Rows.Values
    ensures tbl.Valid()
    ensures tbl.View == Put(old(tbl.View), row, col, colName, value)
    ensures forall r :: r in tbl.Rows.Values ==> r in old(tbl.Rows.Values) || fresh(r)
  {
    WriteRow(row, col, value, tbl);
    if value.Some? {
      NameColumn(col, colName, tbl);
    }
  }

  /** Names a column that has no name yet. */
  method NameColumn(col: int, colName: string, tbl: CTable)
    requires tbl.Valid()
    modifies tbl`Columns, tbl`View
    ensures tbl.Valid()
    ensures tbl.View == if ColumnName(old(tbl.View), col) == "" then old(tbl.View).(columns := old(tbl.View).columns[col := colName])
                        else old(tbl.View)
  {
    if (if col in tbl.Columns then tbl.Columns[col] else "") == "" {
      tbl.Columns := tbl.Columns[col := colName];
      tbl.View := tbl.View.(columns := tbl.Columns);
    }
  }

  /** The keys of a map, in whatever order it yields them; none for a missing map. */
  method Keys(m: Option<map<string, Option<Bytes>>>) returns (keys: seq<string>)
    ensures m.None? ==> keys == []
    ensures m.Some? ==> Enumerates(keys, m.value.Keys)
  {
    keys := [];
    if m.None? {
      return;
    }
    var left := m.value.Keys;
    while left != {}
      invariant left <= m.value.Keys
      invariant Enumerates(keys, m.value.Keys - left)
    {
      var k :| k in left;
      left := left - {k};
      keys := keys + [k];
    }
  }

  /** Enters the value of every key. */
  method EnterAll(m: map<string, Option<Bytes>>, keys: seq<string>, tbl: CTable)
    requires tbl.Valid() && tbl.View == Table(map[], map[]) && forall k :: k in keys ==> k in m
    modifies tbl, tbl.Rows.Values
    ensures tbl.Valid() && tbl.View == TableOf(m, keys)
  {
    ghost var es := EntriesOf(m, keys);
    for i := 0 to |keys|
      invariant tbl.Valid() && tbl.View == Built(es, i)
      invariant forall r :: r in tbl.Rows.Values ==> r in old(tbl.Rows.Values) || fresh(r)
    {
      assert es[i] == EntryOf(keys[i], m[keys[i]]);
      var (rowIndex, colIndex) := RowAndColName(keys[i]);
      SetValue(rowIndex, Int32(Atoi(colIndex)), colIndex, m[keys[i]], tbl);
    }
  }

  /** The table of a walk's map. */
  method MakeTable(m: map<string, Option<Bytes>>) returns (tbl: CTable, ghost order: seq<string>)
    ensures fresh(tbl) && tbl.Valid() && Enumerates(order, m.Keys)
    ensures tbl.View == TableOf(m, order)
  {
    tbl := new CTable();
    var keys := Keys(Some(m));
    order := keys;
    EnterAll(m, keys, tbl);
  }

  function Normalized(pdus: seq<(string, Option<Bytes>)>): (r: seq<(string, Option<Bytes>)>)
    ensures |r| == |pdus|
    ensures forall i :: 0 <= i < |r| ==> r[i] == (NormalizeOID(pdus[i].0), pdus[i].1)
  {
    seq(|pdus|, i requires 0 <= i < |pdus| => (NormalizeOID(pdus[i].0), pdus[i].1))
  }

  /** The map after the first `n` pairs were stored. */
  function Filled(ps: seq<(string, Option<Bytes>)>, n: nat): map<string, Option<Bytes>>
    requires n <= |ps|
  {
    if n == 0 then map[] else Filled(ps, n - 1)[ps[n - 1].0 := ps[n - 1].1]
  }

  /** The map a walk fills: the last value given for a normalised name. */
  method MapOfWalk(pdus: seq<(string, Option<Bytes>)>) returns (m: map<string, Option<Bytes>>)
    ensures m == Filled(Normalized(pdus), |pdus|)
  {
    m := map[];
    for i := 0 to |pdus|
      invariant m == Filled(Normalized(pdus), i)
    {
      m := m[NormalizeOID(pdus[i].0) := pdus[i].1];
    }
  }

  /** Pair `i` is the last one with this normalised name. */
  ghost predicate LastNamed(pdus: seq<(string, Option<Bytes>)>, k: string, i: int) {
    && 0 <= i < |pdus| && NormalizeOID(pdus[i].0) == k
    && forall j :: i < j < |pdus| ==> NormalizeOID(pdus[j].0) != k
  }

  lemma {:induction false} FilledLast(ps: seq<(string, Option<Bytes>)>, n: nat, k: string)
    requires n <= |ps|
    ensures k !in Filled(ps, n) ==> forall i :: 0 <= i < n ==> ps[i].0 != k
    ensures k in Filled(ps, n) ==>
              exists i :: 0 <= i < n && ps[i].0 == k && Filled(ps, n)[k] == ps[i].1 && forall j :: i < j < n ==> ps[j].0 != k
  {
    if n > 0 {
      FilledLast(ps, n - 1, k);
    }
  }

  /** The map of a walk holds exactly the normalised names of its pairs, each with the value
      of the last pair of that name. */
  lemma LastStored(pdus: seq<(string, Option<Bytes>)>, k: string)
    ensures var m := Filled(Normalized(pdus), |pdus|);
            && (k in m <==> exists i :: 0 <= i < |pdus| && NormalizeOID(pdus[i].0) == k)
            && (k in m ==> exists i :: LastNamed(pdus, k, i) && m[k] == pdus[i].1)
  {
    var ps := Normalized(pdus);
    FilledLast(ps, |pdus|, k);
    var m := Filled(ps, |pdus|);
    if k in m {
      var i :| 0 <= i < |ps| && ps[i].0 == k && m[k] == ps[i].1 && forall j :: i < j < |ps| ==> ps[j].0 != k;
      forall j | i < j < |pdus| ensures NormalizeOID(pdus[j].0) != k {
        assert ps[j].0 != k;
      }
      assert LastNamed(pdus, k, i);
    } else {
      forall i | 0 <= i < |pdus| ensures NormalizeOID(pdus[i].0) != k {
        assert ps[i].0 != k;
      }
    }
  }

  ghost predicate NamesDistinct(ps: seq<(string, Option<Bytes>)>) {
    forall i, j :: 0 <= i < |ps| && 0 <= j < |ps| && ps[i].0 == ps[j].0 ==> i == j
  }

  /** With pairwise different names the map holds exactly the pairs. */
  lemma {:induction false} FilledHolds(ps: seq<(string, Option<Bytes>)>, n: nat)
    requires n <= |ps| && NamesDistinct(ps)
    ensures forall i :: 0 <= i < n ==> ps[i].0 in Filled(ps, n) && Filled(ps, n)[ps[i].0] == ps[i].1
    ensures forall k :: k in Filled(ps, n) ==> exists i :: 0 <= i < n && k == ps[i].0
  {
    if n > 0 {
      FilledHolds(ps, n - 1);
    }
  }

  // ----- what the table holds

  function Cell(t: Table, r: int, c: int): Option<Option<Bytes>> {
    if r in t.cells && c in t.cells[r] then Some(t.cells[r][c]) else None
  }

  lemma PutCell(t: Table, row: int, col: int, name: string, value: Option<Bytes>, r: int, c: int)
    ensures Cell(Put(t, row, col, name, value), r, c) == if row == r && col == c then Some(value) else Cell(t, r, c)
  {
  }

  /** The last of the first `n` entries for the cell; -1 when there is none. */
  function LastAt(es: seq<Entry>, n: nat, r: int, c: int): (i: int)
    requires n <= |es|
    ensures -1 <= i < n
    ensures i >= 0 ==> es[i].row == r && es[i].col == c
    ensures forall j :: i < j < n ==> es[j].row != r || es[j].col != c
  {
    if n == 0 then -1
    else if es[n - 1].row == r && es[n - 1].col == c then n - 1
    else LastAt(es, n - 1, r, c)
  }

  /** A cell holds the value of the last entry for it. */
  lemma {:induction false} LastEntered(es: seq<Entry>, n: nat, r: int, c: int)
    requires n <= |es|
    ensures var i := LastAt(es, n, r, c);
            Cell(Built(es, n), r, c) == if i == -1 then None else Some(es[i].value)
  {
    if n > 0 {
      var e := es[n - 1];
      LastEntered(es, n - 1, r, c);
      PutCell(Built(es, n - 1), e.row, e.col, e.name, e.value, r, c);
    }
  }

  /** Keys of the same cell hold the same value. */
  ghost predicate CellsAgree(m: map<string, Option<Bytes>>) {
    forall k1, k2 :: k1 in m && k2 in m ==>
      var e1, e2 := EntryOf(k1, m[k1]), EntryOf(k2, m[k2]);
      e1.row == e2.row && e1.col == e2.col ==> m[k1] == m[k2]
  }

  /** The key is filed under the cell. */
  ghost predicate At(m: map<string, Option<Bytes>>, k: string, r: int, c: int) {
    k in m && EntryOf(k, m[k]).row == r && EntryOf(k, m[k]).col == c
  }

  /** What a cell holds is the value of one of its keys, and it holds something if it has
      a key. */
  lemma CellHasKey(m: map<string, Option<Bytes>>, order: seq<string>, r: int, c: int)
    requires Enumerates(order, m.Keys)
    ensures match Cell(TableOf(m, order), r, c)
            case None => forall k :: !At(m, k, r, c)
            case Some(v) => exists k :: At(m, k, r, c) && m[k] == v
  {
    var es := EntriesOf(m, order);
    LastEntered(es, |es|, r, c);
    var i := LastAt(es, |es|, r, c);
    if i == -1 {
      forall k ensures !At(m, k, r, c) {
        if k in m {
          var j :| 0 <= j < |order| && order[j] == k;
          assert es[j] == EntryOf(k, m[k]);
        }
      }
    } else {
      assert es[i] == EntryOf(order[i], m[order[i]]);
      assert At(m, order[i], r, c);
    }
  }

  /** When keys of a cell agree, every cell holds exactly what the map holds under its keys. */
  lemma TableFaithful(m: map<string, Option<Bytes>>, order: seq<string>, k: string)
    requires Enumerates(order, m.Keys) && CellsAgree(m) && k in m
    ensures var e := EntryOf(k, m[k]); Cell(TableOf(m, order), e.row, e.col) == Some(m[k])
  {
    var e := EntryOf(k, m[k]);
    CellHasKey(m, order, e.row, e.col);
    assert At(m, k, e.row, e.col);
  }

  lemma {:induction false} SomeOrder(keys: set<string>) returns (order: seq<string>)
    ensures Enumerates(order, keys)
    decreases |keys|
  {
    if keys == {} {
      order := [];
    } else {
      var k :| k in keys;
      var rest := SomeOrder(keys - {k});
      order := rest + [k];
    }
  }

  /** The table whose last key is `k` holds the value of `k` in its cell. */
  lemma EndingIn(m: map<string, Option<Bytes>>, k: string) returns (order: seq<string>)
    requires k in m
    ensures Enumerates(order, m.Keys)
    ensures var e := EntryOf(k, m[k]); Cell(TableOf(m, order), e.row, e.col) == Some(m[k])
  {
    var rest := SomeOrder(m.Keys - {k});
    order := rest + [k];
    var e := EntryOf(k, m[k]);
    var es := EntriesOf(m, order);
    assert es[|es| - 1] == e;
    LastEntered(es, |es|, e.row, e.col);
  }

  ghost predicate RowsHaveCells(t: Table) {
    forall r :: r in t.cells ==> exists c :: c in t.cells[r]
  }

  lemma SameCells(a: Table, b: Table)
    requires forall r, c :: Cell(a, r, c) == Cell(b, r, c)
    requires RowsHaveCells(a) && RowsHaveCells(b)
    ensures a.cells == b.cells
  {
    forall r ensures r in a.cells <==> r in b.cells {
      if r in a.cells {
        var c :| c in a.cells[r];
        assert Cell(a, r, c).Some?;
        assert Cell(b, r, c).Some?;
      }
      if r in b.cells {
        var c :| c in b.cells[r];
        assert Cell(b, r, c).Some?;
        assert Cell(a, r, c).Some?;
      }
    }
    forall r | r in a.cells ensures a.cells[r] == b.cells[r] {
      forall c ensures c in a.cells[r] <==> c in b.cells[r] {
        assert Cell(a, r, c) == Cell(b, r, c);
      }
      forall c | c in a.cells[r] ensures a.cells[r][c] == b.cells[r][c] {
        assert Cell(a, r, c) == Cell(b, r, c);
      }
    }
  }

  lemma PutFilled(t: Table, row: int, col: int, name: string, value: Option<Bytes>)
    requires RowsHaveCells(t)
    ensures RowsHaveCells(Put(t, row, col, name, value))
  {
    var p := Put(t, row, col, name, value);
    forall r | r in p.cells ensures exists c :: c in p.cells[r] {
      if r == row {
        assert col in p.cells[r];
      } else {
        var c :| c in t.cells[r];
        assert c in p.cells[r];
      }
    }
  }

  lemma {:induction false} RowsFilled(es: seq<Entry>, n: nat)
    requires n <= |es|
    ensures RowsHaveCells(Built(es, n))
  {
    if n > 0 {
      var e := es[n - 1];
      RowsFilled(es, n - 1);
      PutFilled(Built(es, n - 1), e.row, e.col, e.name, e.value);
    }
  }

  /** The cells are the same for every order in which the keys are visited if and only if no
      two keys of one cell hold different values. */
  lemma TableOrderFree(m: map<string, Option<Bytes>>)
    ensures (forall o1, o2 :: Enumerates(o1, m.Keys) && Enumerates(o2, m.Keys) ==>
               TableOf(m, o1).cells == TableOf(m, o2).cells) <==> CellsAgree(m)
  {
    if CellsAgree(m) {
      forall o1, o2 | Enumerates(o1, m.Keys) && Enumerates(o2, m.Keys)
        ensures TableOf(m, o1).cells == TableOf(m, o2).cells
      {
        forall r, c ensures Cell(TableOf(m, o1), r, c) == Cell(TableOf(m, o2), r, c) {
          SameCell(m, o1, o2, r, c);
        }
        RowsFilled(EntriesOf(m, o1), |o1|);
        RowsFilled(EntriesOf(m, o2), |o2|);
        SameCells(TableOf(m, o1), TableOf(m, o2));
      }
    } else {
      var k1, k2 :| k1 in m && k2 in m && m[k1] != m[k2]
                    && EntryOf(k1, m[k1]).row == EntryOf(k2, m[k2]).row && EntryOf(k1, m[k1]).col == EntryOf(k2, m[k2]).col;
      var o1 := EndingIn(m, k1);
      var o2 := EndingIn(m, k2);
      assert TableOf(m, o1).cells != TableOf(m, o2).cells;
    }
  }

  lemma SameCell(m: map<string, Option<Bytes>>, o1: seq<string>, o2: seq<string>, r: int, c: int)
    requires Enumerates(o1, m.Keys) && Enumerates(o2, m.Keys) && CellsAgree(m)
    ensures Cell(TableOf(m, o1), r, c) == Cell(TableOf(m, o2), r, c)
  {
    CellHasKey(m, o1, r, c);
    CellHasKey(m, o2, r, c);
    if k :| At(m, k, r, c) {
      TableFaithful(m, o1, k);
      TableFaithful(m, o2, k);
    }
  }

  // ----- column names

  /** Keys of the same column write it in the same way. */
  ghost predicate NamesAgree(m: map<string, Option<Bytes>>) {
    forall k1, k2 :: k1 in m && k2 in m ==>
      var e1, e2 := EntryOf(k1, m[k1]), EntryOf(k2, m[k2]);
      e1.name != "" && (e1.col == e2.col ==> e1.name == e2.name)
  }

  /** The first of the first `n` entries that names the column; `n` when none does. */
  function FirstNaming(es: seq<Entry>, n: nat, c: int): (i: nat)
    requires n <= |es|
    ensures i <= n
    ensures i < n ==> es[i].col == c && es[i].value.Some?
    ensures forall j :: 0 <= j < i ==> es[j].col != c || es[j].value.None?
  {
    if n == 0 then 0
    else
      var i := FirstNaming(es, n - 1, c);
      if i < n - 1 || (es[n - 1].col == c && es[n - 1].value.Some?) then i else n
  }

  lemma PutColumn(t: Table, row: int, col: int, name: string, value: Option<Bytes>, c: int)
    ensures ColumnName(Put(t, row, col, name, value), c) ==
            if c == col && value.Some? && ColumnName(t, c) == "" then name else ColumnName(t, c)
  {
  }

  /** A column is named once, by the first entry with a value. */
  lemma {:induction false} NamedByFirst(es: seq<Entry>, n: nat, c: int)
    requires n <= |es| && forall i :: 0 <= i < |es| ==> es[i].name != ""
    ensures var i := FirstNaming(es, n, c);
            ColumnName(Built(es, n), c) == if i < n then es[i].name else ""
  {
    if n > 0 {
      var e := es[n - 1];
      NamedByFirst(es, n - 1, c);
      PutColumn(Built(es, n - 1), e.row, e.col, e.name, e.value, c);
    }
  }

  /** Every column with a value carries the name its keys write, whatever the order. */
  lemma ColumnsNamed(m: map<string, Option<Bytes>>, order: seq<string>, k: string)
    requires Enumerates(order, m.Keys) && NamesAgree(m) && k in m && m[k].Some?
    ensures var e := EntryOf(k, m[k]); ColumnName(TableOf(m, order), e.col) == e.name
  {
    var e, es := EntryOf(k, m[k]), EntriesOf(m, order);
    var i :| 0 <= i < |order| && order[i] == k;
    assert es[i] == e;
    forall j | 0 <= j < |es| ensures es[j].name != "" && (es[j].col == e.col ==> es[j].name == e.name) {
      assert order[j] in m;
    }
    NamedByFirst(es, |es|, e.col);
    assert FirstNaming(es, |es|, e.col) <= i;
  }

  // ----- from a walk to its table

  function Row(x: Instance): nat {
    if x.oid == [] then 0 else x.oid[|x.oid| - 1]
  }

  function Column(x: Instance): nat {
    if |x.oid| < 2 then 0 else x.oid[|x.oid| - 2]
  }

  function Content(x: Instance): Option<Bytes> {
    if x.value.Data? then Some(x.value.bytes) else None
  }

  /** An instance whose last two components are a column and a row, all of 32 bits. */
  predicate Tabular(x: Instance) {
    |x.oid| >= 2 && x.value.Data? && Row(x) < 0x1_0000_0000 && Column(x) < 0x1_0000_0000
  }

  ghost predicate AllTabular(s: seq<Instance>) {
    forall i :: 0 <= i < |s| ==> Tabular(s[i])
  }

  function Name(x: Instance): string {
    OidString(x.oid)
  }

  /** The names and values a walk's results enter the map with. */
  function Named(s: seq<Instance>): (r: seq<(string, Option<Bytes>)>)
    ensures |r| == |s|
    ensures forall i :: 0 <= i < |s| ==> r[i] == (Name(s[i]), Content(s[i]))
  {
    seq(|s|, i requires 0 <= i < |s| => (Name(s[i]), Content(s[i])))
  }

  lemma NameSplits(x: Instance)
    requires |x.oid| >= 2
    ensures RowAndColName(Name(x)) == (Int32(Atoi(Dec(Row(x)))), Dec(Column(x)))
  {
    OidStringSplits(x.oid);
    OidStringSplits(x.oid[..|x.oid| - 1]);
  }

  /** The name of a tabular instance parses back into its row and column. */
  lemma NameParses(x: Instance, v: Option<Bytes>)
    requires Tabular(x)
    ensures EntryOf(Name(x), v) == Entry(Int32(Row(x)), Int32(Column(x)), Dec(Column(x)), v)
  {
    NameSplits(x);
    AtoiOfDec(Row(x));
    AtoiOfDec(Column(x));
  }

  lemma NameNormal(x: Instance)
    requires Tabular(x)
    ensures NormalizeOID(Name(x)) == Name(x)
  {
    OidStringDotted(x.oid);
  }

  ghost predicate OidsDistinct(s: seq<Instance>) {
    forall i, j :: 0 <= i < |s| && 0 <= j < |s| && s[i].oid == s[j].oid ==> i == j
  }

  /** The map of a walk. */
  function WalkMap(s: seq<Instance>): map<string, Option<Bytes>> {
    Filled(Normalized(Named(s)), |s|)
  }

  lemma NamedIsNormal(s: seq<Instance>)
    requires AllTabular(s)
    ensures Normalized(Named(s)) == Named(s)
  {
    forall i | 0 <= i < |s| ensures Normalized(Named(s))[i] == Named(s)[i] {
      NameNormal(s[i]);
    }
  }

  lemma NamesDiffer(s: seq<Instance>)
    requires OidsDistinct(s)
    ensures NamesDistinct(Named(s))
  {
    forall i, j | 0 <= i < |s| && 0 <= j < |s| && Named(s)[i].0 == Named(s)[j].0 ensures i == j {
      OidStringInjective(s[i].oid, s[j].oid);
    }
  }

  lemma WalkMapHolds(s: seq<Instance>, i: nat)
    requires AllTabular(s) && OidsDistinct(s) && i < |s|
    ensures Name(s[i]) in WalkMap(s) && WalkMap(s)[Name(s[i])] == Some(s[i].value.bytes)
  {
    NamedIsNormal(s);
    NamesDiffer(s);
    FilledHolds(Named(s), |s|);
    assert Named(s)[i] == (Name(s[i]), Content(s[i]));
  }

  /** Pairwise different (column, row) pairs. */
  ghost predicate CellsDistinct(s: seq<Instance>) {
    forall i, j :: 0 <= i < |s| && 0 <= j < |s| && Row(s[i]) == Row(s[j]) && Column(s[i]) == Column(s[j]) ==> i == j
  }

  lemma OwnerOf(s: seq<Instance>, k: string) returns (i: nat)
    requires AllTabular(s) && OidsDistinct(s) && k in WalkMap(s)
    ensures i < |s| && k == Name(s[i])
    ensures WalkMap(s)[k] == Some(s[i].value.bytes)
    ensures EntryOf(k, Some(s[i].value.bytes)) ==
            Entry(Int32(Row(s[i])), Int32(Column(s[i])), Dec(Column(s[i])), Some(s[i].value.bytes))
  {
    NamedIsNormal(s);
    NamesDiffer(s);
    FilledHolds(Named(s), |s|);
    i :| 0 <= i < |s| && k == Named(s)[i].0;
    WalkMapHolds(s, i);
    NameParses(s[i], Some(s[i].value.bytes));
  }

  /** Two keys that meet in a column write it alike; in a cell they are the same. */
  lemma WalkMapAgrees(s: seq<Instance>)
    requires AllTabular(s) && OidsDistinct(s) && CellsDistinct(s)
    ensures var m := WalkMap(s); CellsAgree(m) && NamesAgree(m)
  {
    var m := WalkMap(s);
    forall k1, k2 | k1 in m && k2 in m
      ensures var e1, e2 := EntryOf(k1, m[k1]), EntryOf(k2, m[k2]);
              && e1.name != ""
              && (e1.col == e2.col ==> e1.name == e2.name && (e1.row == e2.row ==> m[k1] == m[k2]))
    {
      var i := OwnerOf(s, k1);
      var j := OwnerOf(s, k2);
      if Int32(Column(s[i])) == Int32(Column(s[j])) {
        Int32Injective(Column(s[i]), Column(s[j]));
        if Int32(Row(s[i])) == Int32(Row(s[j])) {
          Int32Injective(Row(s[i]), Row(s[j]));
        }
      }
    }
  }

  lemma WalkCell(s: seq<Instance>, order: seq<string>, i: nat)
    requires AllTabular(s) && OidsDistinct(s) && CellsDistinct(s) && i < |s|
    requires Enumerates(order, WalkMap(s).Keys)
    ensures var t := TableOf(WalkMap(s), order);
            && Cell(t, Int32(Row(s[i])), Int32(Column(s[i]))) == Some(Some(s[i].value.bytes))
            && ColumnName(t, Int32(Column(s[i]))) == Dec(Column(s[i]))
  {
    var m := WalkMap(s);
    WalkMapHolds(s, i);
    WalkMapAgrees(s);
    NameParses(s[i], Some(s[i].value.bytes));
    TableFaithful(m, order, Name(s[i]));
    ColumnsNamed(m, order, Name(s[i]));
  }

  lemma WalkCellOwner(s: seq<Instance>, order: seq<string>, r: int, c: int)
    requires AllTabular(s) && OidsDistinct(s)
    requires Enumerates(order, WalkMap(s).Keys)
    requires Cell(TableOf(WalkMap(s), order), r, c).Some?
    ensures exists i :: 0 <= i < |s| && r == Int32(Row(s[i])) && c == Int32(Column(s[i]))
  {
    var m := WalkMap(s);
    CellHasKey(m, order, r, c);
    var k :| At(m, k, r, c);
    var i := OwnerOf(s, k);
  }

  /** A table is a faithful re-indexing of its walk: every instance is in the cell of its own
      row and column, under a column named by its own number, and nothing else is in the
      table, in whatever order the keys are visited. */
  lemma WalkTable(s: seq<Instance>, order: seq<string>)
    requires AllTabular(s) && OidsDistinct(s) && CellsDistinct(s)
    requires Enumerates(order, WalkMap(s).Keys)
    ensures var t := TableOf(WalkMap(s), order);
            && (forall i :: 0 <= i < |s| ==>
                  && Cell(t, Int32(Row(s[i])), Int32(Column(s[i]))) == Some(Some(s[i].value.bytes))
                  && ColumnName(t, Int32(Column(s[i]))) == Dec(Column(s[i])))
            && (forall r, c :: Cell(t, r, c).Some? ==>
                  exists i :: 0 <= i < |s| && r == Int32(Row(s[i])) && c == Int32(Column(s[i])))
  {
    var t := TableOf(WalkMap(s), order);
    forall i | 0 <= i < |s|
      ensures Cell(t, Int32(Row(s[i])), Int32(Column(s[i]))) == Some(Some(s[i].value.bytes))
      ensures ColumnName(t, Int32(Column(s[i]))) == Dec(Column(s[i]))
    {
      WalkCell(s, order, i);
    }
    forall r, c | Cell(t, r, c).Some?
      ensures exists i :: 0 <= i < |s| && r == Int32(Row(s[i])) && c == Int32(Column(s[i]))
    {
      WalkCellOwner(s, order, r, c);
    }
  }

  /** Of a walk that yields `x` and `y`, visited in this order, `y` gets its cell. */
  ghost predicate LastWins(x: Instance, y: Instance) {
    var m, order := WalkMap([x, y]), [Name(x), Name(y)];
    && Enumerates(order, m.Keys)
    && Cell(TableOf(m, order), Int32(Row(y)), Int32(Column(y))) == Some(Content(y))
  }

  lemma PairMap(x: Instance, y: Instance)
    requires Tabular(x) && Tabular(y) && x.oid != y.oid
    ensures Name(x) != Name(y) && WalkMap([x, y]) == map[Name(x) := Content(x), Name(y) := Content(y)]
  {
    var s := [x, y];
    assert s[0] == x && s[1] == y;
    WalkMapHolds(s, 0);
    WalkMapHolds(s, 1);
    if Name(x) == Name(y) {
      OidStringInjective(x.oid, y.oid);
    }
    forall k | k in WalkMap(s) ensures k == Name(x) || k == Name(y) {
      var i := OwnerOf(s, k);
      assert i == 0 || i == 1;
    }
  }

  lemma SwappedWalk(x: Instance, y: Instance)
    requires Tabular(x) && Tabular(y) && x.oid != y.oid
    ensures WalkMap([x, y]) == WalkMap([y, x])
  {
    PairMap(x, y);
    PairMap(y, x);
    SwappedPairs(Name(x), Name(y), Content(x), Content(y));
  }

  lemma SwappedPairs<K, V>(a: K, b: K, v: V, w: V)
    requires a != b
    ensures map[a := v, b := w] == map[b := w, a := v]
  {
  }

  lemma VisitedLast(x: Instance, y: Instance)
    requires Tabular(x) && Tabular(y) && x.oid != y.oid
    ensures LastWins(x, y)
  {
    var m, order := WalkMap([x, y]), [Name(x), Name(y)];
    PairMap(x, y);
    var es := EntriesOf(m, order);
    assert es[1] == EntryOf(Name(y), Content(y));
    NameParses(y, Content(y));
    LastEntered(es, 2, Int32(Row(y)), Int32(Column(y)));
  }

  /** Two instances of one row and column contend for one cell: the walk enters both into the
      map, and the one whose name is visited last gets the cell. */
  lemma CellContested(x: Instance, y: Instance)
    requires Tabular(x) && Tabular(y) && x.oid != y.oid && Row(x) == Row(y) && Column(x) == Column(y)
    ensures WalkMap([x, y]) == WalkMap([y, x]) && LastWins(x, y) && LastWins(y, x)
  {
    SwappedWalk(x, y);
    VisitedLast(x, y);
    VisitedLast(y, x);
  }

  /** There are such instances within one subtree: what is before the last two components
      counts for nothing. */
  lemma ContestedInstances(v: Bytes, w: Bytes)
    ensures var x, y := Instance([1, 1, 2, 5, 7], Data(v)), Instance([1, 1, 3, 5, 7], Data(w));
            && Name(x) == ".1.1.2.5.7" && Name(y) == ".1.1.3.5.7"
            && Row(x) == Row(y) && Column(x) == Column(y)
            && WalkMap([x, y]) == WalkMap([y, x]) && LastWins(x, y) && LastWins(y, x)
  {
    var x, y := Instance([1, 1, 2, 5, 7], Data(v)), Instance([1, 1, 3, 5, 7], Data(w));
    assert x.oid[2] != y.oid[2];
    CellContested(x, y);
    FiveDots(1, 1, 2, 5, 7);
    FiveDots(1, 1, 3, 5, 7);
  }

  lemma FiveDots(a: nat, b: nat, c: nat, d: nat, e: nat)
    requires a < 10 && b < 10 && c < 10 && d < 10 && e < 10
    ensures OidString([a, b, c, d, e]) == ['.', Digit(a), '.', Digit(b), '.', Digit(c), '.', Digit(d), '.', Digit(e)]
  {
    assert [a, b, c, d, e][..4] == [a, b, c, d];
    assert [a, b, c, d][..3] == [a, b, c];
    assert [a, b, c][..2] == [a, b];
    assert [a, b][..1] == [a];
    assert [a][..0] == [];
    assert OidString([a]) == ['.', Digit(a)];
    assert OidString([a, b]) == ['.', Digit(a), '.', Digit(b)];
    assert OidString([a, b, c]) == ['.', Digit(a), '.', Digit(b), '.', Digit(c)];
  }

  lemma SortedAreDistinct(s: seq<Instance>)
    requires Sorted(s)
    ensures OidsDistinct(s)
  {
    forall i, j | 0 <= i < j < |s| ensures s[i].oid != s[j].oid {
      LessIrreflexive(s[i].oid);
    }
  }

  /** From agent to table: a walk over tabular instances of which every round is answered, if
      need be after a reconnect, makes a table that holds exactly the agent's instances
      strictly below the base, each in its own cell. */
  lemma TableOfSubtree(mib: seq<Instance>, base: Oid, env: nat -> SnmpWalk.Round, order: seq<string>)
    requires Sorted(mib) && SnmpWalk.AnsweredUpTo(env, |Subtree(mib, base)| + 1)
    requires AllTabular(Subtree(mib, base)) && CellsDistinct(Subtree(mib, base))
    requires Enumerates(order, WalkMap(Subtree(mib, base)).Keys)
    ensures var pdus := SnmpWalk.WalkResult(Readable(Subtree(mib, base)), env).0;
            pdus == Subtree(mib, base) && TableHolds(TableOf(WalkMap(pdus), order), mib, base)
  {
    var s := Subtree(mib, base);
    SnmpWalk.AnsweredIsAll(env, |s| + 1);
    SnmpWalk.WalkIsComplete(mib, base, env);
    SnmpWalk.ReadableOfAll(s);
    SnmpWalk.SubtreeSorted(mib, base);
    SortedAreDistinct(s);
    WalkTable(s, order);
    forall x ensures x in s <==> x in mib && Below(x.oid, base) {
      SnmpWalk.SubtreeMembers(mib, base, x);
    }
    SubtreeInTable(s, TableOf(WalkMap(s), order), mib, base);
  }

  /** The table holds exactly the instances below the base. */
  ghost predicate TableHolds(t: Table, mib: seq<Instance>, base: Oid) {
    && (forall x :: x in mib && Below(x.oid, base) ==> InCell(t, x))
    && (forall r, c :: Cell(t, r, c).Some? ==>
          exists x :: x in mib && Below(x.oid, base) && r == Int32(Row(x)) && c == Int32(Column(x)))
  }

  predicate InCell(t: Table, x: Instance) {
    && Cell(t, Int32(Row(x)), Int32(Column(x))) == Some(Content(x))
    && ColumnName(t, Int32(Column(x))) == Dec(Column(x))
  }

  lemma SubtreeInTable(s: seq<Instance>, t: Table, mib: seq<Instance>, base: Oid)
    requires AllTabular(s) && forall x :: x in s <==> x in mib && Below(x.oid, base)
    requires forall i :: 0 <= i < |s| ==>
               && Cell(t, Int32(Row(s[i])), Int32(Column(s[i]))) == Some(Some(s[i].value.bytes))
               && ColumnName(t, Int32(Column(s[i]))) == Dec(Column(s[i]))
    requires forall r, c :: Cell(t, r, c).Some? ==>
               exists i :: 0 <= i < |s| && r == Int32(Row(s[i])) && c == Int32(Column(s[i]))
    ensures TableHolds(t, mib, base)
  {
    forall x | x in mib && Below(x.oid, base) ensures InCell(t, x) {
      assert x in s;
      var i :| 0 <= i < |s| && s[i] == x;
    }
    forall r, c | Cell(t, r, c).Some?
      ensures exists x :: x in mib && Below(x.oid, base) && r == Int32(Row(x)) && c == Int32(Column(x))
    {
      var i :| 0 <= i < |s| && r == Int32(Row(s[i])) && c == Int32(Column(s[i]));
      assert s[i] in s;
    }
  }
}
