/** The slice of a two-dimensional labelled table (a pandas DataFrame) that the
    feature transform uses: a row index, an ordered list of distinct column
    names and one column of cells per name; `set_index`, assigning a column,
    dropping columns, element-wise column sums and `fillna`. Column names are
    a type parameter K. */
module Frames {

  /** One table cell. `Stamp` is a parsed date, held as its day number; `NaN`
      is the library's missing value (NaN, None or NaT). */
  datatype Cell = Int(n: int) | Str(s: string) | Stamp(day: int) | NaN

  predicate Distinct<K(==)>(names: seq<K>) {
    forall i, j | 0 <= i < j < |names| :: names[i] != names[j]
  }

  /** A table as a value: row labels, column order and column contents. */
  datatype Table<K(==)> = Table(index: seq<int>, columns: seq<K>, data: map<K, seq<Cell>>) {
    /** Column names are distinct, every listed column has data and no other
        does, and every column has one cell per row. */
    predicate WellFormed() {
      && Distinct(columns)
      && data.Keys == set c | c in columns
      && forall c | c in data :: |data[c]| == |index|
    }
  }

  /** The names that are not in `removed`, in their original order. */
  function Without<K(==)>(names: seq<K>, removed: seq<K>): (r: seq<K>)
    ensures |r| <= |names|
  {
    if names == [] then []
    else (if names[0] in removed then [] else [names[0]]) + Without(names[1..], removed)
  }

  /** Removing names keeps exactly the names not removed, and keeps distinct
      names distinct. */
  lemma {:induction false} WithoutMembers<K>(names: seq<K>, removed: seq<K>)
    ensures forall c | c in Without(names, removed) :: c in names && c !in removed
    ensures forall c | c in names && c !in removed :: c in Without(names, removed)
    ensures Distinct(names) ==> Distinct(Without(names, removed))
  {
    if names != [] {
      WithoutMembers(names[1..], removed);
    }
  }

  /** Removing names distributes over concatenation. */
  lemma {:induction false} WithoutAppend<K>(a: seq<K>, b: seq<K>, removed: seq<K>)
    ensures Without(a + b, removed) == Without(a, removed) + Without(b, removed)
  {
    if a == [] {
      assert a + b == b;
    } else {
      var head := if a[0] in removed then [] else [a[0]];
      assert (a + b)[0] == a[0] && (a + b)[1..] == a[1..] + b;
      assert Without(a + b, removed) == head + Without(a[1..] + b, removed);
      WithoutAppend(a[1..], b, removed);
      assert Without(a, removed) == head + Without(a[1..], removed);
    }
  }

  /** Removing names keeps a list none of whose names is removed. */
  lemma {:induction false} WithoutNone<K>(names: seq<K>, removed: seq<K>)
    requires forall c | c in names :: c !in removed
    ensures Without(names, removed) == names
  {
    if names != [] {
      WithoutNone(names[1..], removed);
    }
  }

  /** Removing names empties a list all of whose names are removed. */
  lemma {:induction false} WithoutAll<K>(names: seq<K>, removed: seq<K>)
    requires forall c | c in names :: c in removed
    ensures Without(names, removed) == []
  {
    if names != [] {
      WithoutAll(names[1..], removed);
    }
  }

  /** Removing the first name of a list that holds it once leaves the rest. */
  lemma WithoutHead<K>(k: K, rest: seq<K>)
    requires k !in rest
    ensures Without([k] + rest, [k]) == rest
  {
    WithoutAppend([k], rest, [k]);
    WithoutAll([k], [k]);
    WithoutNone(rest, [k]);
    assert [] + rest == rest;
  }

  /** Removing names from four consecutive runs, of which the first and third
      are removed entirely and the second and fourth not at all, keeps the
      second and fourth. */
  lemma WithoutAlternating<K>(a: seq<K>, b: seq<K>, c: seq<K>, d: seq<K>, removed: seq<K>)
    requires forall x | x in a + c :: x in removed
    requires forall x | x in b + d :: x !in removed
    ensures Without(a + b + c + d, removed) == b + d
  {
    WithoutAppend(a + b + c, d, removed);
    WithoutAppend(a + b, c, removed);
    WithoutAppend(a, b, removed);
    WithoutAll(a, removed);
    WithoutAll(c, removed);
    WithoutNone(b, removed);
    WithoutNone(d, removed);
    assert [] + b + [] == b;
  }

  /** `a + b` on two numeric cells: missing if either is missing. Only numeric
      cells reach it in the transform. */
  function Add(a: Cell, b: Cell): (r: Cell)
    ensures r.Int? <==> a.Int? && b.Int?
    ensures r.Int? ==> r.n == a.n + b.n
  {
    if a.Int? && b.Int? then Int(a.n + b.n) else NaN
  }

  /** `np.sum` of one row across the stacked columns, starting from 0. */
  function SumCells(cells: seq<Cell>): (r: Cell)
    ensures r.Int? || r.NaN?
    ensures r.Int? <==> forall i | 0 <= i < |cells| :: cells[i].Int?
  {
    if cells == [] then Int(0) else Add(SumCells(cells[..|cells| - 1]), cells[|cells| - 1])
  }

  /** The total of the integer cells of a row, added from the first cell on:
      the reference that SumCells, which adds from the last cell back, is
      checked against. */
  function Total(cells: seq<Cell>): int {
    if cells == [] then 0 else (if cells[0].Int? then cells[0].n else 0) + Total(cells[1..])
  }

  /** A total adds up over a split of the row. */
  lemma {:induction false} TotalAppend(a: seq<Cell>, b: seq<Cell>)
    ensures Total(a + b) == Total(a) + Total(b)
  {
    if a == [] {
      assert a + b == b;
    } else {
      assert (a + b)[0] == a[0] && (a + b)[1..] == a[1..] + b;
      TotalAppend(a[1..], b);
    }
  }

  /** A row of integer cells sums to its total; a row with a missing cell
      sums to a missing value. */
  lemma {:induction false} SumCellsTotal(cells: seq<Cell>)
    ensures SumCells(cells) == if forall i | 0 <= i < |cells| :: cells[i].Int? then Int(Total(cells)) else NaN
  {
    if cells != [] {
      var init, last := cells[..|cells| - 1], cells[|cells| - 1];
      assert cells == init + [last];
      SumCellsTotal(init);
      TotalAppend(init, [last]);
      assert Total([last]) == if last.Int? then last.n else 0 by {
        assert [last][1..] == [];
      }
      assert forall i | 0 <= i < |init| :: init[i] == cells[i];
    }
  }

  /** Two cells sum to the sum of their values, or to a missing value when
      either is missing. */
  lemma SumOfTwo(a: Cell, b: Cell)
    ensures SumCells([a, b]) == if a.Int? && b.Int? then Int(a.n + b.n) else NaN
  {
    assert [a, b][..1] == [a] && [a][..0] == [];
    assert SumCells([a]) == Add(Int(0), a);
    assert SumCells([a, b]) == Add(SumCells([a]), b);
  }

  /** A row of 0/1 flags totals between 0 and the number of flags. */
  lemma {:induction false} FlagTotalRange(cells: seq<Cell>)
    requires forall i | 0 <= i < |cells| :: cells[i] == Int(0) || cells[i] == Int(1)
    ensures 0 <= Total(cells) <= |cells|
  {
    if cells != [] {
      FlagTotalRange(cells[1..]);
    }
  }

  /** A row of flags that are all set totals to the number of flags. */
  lemma {:induction false} AllSetTotal(cells: seq<Cell>)
    requires forall i | 0 <= i < |cells| :: cells[i] == Int(1)
    ensures Total(cells) == |cells|
  {
    if cells != [] {
      AllSetTotal(cells[1..]);
    }
  }

  /** A row of 0/1 flags sums to a count between 0 and the number of flags. */
  lemma FlagSumRange(cells: seq<Cell>)
    requires forall i | 0 <= i < |cells| :: cells[i] == Int(0) || cells[i] == Int(1)
    ensures SumCells(cells).Int? && 0 <= SumCells(cells).n <= |cells|
  {
    SumCellsTotal(cells);
    FlagTotalRange(cells);
  }

  /** A row of non-negative integers has a non-negative total. */
  lemma {:induction false} NonNegativeTotal(cells: seq<Cell>)
    requires forall i | 0 <= i < |cells| :: cells[i].Int? && cells[i].n >= 0
    ensures Total(cells) >= 0
  {
    if cells != [] {
      NonNegativeTotal(cells[1..]);
    }
  }

  /** A row of non-negative integers has a non-negative sum. */
  lemma NonNegativeSum(cells: seq<Cell>)
    requires forall i | 0 <= i < |cells| :: cells[i].Int? && cells[i].n >= 0
    ensures SumCells(cells).Int? && SumCells(cells).n >= 0
  {
    SumCellsTotal(cells);
    NonNegativeTotal(cells);
  }

  /** The cells of row i in the given columns, in column order. */
  function RowOf<K(==)>(t: Table<K>, names: seq<K>, i: nat): (r: seq<Cell>)
    requires t.WellFormed() && i < |t.index|
    requires forall c | c in names :: c in t.data
    ensures |r| == |names|
  {
    seq(|names|, j requires 0 <= j < |names| => t.data[names[j]][i])
  }

  /** `np.sum([df[x] for x in names], 0)`: the element-wise sum of the columns. */
  function RowSums<K(==)>(t: Table<K>, names: seq<K>): (r: seq<Cell>)
    requires t.WellFormed()
    requires forall c | c in names :: c in t.data
    ensures |r| == |t.index|
  {
    seq(|t.index|, i requires 0 <= i < |t.index| => SumCells(RowOf(t, names, i)))
  }

  /** Row sums depend only on the summed columns. */
  lemma RowSumsAgree<K>(t: Table<K>, u: Table<K>, names: seq<K>)
    requires t.WellFormed() && u.WellFormed() && |t.index| == |u.index|
    requires forall c | c in names :: c in t.data && c in u.data && t.data[c] == u.data[c]
    ensures RowSums(t, names) == RowSums(u, names)
  {
    forall i | 0 <= i < |t.index| ensures RowSums(t, names)[i] == RowSums(u, names)[i] {
      assert RowOf(t, names, i) == RowOf(u, names, i);
    }
  }

  /** A map whose keys are the three names of a list is the display of its
      three entries, in that order. */
  lemma ThreeEntries<K, V>(m: map<K, V>, names: seq<K>)
    requires |names| == 3 && m.Keys == set c | c in names
    ensures m == map[names[0] := m[names[0]], names[1] := m[names[1]], names[2] := m[names[2]]]
  {
  }

  /** `fillna(v)`: every missing cell becomes v, every other cell is kept. */
  function FillNa(col: seq<Cell>, v: int): (r: seq<Cell>)
    ensures |r| == |col|
    ensures forall i | 0 <= i < |r| :: !r[i].NaN?
    ensures forall i | 0 <= i < |r| :: r[i] == (if col[i].NaN? then Int(v) else col[i])
  {
    seq(|col|, i requires 0 <= i < |col| => if col[i].NaN? then Int(v) else col[i])
  }

  /** `DataFrame(data=[values], columns=names)`: a one-row table labelled 0
      in which each named column holds the value at the same position. */
  function OneRow<K(==)>(names: seq<K>, values: seq<Cell>): (t: Table<K>)
    requires Distinct(names) && |values| == |names|
    ensures t.WellFormed() && t.index == [0] && t.columns == names
    ensures forall i | 0 <= i < |names| :: names[i] in t.data && t.data[names[i]] == [values[i]]
  {
    Table([0], names, map i | 0 <= i < |names| :: names[i] := [values[i]])
  }

  /** A mutable table. Methods change it in place, as the library's
      `df[name] = ...` and `drop(..., inplace=True)` do; `SetIndex` returns a
      new table and leaves this one as it was. */
  class DataFrame<K(==)> {
    var index: seq<int>
    var columns: seq<K>
    var data: map<K, seq<Cell>>

    function View(): Table<K>
      reads this
    {
      Table(index, columns, data)
    }

    predicate Valid()
      reads this
    {
      View().WellFormed()
    }

    constructor (t: Table<K>)
      ensures View() == t
    {
      index, columns, data := t.index, t.columns, t.data;
    }

    /** `set_index(key)`: a new table whose row labels are the key column's
        values (duplicates allowed) and which no longer has that column. */
    method SetIndex(key: K) returns (f: DataFrame<K>)
      requires Valid() && key in data
      requires forall i | 0 <= i < |index| :: data[key][i].Int?
      ensures fresh(f) && f.Valid()
      ensures |f.index| == |index| && forall i | 0 <= i < |index| :: f.index[i] == data[key][i].n
      ensures f.columns == Without(columns, [key]) && f.data == data - {key}
    {
      WithoutMembers(columns, [key]);
      var keys := data[key];
      var ids := seq(|keys|, i requires 0 <= i < |keys| => keys[i].n);
      f := new DataFrame<K>(Table(ids, Without(columns, [key]), data - {key}));
    }

    /** `df[name] = col`: replaces an existing column where it stands, or
        appends a new one at the end. */
    method Assign(name: K, col: seq<Cell>)
      requires Valid() && |col| == |index|
      modifies this
      ensures Valid() && index == old(index)
      ensures data == old(data)[name := col]
      ensures columns == if name in old(data) then old(columns) else old(columns) + [name]
    {
      if name !in data {
        columns := columns + [name];
      }
      data := data[name := col];
    }

    /** `drop(columns=names, inplace=True)`; every name must be a column. */
    method Drop(names: seq<K>)
      requires Valid() && forall c | c in names :: c in data
      modifies this
      ensures Valid() && index == old(index)
      ensures columns == Without(old(columns), names)
      ensures data == old(data) - set c | c in names
      ensures forall c | c in columns :: data[c] == old(data)[c]
    {
      WithoutMembers(columns, names);
      columns := Without(columns, names);
      data := data - set c | c in names;
    }
  }
}
