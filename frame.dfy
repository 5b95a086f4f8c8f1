/**
 * The one-row pandas frames of prepare_data, reduced to what the program uses:
 * a row is an ordered sequence of named cells. Two frame operations are
 * modelled, pd.get_dummies (one-hot encoding of the categorical columns) and
 * DataFrame.reindex(columns=..., fill_value=0) (alignment on a given schema).
 */
module Frame {

  /**
   * A cell: a number, a category (a string column, which get_dummies encodes),
   * or an indicator produced by the encoding (pandas' bool dummies).
   */
  datatype Cell = Num(value: real) | Category(text: string) | Flag(on: bool)

  datatype Column = Column(name: string, cell: Cell)

  type Row = seq<Column>

  /** The column labels, in order. */
  function Names(row: Row): seq<string> {
    seq(|row|, i requires 0 <= i < |row| => row[i].name)
  }

  /** No label occurs twice (pandas refuses to reindex a frame with repeated labels). */
  predicate UniqueNames(row: Row) {
    forall i, j :: 0 <= i < j < |row| ==> row[i].name != row[j].name
  }

  /** Position of the first column called `name`, or |row| when there is none. */
  function IndexOf(row: Row, name: string): (k: nat)
    ensures k <= |row|
    ensures k < |row| ==> row[k].name == name
    ensures forall j :: 0 <= j < k ==> row[j].name != name
    ensures k == |row| <==> name !in Names(row)
    decreases |row|
  {
    if row == [] then 0
    else if row[0].name == name then
      assert Names(row)[0] == name;
      0
    else
      assert Names(row) == [row[0].name] + Names(row[1..]);
      1 + IndexOf(row[1..], name)
  }

  /** The name given to the indicator column of category `text` in column `name` (prefix separator "_"). */
  function DummyName(name: string, text: string): (dummy: string)
    ensures |dummy| == |name| + 1 + |text|
    ensures dummy[..|name|] == name && dummy[|name|] == '_' && dummy[|name| + 1..] == text
  {
    name + "_" + text
  }

  /** Indicators of one column for different categories have different names. */
  lemma DummyNameInjective(name: string, a: string, b: string)
    requires DummyName(name, a) == DummyName(name, b)
    ensures a == b
  {
    assert DummyName(name, a)[|name| + 1..] == a;
  }

  /** The non-categorical columns, in their order. */
  function Kept(row: Row): (out: Row)
    ensures |out| <= |row|
    ensures forall i :: 0 <= i < |out| ==> !out[i].cell.Category?
    decreases |row|
  {
    if row == [] then []
    else if row[0].cell.Category? then Kept(row[1..])
    else [row[0]] + Kept(row[1..])
  }

  /** One indicator column, set, per categorical column, in their order. */
  function Dummies(row: Row): (out: Row)
    ensures |out| <= |row|
    ensures forall i :: 0 <= i < |out| ==> out[i].cell == Flag(true)
    decreases |row|
  {
    if row == [] then []
    else if row[0].cell.Category? then [Column(DummyName(row[0].name, row[0].cell.text), Flag(true))] + Dummies(row[1..])
    else Dummies(row[1..])
  }

  /** get_dummies keeps exactly the non-categorical columns of the row. */
  lemma {:induction false} KeptMembers(row: Row, c: Column)
    ensures c in Kept(row) <==> c in row && !c.cell.Category?
    decreases |row|
  {
    if row != [] {
      KeptMembers(row[1..], c);
      assert row == [row[0]] + row[1..];
    }
  }

  /** get_dummies produces, for each categorical column, a set indicator named after the column and its category, and nothing else. */
  lemma {:induction false} DummiesMembers(row: Row, d: Column)
    ensures d in Dummies(row) <==>
      d.cell == Flag(true) && exists i :: 0 <= i < |row| && row[i].cell.Category? && d.name == DummyName(row[i].name, row[i].cell.text)
    decreases |row|
  {
    if row != [] {
      DummiesMembers(row[1..], d);
      if d in Dummies(row) && !(row[0].cell.Category? && d.name == DummyName(row[0].name, row[0].cell.text)) {
        var i :| 0 <= i < |row[1..]| && row[1..][i].cell.Category? && d.name == DummyName(row[1..][i].name, row[1..][i].cell.text);
        assert row[i + 1] == row[1..][i];
      }
      if d.cell == Flag(true) && exists i :: 0 <= i < |row| && row[i].cell.Category? && d.name == DummyName(row[i].name, row[i].cell.text) {
        var i :| 0 <= i < |row| && row[i].cell.Category? && d.name == DummyName(row[i].name, row[i].cell.text);
        if i > 0 {
          assert row[1..][i - 1] == row[i];
        }
      }
    }
  }

  /**
   * pd.get_dummies on a one-row frame: the other columns stay first, in order,
   * and every categorical column is replaced by one set indicator column,
   * appended after them.
   */
  function GetDummies(row: Row): (out: Row)
    ensures forall i :: 0 <= i < |out| ==> !out[i].cell.Category?
  {
    Kept(row) + Dummies(row)
  }

  /** A row without categorical columns is left as it is by get_dummies. */
  lemma {:induction false} GetDummiesNoCategory(row: Row)
    requires forall i :: 0 <= i < |row| ==> !row[i].cell.Category?
    ensures Kept(row) == row && Dummies(row) == []
    ensures GetDummies(row) == row
    decreases |row|
  {
    if row != [] {
      assert forall i :: 0 <= i < |row[1..]| ==> row[1..][i] == row[i + 1];
      GetDummiesNoCategory(row[1..]);
      assert [row[0]] + row[1..] == row;
    }
  }

  /** get_dummies acts column by column: encoding a concatenation keeps kept columns before indicators. */
  lemma {:induction false} GetDummiesAppend(a: Row, b: Row)
    ensures Kept(a + b) == Kept(a) + Kept(b)
    ensures Dummies(a + b) == Dummies(a) + Dummies(b)
    decreases |a|
  {
    if a == [] {
      assert a + b == b;
    } else {
      assert (a + b)[0] == a[0];
      assert (a + b)[1..] == a[1..] + b;
      GetDummiesAppend(a[1..], b);
    }
  }

  /**
   * DataFrame.reindex(columns=columns, fill_value=0): the result has exactly
   * the given columns in the given order; a column of the row keeps its cell,
   * a missing one is 0, and a column of the row that is not asked for is
   * dropped.
   */
  function Reindex(row: Row, columns: seq<string>): (out: Row)
    requires UniqueNames(row)
    ensures Names(out) == columns
    ensures forall i, j :: 0 <= i < |columns| && 0 <= j < |row| && row[j].name == columns[i] ==> out[i].cell == row[j].cell
    ensures forall i :: 0 <= i < |columns| && columns[i] !in Names(row) ==> out[i].cell == Num(0.0)
  {
    seq(|columns|, i requires 0 <= i < |columns| =>
      var k := IndexOf(row, columns[i]);
      Column(columns[i], if k < |row| then row[k].cell else Num(0.0)))
  }
}
