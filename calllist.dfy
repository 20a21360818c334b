/** The priority call list: the columns shown for the targets, the list as
    displayed (ranked by volume) and the rows of the CSV download (in roster
    order). */
module CallList {
  import opened Text
  import opened Roster
  import opened Ranking
  import opened Targeting

  /** The columns of the physician table the call list can show. */
  datatype Column = DrName | Specialty | ZipCode | TrxVolume | ShareColumn(payer: Payer)

  /** The columns always shown. */
  const BaseColumns: seq<Column> := [DrName, Specialty, ZipCode, TrxVolume]

  /** Column titles, as in the table and the CSV header. */
  function Title(c: Column): string {
    match c
    case DrName => "Dr Name"
    case Specialty => "Specialty"
    case ZipCode => "Zip Code"
    case TrxVolume => "TRx Volume"
    case ShareColumn(UHC) => "UHC Share %"
    case ShareColumn(Aetna) => "Aetna Share %"
    case ShareColumn(Cigna) => "Cigna Share %"
  }

  /** Distinct columns have distinct titles. */
  lemma TitleIsInjective(c: Column, d: Column)
    requires Title(c) == Title(d)
    ensures c == d
  {
  }

  /** The four base columns, then one more exactly when the formulary-win text
      names a payer: that payer's share column, and no other share column. */
  ghost predicate ShowsWinnerColumns(cols: seq<Column>, formularyWin: string) {
    && 4 <= |cols| <= 5 && cols[..4] == BaseColumns
    && (|cols| == 5 <==> WinningPayer(formularyWin).Some?)
    && (forall c :: c in cols && c.ShareColumn? ==> WinningPayer(formularyWin) == Some(c.payer))
    && (WinningPayer(formularyWin).Some? ==> ShareColumn(WinningPayer(formularyWin).value) in cols)
  }

  /** The displayed columns: the four base columns, then the share column of
      the first payer the formulary-win text names, and no other share column. */
  method DisplayColumns(formularyWin: string) returns (cols: seq<Column>)
    ensures ShowsWinnerColumns(cols, formularyWin)
  {
    cols := [DrName, Specialty, ZipCode, TrxVolume];
    if Contains(formularyWin, "UnitedHealthcare") {
      cols := cols + [ShareColumn(UHC)];
    } else if Contains(formularyWin, "Aetna") {
      cols := cols + [ShareColumn(Aetna)];
    } else if Contains(formularyWin, "Cigna") {
      cols := cols + [ShareColumn(Cigna)];
    }
  }

  /** One cell of the call list. */
  datatype Cell = Text(text: string) | Count(n: nat) | Fraction(x: real)

  function CellOf(p: Physician, c: Column): Cell {
    match c
    case DrName => Text(p.name)
    case Specialty => Text(p.specialty)
    case ZipCode => Text(p.zip)
    case TrxVolume => Count(p.volume)
    case ShareColumn(payer) => Fraction(ShareOf(p, payer))
  }

  /** A target's row restricted to the displayed columns (`target_df[display_cols]`). */
  function ProjectRow(p: Physician, cols: seq<Column>): seq<Cell> {
    seq(|cols|, i requires 0 <= i < |cols| => CellOf(p, cols[i]))
  }

  /** The rows of the CSV download: the targets in roster order, projected;
      under the base columns row `k` names target `k` and shows its volume. */
  function ExportRows(targets: seq<Physician>, cols: seq<Column>): (r: seq<seq<Cell>>)
    ensures |r| == |targets|
    ensures forall k :: 0 <= k < |targets| ==> r[k] == ProjectRow(targets[k], cols)
    ensures |cols| >= 4 && cols[..4] == BaseColumns ==>
      forall k :: 0 <= k < |targets| ==>
        |r[k]| == |cols| && r[k][0] == Text(targets[k].name) && RowVolume(r[k]) == targets[k].volume
  {
    assert |cols| >= 4 && cols[..4] == BaseColumns ==> cols[0] == DrName && cols[3] == TrxVolume;
    seq(|targets|, k requires 0 <= k < |targets| => ProjectRow(targets[k], cols))
  }

  /** The header row of the CSV download: one title per column, the base titles
      first, and no two columns sharing a title. */
  function HeaderRow(cols: seq<Column>): (r: seq<string>)
    ensures |r| == |cols|
    ensures |cols| >= 4 && cols[..4] == BaseColumns ==>
      r[..4] == ["Dr Name", "Specialty", "Zip Code", "TRx Volume"]
    ensures forall i, j :: 0 <= i < |cols| && 0 <= j < |cols| && r[i] == r[j] ==> cols[i] == cols[j]
  {
    assert forall i, j :: 0 <= i < |cols| && 0 <= j < |cols| && Title(cols[i]) == Title(cols[j]) ==>
      cols[i] == cols[j] by {
      forall i, j | 0 <= i < |cols| && 0 <= j < |cols| && Title(cols[i]) == Title(cols[j])
        ensures cols[i] == cols[j]
      {
        TitleIsInjective(cols[i], cols[j]);
      }
    }
    assert |cols| >= 4 && cols[..4] == BaseColumns ==>
      cols[0] == DrName && cols[1] == Specialty && cols[2] == ZipCode && cols[3] == TrxVolume;
    seq(|cols|, i requires 0 <= i < |cols| => Title(cols[i]))
  }

  /** The "TRx Volume" cell of a row; it is the fourth column of every call list. */
  function RowVolume(row: seq<Cell>): int {
    if |row| > 3 && row[3].Count? then row[3].n else 0
  }

  /** The volumes never increase down the rows. */
  ghost predicate RankedByVolume(rows: seq<seq<Cell>>) {
    forall a, b :: 0 <= a < b < |rows| ==> RowVolume(rows[a]) >= RowVolume(rows[b])
  }

  /** The displayed call list: the projected target rows ranked by volume. */
  function DisplayedCallList(targets: seq<Physician>, cols: seq<Column>): (r: seq<seq<Cell>>)
    requires |cols| >= 4 && cols[..4] == BaseColumns
    ensures multiset(r) == multiset(ExportRows(targets, cols))
    ensures RankedByVolume(r)
  {
    SortDesc(ExportRows(targets, cols), RowVolume)
  }

  /** The displayed list holds exactly the CSV rows, reordered: each row is the
      projection of one target and shows that target's volume, and the
      volumes never increase down the list. */
  lemma DisplayedListIsRankedExport(targets: seq<Physician>, cols: seq<Column>)
    requires |cols| >= 4 && cols[..4] == BaseColumns
    ensures |DisplayedCallList(targets, cols)| == |targets|
    ensures forall a :: 0 <= a < |targets| ==>
      exists k :: 0 <= k < |targets| &&
        DisplayedCallList(targets, cols)[a] == ProjectRow(targets[k], cols) &&
        RowVolume(DisplayedCallList(targets, cols)[a]) == targets[k].volume
    ensures forall a, b :: 0 <= a < b < |targets| ==>
      RowVolume(DisplayedCallList(targets, cols)[a]) >= RowVolume(DisplayedCallList(targets, cols)[b])
  {
    var r := DisplayedCallList(targets, cols);
    var rows := ExportRows(targets, cols);
    assert |r| == |multiset(r)| == |rows| == |targets|;
    forall a | 0 <= a < |targets|
      ensures exists k ::
        0 <= k < |targets| && r[a] == ProjectRow(targets[k], cols) && RowVolume(r[a]) == targets[k].volume
    {
      assert r[a] in multiset(rows);
      var k :| 0 <= k < |rows| && rows[k] == r[a];
      assert cols[3] == BaseColumns[3];
    }
  }
}
