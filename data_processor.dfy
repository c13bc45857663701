/**
 * `DataProcessor` of streamlit_app.py: resolving a CHAVE query to a row of
 * the DCN table, and joining that row to the Datasheet on the device model.
 */
module DataProcessor {
  import opened Wrappers
  import opened Tables

  /** The key columns `find_site_by_chave` tries, in this order. */
  const ChaveColumns: seq<string> := ["CHAVE", "Chave", "chave", "站点编号", "编号", "ID"]

  /** The device-model column both tables are joined on. */
  const ModelColumn: string := "设备型号"

  /** Column `col` exists in `d` and some row holds `q` in it. */
  ghost predicate ColumnHit(d: Dataset, col: string, q: string)
  {
    col in d.columns && AnyMatch(d.rows, col, Text(q))
  }

  /**
   * The answer is row `i` found under `cols[k]`: an existing column with a
   * hit, every earlier candidate without one, and `i` its first matching row.
   */
  ghost predicate WinsAt(d: Dataset, cols: seq<string>, q: string, k: int, i: int)
  {
    && 0 <= k < |cols|
    && cols[k] in d.columns
    && IsFirstMatch(d.rows, cols[k], Text(q), i)
    && forall k' :: 0 <= k' < k ==> !ColumnHit(d, cols[k'], q)
  }

  /** The first candidate wins when it exists and has a hit. */
  lemma HeadWins(d: Dataset, cols: seq<string>, q: string)
    requires |cols| > 0 && cols[0] in d.columns && |Select(d.rows, cols[0], Text(q))| > 0
    ensures exists i :: WinsAt(d, cols, q, 0, i) && Select(d.rows, cols[0], Text(q))[0] == d.rows[i]
  {
    var i :| IsFirstMatch(d.rows, cols[0], Text(q), i) && Select(d.rows, cols[0], Text(q))[0] == d.rows[i];
    assert WinsAt(d, cols, q, 0, i);
  }

  /** A winner among the later candidates wins overall when the first has no hit. */
  lemma TailWins(d: Dataset, cols: seq<string>, q: string, row: Row)
    requires |cols| > 0 && !ColumnHit(d, cols[0], q)
    requires exists k, i :: WinsAt(d, cols[1..], q, k, i) && row == d.rows[i]
    ensures exists k, i :: WinsAt(d, cols, q, k, i) && row == d.rows[i]
  {
    var k, i :| WinsAt(d, cols[1..], q, k, i) && row == d.rows[i];
    assert forall k' :: 1 <= k' < |cols| ==> cols[k'] == cols[1..][k' - 1];
    assert WinsAt(d, cols, q, k + 1, i);
  }

  /** The loop of `find_site_by_chave` over the candidate columns `cols`. */
  function SearchColumns(d: Dataset, cols: seq<string>, q: string): (r: Option<Row>)
    ensures r.None? <==> forall k :: 0 <= k < |cols| ==> !ColumnHit(d, cols[k], q)
    ensures r.Some? ==> exists k, i :: WinsAt(d, cols, q, k, i) && r.value == d.rows[i]
  {
    if |cols| == 0 then None
    else
      var matched := Select(d.rows, cols[0], Text(q));
      if cols[0] in d.columns && |matched| > 0 then
        HeadWins(d, cols, q);
        Some(matched[0])
      else
        var rest := SearchColumns(d, cols[1..], q);
        assert forall k :: 1 <= k < |cols| ==> cols[k] == cols[1..][k - 1];
        if rest.Some? then
          TailWins(d, cols, q, rest.value);
          rest
        else
          rest
  }

  /**
   * `find_site_by_chave`, filtering the DCN table itself (see the finding
   * about line 108 in README.md): `None` without a table; otherwise the first
   * row, in table order, of the first candidate column that has any row equal
   * to the query.
   */
  function FindSiteByChave(dcn: Option<Dataset>, q: string): (r: Option<Row>)
    ensures dcn.None? ==> r.None?
    ensures dcn.Some? ==> (r.None? <==> forall k :: 0 <= k < |ChaveColumns| ==> !ColumnHit(dcn.value, ChaveColumns[k], q))
    ensures r.Some? ==> dcn.Some? && exists k, i :: WinsAt(dcn.value, ChaveColumns, q, k, i) && r.value == dcn.value.rows[i]
  {
    if dcn.None? then None else SearchColumns(dcn.value, ChaveColumns, q)
  }

  /** Whatever row is found holds the query verbatim under a candidate column. */
  lemma FoundRowHoldsQuery(dcn: Option<Dataset>, q: string)
    requires FindSiteByChave(dcn, q).Some?
    ensures var row := FindSiteByChave(dcn, q).value;
            row in dcn.value.rows && exists k :: 0 <= k < |ChaveColumns| && ChaveColumns[k] in row && row[ChaveColumns[k]] == Text(q)
  {
    var row := FindSiteByChave(dcn, q).value;
    var k, i :| WinsAt(dcn.value, ChaveColumns, q, k, i) && row == dcn.value.rows[i];
    assert ChaveColumns[k] in row && row[ChaveColumns[k]] == Text(q);
  }

  /** In a well-formed table the row found carries every column of the table and no other. */
  lemma FoundRowHasTableColumns(dcn: Option<Dataset>, q: string)
    requires dcn.Some? && WellFormed(dcn.value) && FindSiteByChave(dcn, q).Some?
    ensures FindSiteByChave(dcn, q).value.Keys == set c | c in dcn.value.columns
  {
    FoundRowHoldsQuery(dcn, q);
  }

  /** The specification `WinsAt` leaves exactly one possible answer. */
  lemma WinnerUnique(d: Dataset, cols: seq<string>, q: string, k: int, i: int, k': int, i': int)
    requires WinsAt(d, cols, q, k, i) && WinsAt(d, cols, q, k', i')
    ensures k == k' && i == i'
  {
    assert ColumnHit(d, cols[k], q);
    assert ColumnHit(d, cols[k'], q);
    FirstMatchUnique(d.rows, cols[k], Text(q), i, i');
  }

  /**
   * A present candidate column without an equal cell does not end the
   * search: the answer is then that of the remaining candidates.
   */
  lemma {:induction false} MissSkipsColumn(d: Dataset, cols: seq<string>, q: string)
    requires |cols| > 0 && !ColumnHit(d, cols[0], q)
    ensures SearchColumns(d, cols, q) == SearchColumns(d, cols[1..], q)
  {
  }

  /** How the expression on line 108 ends: a value, or an uncaught exception. */
  datatype Outcome<+T> = Returned(value: T) | Raised(error: string)

  /**
   * The loop of `find_site_by_chave` AS WRITTEN: the filter names `dn_data`,
   * which is defined nowhere, so the first candidate column that exists
   * raises `NameError` before any row is compared.
   */
  function SearchColumnsAsWritten(d: Dataset, cols: seq<string>, q: string): (r: Outcome<Option<Row>>)
    ensures r.Raised? <==> exists k :: 0 <= k < |cols| && cols[k] in d.columns
    ensures r.Raised? ==> r.error == "NameError: name 'dn_data' is not defined"
    ensures r.Returned? ==> r.value.None?
  {
    if |cols| == 0 then Returned(None)
    else if cols[0] in d.columns then Raised("NameError: name 'dn_data' is not defined")
    else
      var rest := SearchColumnsAsWritten(d, cols[1..], q);
      assert forall k :: 1 <= k < |cols| ==> cols[k] == cols[1..][k - 1];
      rest
  }

  function FindSiteByChaveAsWritten(dcn: Option<Dataset>, q: string): (r: Outcome<Option<Row>>)
    ensures r.Returned? ==> r.value.None?
    ensures r.Raised? <==> dcn.Some? && exists k :: 0 <= k < |ChaveColumns| && ChaveColumns[k] in dcn.value.columns
  {
    if dcn.None? then Returned(None) else SearchColumnsAsWritten(dcn.value, ChaveColumns, q)
  }

  /**
   * Every query the intended lookup answers makes the code as written raise
   * instead; the as-written lookup never finds a site.
   */
  lemma AsWrittenRaisesWhereIntendedFinds(dcn: Option<Dataset>, q: string)
    requires FindSiteByChave(dcn, q).Some?
    ensures FindSiteByChaveAsWritten(dcn, q).Raised?
  {
    var k, i :| WinsAt(dcn.value, ChaveColumns, q, k, i) && FindSiteByChave(dcn, q).value == dcn.value.rows[i];
  }

  /** A concrete DCN table with a `CHAVE` column holding the query. */
  lemma AsWrittenCounterexample()
    ensures var dcn := Some(Dataset(["CHAVE"], [map["CHAVE" := Text("C1")]]));
            && FindSiteByChaveAsWritten(dcn, "C1") == Raised("NameError: name 'dn_data' is not defined")
            && FindSiteByChave(dcn, "C1") == Some(map["CHAVE" := Text("C1")])
  {
    var row := map["CHAVE" := Text("C1")];
    var d := Dataset(["CHAVE"], [row]);
  }

  /**
   * `find_device_config`: `None` without a Datasheet; otherwise the first
   * Datasheet row whose device model equals the site row's, provided both
   * sides have that column.
   */
  function FindDeviceConfig(datasheet: Option<Dataset>, site: Row): (r: Option<Row>)
    ensures r.Some? <==>
              && datasheet.Some? && ModelColumn in site && ModelColumn in datasheet.value.columns
              && AnyMatch(datasheet.value.rows, ModelColumn, site[ModelColumn])
    ensures r.Some? ==> exists i :: IsFirstMatch(datasheet.value.rows, ModelColumn, site[ModelColumn], i)
                                    && r.value == datasheet.value.rows[i]
    ensures r.Some? ==> site[ModelColumn] != Empty && CellAt(r.value, ModelColumn) == site[ModelColumn]
  {
    if datasheet.None? then None
    else if ModelColumn in site && ModelColumn in datasheet.value.columns then
      var matched := Select(datasheet.value.rows, ModelColumn, site[ModelColumn]);
      if |matched| > 0 then Some(matched[0]) else None
    else None
  }
}
