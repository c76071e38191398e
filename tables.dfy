/** The table configurations the table builder fills. The layouts (columns,
    bands, caption) and the per-table column mappers belong to a table
    package that is not part of this model: they are the fields of a
    `TablesPackage` value, and only how the builder combines them is modelled. */
module Tables {
  import opened ColumnNames
  import opened Domain
  import opened PrettyTable

  /** The tables the builder can produce; any other enumeration value is
      carried by its number. */
  datatype TableType =
    | TableTypeNode
    | TableTypeRPC
    | TableTypePeers
    | TableTypeValidator
    | TableTypeSystemState
    | TableTypeValidatorsCounts
    | TableTypeValidatorsAtRisk
    | TableTypeValidatorReports
    | TableTypeActiveValidators
    | TableTypeOther(code: int)
  {
    /** Tables with one row per updated host. */
    predicate PerHost() {
      TableTypeNode? || TableTypeRPC? || TableTypePeers? || TableTypeValidator?
    }

    /** Tables built from the system state of the first host. */
    predicate ReadsFirstHost() {
      TableTypeSystemState? || TableTypeValidatorsCounts?
      || TableTypeValidatorsAtRisk? || TableTypeValidatorReports? || TableTypeActiveValidators?
    }
  }

  /** A column of a table: its writer configuration and the values
      accumulated so far, one per row. */
  datatype ColumnEntry = ColumnEntry(setting: ColumnSetting, values: seq<CellValue>)

  /** The static description of a table: title, columns and bands (each band
      a list of column keys, shown as one line of the table). */
  datatype TableLayout = TableLayout(
    name: string,
    columns: map<ColumnName, ColumnSetting>,
    rows: seq<seq<ColumnName>>)

  /** A table being filled: the layout's columns with their values, the
      bands and the number of items (rows of data) added. */
  datatype TableConfig = TableConfig(
    name: string,
    columns: map<ColumnName, ColumnEntry>,
    rows: seq<seq<ColumnName>>,
    rowsCount: nat)

  /** The table package: one layout per table type, and the column mappers
      that turn an item (with its position) into one value per column. */
  datatype TablesPackage = TablesPackage(
    layout: TableType -> TableLayout,
    nodeValues: (nat, Host) -> ColumnValues,
    rpcValues: (nat, Host) -> ColumnValues,
    validatorValues: (nat, Host) -> ColumnValues,
    systemStateValues: SystemState -> ColumnValues,
    validatorCountsValues: SystemState -> ColumnValues,
    atRiskValues: (nat, ValidatorAtRisk) -> ColumnValues,
    reportValues: (nat, ValidatorReport) -> ColumnValues,
    activeValidatorValues: (nat, Validator) -> ColumnValues)

  /** A fresh configuration for a layout: every column present and empty,
      no rows. */
  function NewDefaultTableConfig(layout: TableLayout): (cfg: TableConfig)
    ensures cfg.rowsCount == 0 && cfg.name == layout.name && cfg.rows == layout.rows
    ensures cfg.columns.Keys == layout.columns.Keys
    ensures forall c :: c in cfg.columns ==> cfg.columns[c] == ColumnEntry(layout.columns[c], [])
  {
    TableConfig(layout.name, map c | c in layout.columns :: ColumnEntry(layout.columns[c], []), layout.rows, 0)
  }

  /** Appends to every column the mapper's value for it, when the mapper
      produced one; columns the mapper left out are unchanged. */
  function SetColumnValues(columns: map<ColumnName, ColumnEntry>, values: ColumnValues): (r: map<ColumnName, ColumnEntry>)
    ensures r.Keys == columns.Keys
  {
    map c | c in columns :: columns[c].(values := columns[c].values + (if c in values then [values[c]] else []))
  }

  /** One more row: the mapper's values appended and the count increased. */
  function AddRow(cfg: TableConfig, values: ColumnValues): (r: TableConfig)
    ensures r.rowsCount == cfg.rowsCount + 1
    ensures r.name == cfg.name && r.rows == cfg.rows && r.columns.Keys == cfg.columns.Keys
  {
    cfg.(columns := SetColumnValues(cfg.columns, values), rowsCount := cfg.rowsCount + 1)
  }

  /** A host takes part in the per-host tables once its metrics were updated. */
  predicate Updated(h: Host) {
    h.metrics.updated
  }

  /** The configuration after visiting the first `n` items: every kept item
      adds one row, mapped with its position in `items`. */
  function FoldItems<T>(cfg: TableConfig, mapper: (nat, T) -> ColumnValues, items: seq<T>, keep: T -> bool, n: nat): TableConfig
    requires n <= |items|
  {
    if n == 0 then cfg
    else
      var prev := FoldItems(cfg, mapper, items, keep, n - 1);
      if keep(items[n - 1]) then AddRow(prev, mapper(n - 1, items[n - 1])) else prev
  }

  /** The positions, among the first `n` items, of the kept ones: exactly
      those, in increasing order. */
  function KeptIndices<T>(items: seq<T>, keep: T -> bool, n: nat): (ks: seq<nat>)
    requires n <= |items|
    ensures forall i: nat :: i in ks <==> i < n && keep(items[i])
    ensures forall j, k :: 0 <= j < k < |ks| ==> ks[j] < ks[k]
    ensures forall j :: 0 <= j < |ks| ==> ks[j] < n
    ensures |ks| <= n
  {
    if n == 0 then []
    else
      var prev := KeptIndices(items, keep, n - 1);
      if keep(items[n - 1]) then prev + [n - 1] else prev
  }

  /** The values column `c` receives from the items at positions `ks`. */
  function ColumnHistory<T>(c: ColumnName, mapper: (nat, T) -> ColumnValues, items: seq<T>, ks: seq<nat>): seq<CellValue>
    requires forall j :: 0 <= j < |ks| ==> ks[j] < |items|
  {
    if ks == [] then []
    else
      var last := ks[|ks| - 1];
      ColumnHistory(c, mapper, items, ks[..|ks| - 1])
      + (if c in mapper(last, items[last]) then [mapper(last, items[last])[c]] else [])
  }

  /** When every mapped item has a value for `c`, column `c` receives one
      value per kept item. */
  lemma {:induction false} ColumnHistoryLength<T>(c: ColumnName, mapper: (nat, T) -> ColumnValues, items: seq<T>, ks: seq<nat>)
    requires forall j :: 0 <= j < |ks| ==> ks[j] < |items|
    requires forall j :: 0 <= j < |ks| ==> c in mapper(ks[j], items[ks[j]])
    ensures |ColumnHistory(c, mapper, items, ks)| == |ks|
  {
    if ks != [] {
      ColumnHistoryLength(c, mapper, items, ks[..|ks| - 1]);
    }
  }

  /** A fold's columns are the starting columns extended with the history of
      the positions `ks`. */
  ghost predicate ExtendsBy<T>(r: TableConfig, cfg: TableConfig, mapper: (nat, T) -> ColumnValues, items: seq<T>, ks: seq<nat>)
    requires forall j :: 0 <= j < |ks| ==> ks[j] < |items|
  {
    && r.columns.Keys == cfg.columns.Keys
    && forall c :: c in r.columns ==>
         r.columns[c] == cfg.columns[c].(values := cfg.columns[c].values + ColumnHistory(c, mapper, items, ks))
  }

  /** What a fold builds: the rows of the kept items, in order, each mapped
      with its own position; name, bands and column keys are untouched. */
  lemma FoldItemsContents<T>(cfg: TableConfig, mapper: (nat, T) -> ColumnValues, items: seq<T>, keep: T -> bool, n: nat)
    requires n <= |items|
    ensures var r := FoldItems(cfg, mapper, items, keep, n);
      var ks := KeptIndices(items, keep, n);
      && r.name == cfg.name && r.rows == cfg.rows
      && r.rowsCount == cfg.rowsCount + |ks|
      && ExtendsBy(r, cfg, mapper, items, ks)
  {
    FoldItemsCount(cfg, mapper, items, keep, n);
    FoldItemsColumns(cfg, mapper, items, keep, n);
  }

  /** A fold adds one row per kept item and keeps the name, the bands and
      the column keys. */
  lemma {:induction false} FoldItemsCount<T>(cfg: TableConfig, mapper: (nat, T) -> ColumnValues, items: seq<T>, keep: T -> bool, n: nat)
    requires n <= |items|
    ensures var r := FoldItems(cfg, mapper, items, keep, n);
      && r.name == cfg.name && r.rows == cfg.rows && r.columns.Keys == cfg.columns.Keys
      && r.rowsCount == cfg.rowsCount + |KeptIndices(items, keep, n)|
  {
    if n > 0 {
      FoldItemsCount(cfg, mapper, items, keep, n - 1);
    }
  }

  /** A fold extends each column with the history of the kept positions. */
  lemma FoldItemsColumns<T>(cfg: TableConfig, mapper: (nat, T) -> ColumnValues, items: seq<T>, keep: T -> bool, n: nat)
    requires n <= |items|
    ensures ExtendsBy(FoldItems(cfg, mapper, items, keep, n), cfg, mapper, items, KeptIndices(items, keep, n))
  {
    var r := FoldItems(cfg, mapper, items, keep, n);
    var ks := KeptIndices(items, keep, n);
    FoldItemsCount(cfg, mapper, items, keep, n);
    forall c | c in r.columns
      ensures r.columns[c] == cfg.columns[c].(values := cfg.columns[c].values + ColumnHistory(c, mapper, items, ks))
    {
      FoldColumn(cfg, mapper, items, keep, n, c);
      FoldedValuesHistory(c, mapper, items, keep, n);
    }
  }

  /** The values column `c` receives from the first `n` items, item by item. */
  function FoldedValues<T>(c: ColumnName, mapper: (nat, T) -> ColumnValues, items: seq<T>, keep: T -> bool, n: nat): seq<CellValue>
    requires n <= |items|
  {
    if n == 0 then []
    else
      var v := mapper(n - 1, items[n - 1]);
      FoldedValues(c, mapper, items, keep, n - 1) + (if keep(items[n - 1]) && c in v then [v[c]] else [])
  }

  /** Column `c` of a fold: its starting values followed by what the items
      gave it. */
  lemma {:induction false} FoldColumn<T>(cfg: TableConfig, mapper: (nat, T) -> ColumnValues, items: seq<T>, keep: T -> bool, n: nat, c: ColumnName)
    requires n <= |items| && c in cfg.columns
    ensures var r := FoldItems(cfg, mapper, items, keep, n);
      c in r.columns
      && r.columns[c] == cfg.columns[c].(values := cfg.columns[c].values + FoldedValues(c, mapper, items, keep, n))
  {
    if n > 0 {
      FoldColumn(cfg, mapper, items, keep, n - 1, c);
      if keep(items[n - 1]) {
        AddRowColumn(FoldItems(cfg, mapper, items, keep, n - 1), mapper(n - 1, items[n - 1]), c);
      }
    }
  }

  /** Item by item, a column receives the history of the kept positions. */
  lemma {:induction false} FoldedValuesHistory<T>(c: ColumnName, mapper: (nat, T) -> ColumnValues, items: seq<T>, keep: T -> bool, n: nat)
    requires n <= |items|
    ensures FoldedValues(c, mapper, items, keep, n) == ColumnHistory(c, mapper, items, KeptIndices(items, keep, n))
  {
    if n > 0 {
      var ks := KeptIndices(items, keep, n - 1);
      FoldedValuesHistory(c, mapper, items, keep, n - 1);
      if keep(items[n - 1]) {
        assert KeptIndices(items, keep, n) == ks + [n - 1];
        HistoryStep(c, mapper, items, ks, n - 1);
      }
    }
  }

  /** The history of one more position ends with the mapper's value for
      `c` there, if it gave one. */
  lemma HistoryStep<T>(c: ColumnName, mapper: (nat, T) -> ColumnValues, items: seq<T>, ks: seq<nat>, k: nat)
    requires forall j :: 0 <= j < |ks| ==> ks[j] < |items|
    requires k < |items|
    ensures ColumnHistory(c, mapper, items, ks + [k])
         == ColumnHistory(c, mapper, items, ks) + (if c in mapper(k, items[k]) then [mapper(k, items[k])[c]] else [])
  {
    assert (ks + [k])[..|ks|] == ks;
  }

  /** Adding a row appends to column `c` the value given for it, if any. */
  lemma AddRowColumn(cfg: TableConfig, values: ColumnValues, c: ColumnName)
    requires c in cfg.columns
    ensures c in AddRow(cfg, values).columns
    ensures AddRow(cfg, values).columns[c]
         == cfg.columns[c].(values := cfg.columns[c].values + (if c in values then [values[c]] else []))
  {
  }

  /** Items that are not kept leave no trace: two item lists that agree on
      which positions are kept, and on the kept items, give the same table. */
  lemma {:induction false} SkippedItemsIgnored<T>(cfg: TableConfig, mapper: (nat, T) -> ColumnValues, items: seq<T>, items': seq<T>, keep: T -> bool, n: nat)
    requires n <= |items| && n <= |items'|
    requires forall i :: 0 <= i < n ==> keep(items[i]) == keep(items'[i])
    requires forall i :: 0 <= i < n && keep(items[i]) ==> items[i] == items'[i]
    ensures FoldItems(cfg, mapper, items, keep, n) == FoldItems(cfg, mapper, items', keep, n)
  {
    if n > 0 {
      SkippedItemsIgnored(cfg, mapper, items, items', keep, n - 1);
    }
  }

  /** When every item is kept, the kept positions are 0, 1, ..., n-1. */
  lemma {:induction false} AllKeptIndices<T>(items: seq<T>, n: nat)
    requires n <= |items|
    ensures var ks := KeptIndices(items, (x: T) => true, n);
      |ks| == n && forall k :: 0 <= k < n ==> ks[k] == k
  {
    if n > 0 {
      AllKeptIndices(items, n - 1);
    }
  }

  /** Every band column is a column of the table and holds a value for each
      row: what laying out the rows reads. */
  predicate RowsReady(cfg: TableConfig) {
    && |cfg.rows| > 0
    && (cfg.rowsCount > 0 ==>
          forall b, c :: 0 <= b < |cfg.rows| && c in cfg.rows[b] ==>
            c in cfg.columns && |cfg.columns[c].values| >= cfg.rowsCount)
  }

  /** A layout whose bands name only its own columns, with at least one band. */
  predicate LayoutWellFormed(layout: TableLayout) {
    && |layout.rows| > 0
    && forall b, c :: 0 <= b < |layout.rows| && c in layout.rows[b] ==> c in layout.columns
  }

  /** A mapper that gives every column of the layout a value, for every item. */
  predicate CoversLayout<T>(mapper: (nat, T) -> ColumnValues, items: seq<T>, layout: TableLayout) {
    forall i, c :: 0 <= i < |items| && c in layout.columns ==> c in mapper(i, items[i])
  }

  /** A fold over a well-formed layout with a covering mapper yields a
      table whose rows can be laid out: every column holds exactly one
      value per row. */
  lemma FoldReadyForRows<T>(layout: TableLayout, mapper: (nat, T) -> ColumnValues, items: seq<T>, keep: T -> bool)
    requires LayoutWellFormed(layout) && CoversLayout(mapper, items, layout)
    ensures var r := FoldItems(NewDefaultTableConfig(layout), mapper, items, keep, |items|);
      && RowsReady(r)
      && forall c :: c in r.columns ==> |r.columns[c].values| == r.rowsCount
  {
    var cfg0 := NewDefaultTableConfig(layout);
    var ks := KeptIndices(items, keep, |items|);
    FoldItemsContents(cfg0, mapper, items, keep, |items|);
    forall c | c in layout.columns
      ensures |ColumnHistory(c, mapper, items, ks)| == |ks|
    {
      ColumnHistoryLength(c, mapper, items, ks);
    }
  }
}
