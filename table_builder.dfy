/** The table builder: it fills a table configuration from the hosts (or from
    the first host's system state) and then writes columns, rows and a row
    painter into the table writer, whose calls are kept as an event log. */
module TableBuilder {
  import opened Wrappers
  import opened ColumnNames
  import opened Domain
  import opened PrettyTable
  import opened Tables
  import opened RowLayout

  /** A per-host table: one row for every updated host, mapped with the
      host's position in `hosts`. */
  function HostTable(pkg: TablesPackage, t: TableType, mapper: (nat, Host) -> ColumnValues, hosts: seq<Host>): TableConfig {
    FoldItems(NewDefaultTableConfig(pkg.layout(t)), mapper, hosts, Updated, |hosts|)
  }

  /** A list table: one row per element, in list order. */
  function ListTable<T>(pkg: TablesPackage, t: TableType, mapper: (nat, T) -> ColumnValues, items: seq<T>): TableConfig {
    FoldItems(NewDefaultTableConfig(pkg.layout(t)), mapper, items, (x: T) => true, |items|)
  }

  /** A one-row table built from one set of column values. */
  function SingleRowTable(pkg: TablesPackage, t: TableType, values: ColumnValues): TableConfig {
    AddRow(NewDefaultTableConfig(pkg.layout(t)), values)
  }

  /** The configuration initialising a table of type `t` produces; None for
      a type the builder does not know. The system-state tables read the
      first host, so they need one. */
  function InitTableConfig(pkg: TablesPackage, t: TableType, hosts: seq<Host>): (r: Option<TableConfig>)
    requires t.ReadsFirstHost() ==> |hosts| > 0
    ensures r.None? <==> t.TableTypeOther?
  {
    match t
    case TableTypeNode => Some(HostTable(pkg, t, pkg.nodeValues, hosts))
    case TableTypeRPC => Some(HostTable(pkg, t, pkg.rpcValues, hosts))
    case TableTypePeers => Some(HostTable(pkg, t, pkg.nodeValues, hosts))
    case TableTypeValidator => Some(HostTable(pkg, t, pkg.validatorValues, hosts))
    case TableTypeSystemState => Some(SingleRowTable(pkg, t, pkg.systemStateValues(hosts[0].metrics.systemState)))
    case TableTypeValidatorsCounts => Some(SingleRowTable(pkg, t, pkg.validatorCountsValues(hosts[0].metrics.systemState)))
    case TableTypeValidatorsAtRisk => Some(ListTable(pkg, t, pkg.atRiskValues, hosts[0].metrics.systemState.validatorsAtRisk))
    case TableTypeValidatorReports => Some(ListTable(pkg, t, pkg.reportValues, hosts[0].metrics.systemState.validatorReports))
    case TableTypeActiveValidators => Some(ListTable(pkg, t, pkg.activeValidatorValues, hosts[0].metrics.systemState.activeValidators))
    case TableTypeOther(_) => None
  }

  /** Row counts: the number of updated hosts for the per-host tables, one
      for the system-state and validator-counts tables, and the length of
      the list for the list tables. Every table starts from the layout of
      its type, whatever was configured before. */
  lemma InitTableRowCounts(pkg: TablesPackage, t: TableType, hosts: seq<Host>)
    requires t.ReadsFirstHost() ==> |hosts| > 0
    ensures var r := InitTableConfig(pkg, t, hosts);
      && (r.Some? ==> r.value.name == pkg.layout(t).name && r.value.rows == pkg.layout(t).rows
                      && r.value.columns.Keys == pkg.layout(t).columns.Keys)
      && (t.PerHost() ==> r.value.rowsCount == |KeptIndices(hosts, Updated, |hosts|)|)
      && (t.TableTypeSystemState? || t.TableTypeValidatorsCounts? ==> r.value.rowsCount == 1)
      && (t.TableTypeValidatorsAtRisk? ==> r.value.rowsCount == |hosts[0].metrics.systemState.validatorsAtRisk|)
      && (t.TableTypeValidatorReports? ==> r.value.rowsCount == |hosts[0].metrics.systemState.validatorReports|)
      && (t.TableTypeActiveValidators? ==> r.value.rowsCount == |hosts[0].metrics.systemState.activeValidators|)
  {
    var cfg0 := NewDefaultTableConfig(pkg.layout(t));
    match t
    case TableTypeNode => FoldItemsContents(cfg0, pkg.nodeValues, hosts, Updated, |hosts|);
    case TableTypeRPC => FoldItemsContents(cfg0, pkg.rpcValues, hosts, Updated, |hosts|);
    case TableTypePeers => FoldItemsContents(cfg0, pkg.nodeValues, hosts, Updated, |hosts|);
    case TableTypeValidator => FoldItemsContents(cfg0, pkg.validatorValues, hosts, Updated, |hosts|);
    case TableTypeSystemState =>
    case TableTypeValidatorsCounts =>
    case TableTypeValidatorsAtRisk =>
      var items := hosts[0].metrics.systemState.validatorsAtRisk;
      FoldItemsContents(cfg0, pkg.atRiskValues, items, (x: ValidatorAtRisk) => true, |items|);
      AllKeptIndices(items, |items|);
    case TableTypeValidatorReports =>
      var items := hosts[0].metrics.systemState.validatorReports;
      FoldItemsContents(cfg0, pkg.reportValues, items, (x: ValidatorReport) => true, |items|);
      AllKeptIndices(items, |items|);
    case TableTypeActiveValidators =>
      var items := hosts[0].metrics.systemState.activeValidators;
      FoldItemsContents(cfg0, pkg.activeValidatorValues, items, (x: Validator) => true, |items|);
      AllKeptIndices(items, |items|);
    case TableTypeOther(_) =>
  }

  /** The hosts that are not updated play no part: replacing them by other
      non-updated hosts leaves every per-host table as it was. */
  lemma StaleHostsIgnored(pkg: TablesPackage, t: TableType, hosts: seq<Host>, hosts': seq<Host>)
    requires t.PerHost() && |hosts| == |hosts'|
    requires forall i :: 0 <= i < |hosts| ==> Updated(hosts[i]) == Updated(hosts'[i])
    requires forall i :: 0 <= i < |hosts| && Updated(hosts[i]) ==> hosts[i] == hosts'[i]
    ensures InitTableConfig(pkg, t, hosts) == InitTableConfig(pkg, t, hosts')
  {
    var cfg0 := NewDefaultTableConfig(pkg.layout(t));
    match t
    case TableTypeNode => SkippedItemsIgnored(cfg0, pkg.nodeValues, hosts, hosts', Updated, |hosts|);
    case TableTypeRPC => SkippedItemsIgnored(cfg0, pkg.rpcValues, hosts, hosts', Updated, |hosts|);
    case TableTypePeers => SkippedItemsIgnored(cfg0, pkg.nodeValues, hosts, hosts', Updated, |hosts|);
    case TableTypeValidator => SkippedItemsIgnored(cfg0, pkg.validatorValues, hosts, hosts', Updated, |hosts|);
  }

  /** Column `c` of a per-host table holds, for each updated host in order,
      the mapper's value for it computed with the host's position in the
      input (not with the number of rows kept so far). */
  lemma HostTableValues(pkg: TablesPackage, t: TableType, mapper: (nat, Host) -> ColumnValues, hosts: seq<Host>, c: ColumnName)
    requires c in pkg.layout(t).columns
    ensures var r := HostTable(pkg, t, mapper, hosts);
      c in r.columns && r.columns[c].values == ColumnHistory(c, mapper, hosts, KeptIndices(hosts, Updated, |hosts|))
  {
    FoldItemsContents(NewDefaultTableConfig(pkg.layout(t)), mapper, hosts, Updated, |hosts|);
  }

  /** The peers table is filled by the node mapper: with the node table's
      layout it is the node table. */
  lemma PeersTableUsesNodeMapper(pkg: TablesPackage, hosts: seq<Host>)
    requires pkg.layout(TableTypePeers) == pkg.layout(TableTypeNode)
    ensures InitTableConfig(pkg, TableTypePeers, hosts) == InitTableConfig(pkg, TableTypeNode, hosts)
  {
  }

  /** The single-row tables hold, in every column, the value the mapper gave
      for the first host's system state, when it gave one. */
  lemma SystemStateTableFromFirstHost(pkg: TablesPackage, hosts: seq<Host>, c: ColumnName)
    requires |hosts| > 0 && c in pkg.layout(TableTypeSystemState).columns
    ensures var r := InitTableConfig(pkg, TableTypeSystemState, hosts).value;
      var values := pkg.systemStateValues(hosts[0].metrics.systemState);
      c in r.columns && r.columns[c].values == (if c in values then [values[c]] else [])
  {
  }

  /** With a well-formed layout and mappers that cover it, the configuration
      of a per-host table can be laid out: every column holds one value per
      row. */
  lemma HostTableReadyForRows(pkg: TablesPackage, t: TableType, mapper: (nat, Host) -> ColumnValues, hosts: seq<Host>)
    requires LayoutWellFormed(pkg.layout(t)) && CoversLayout(mapper, hosts, pkg.layout(t))
    ensures RowsReady(HostTable(pkg, t, mapper, hosts))
  {
    FoldReadyForRows(pkg.layout(t), mapper, hosts, Updated);
  }

  /** The background colours the painter cycles through. */
  const BackgroundCycle: seq<Color> := [BgWhite, BgHiBlue, BgHiBlue, BgWhite]

  /** A line containing an int value (a value line with a number in it). */
  predicate HasInt(row: seq<CellValue>) {
    exists j :: 0 <= j < |row| && row[j].IntValue?
  }

  /** One painting step: the colours for `row` and the next counter. */
  function PaintStep(counter: nat, row: seq<CellValue>): (r: (seq<Color>, nat))
    requires counter < 4
    ensures r.1 < 4
    ensures HasInt(row) ==> r == ([FgWhite], counter)
    ensures !HasInt(row) ==> r.0 == [FgBlack, BackgroundCycle[counter]] && r.1 == (counter + 1) % 4
  {
    if HasInt(row) then ([FgWhite], counter)
    else ([FgBlack, BackgroundCycle[counter]], if counter + 1 > 3 then 0 else counter + 1)
  }

  /** The counter after painting `rows` in order. */
  function CounterAfter(counter: nat, rows: seq<seq<CellValue>>): (r: nat)
    requires counter < 4
    ensures r < 4
    decreases |rows|
  {
    if rows == [] then counter else CounterAfter(PaintStep(counter, rows[0]).1, rows[1..])
  }

  /** The number of rows without an int value. */
  function PlainRows(rows: seq<seq<CellValue>>): nat {
    if rows == [] then 0 else (if HasInt(rows[0]) then 0 else 1) + PlainRows(rows[1..])
  }

  /** The counter only moves on rows without an int, and cycles through
      0, 1, 2, 3: after any rows it is the starting counter plus the number of
      such rows, modulo 4. */
  lemma {:induction false} PainterCycles(counter: nat, rows: seq<seq<CellValue>>)
    requires counter < 4
    ensures CounterAfter(counter, rows) == (counter + PlainRows(rows)) % 4
    decreases |rows|
  {
    if rows != [] {
      PainterCycles(PaintStep(counter, rows[0]).1, rows[1..]);
    }
  }

  /** The row painter installed by the builder: a colour counter that
      advances on every line without an int value. */
  class RowPainter {
    var currentColor: nat

    predicate Valid()
      reads this
    {
      currentColor < 4
    }

    constructor ()
      ensures Valid() && currentColor == 0
    {
      currentColor := 0;
    }

    /** Lines holding an int get a white foreground and leave the counter
        alone; other lines get black on the current background, and the
        counter moves on. */
    method Paint(row: seq<CellValue>) returns (colors: seq<Color>)
      requires Valid()
      modifies this
      ensures Valid()
      ensures (colors, currentColor) == PaintStep(old(currentColor), row)
    {
      for j := 0 to |row|
        invariant forall i :: 0 <= i < j ==> !row[i].IntValue?
      {
        if row[j].IntValue? {
          return [FgWhite];
        }
      }
      colors := [FgBlack, BackgroundCycle[currentColor]];
      currentColor := currentColor + 1;
      if currentColor > 3 {
        currentColor := 0;
      }
    }
  }

  /** The keys listed once each, covering exactly `keys`. */
  predicate IsEnumeration(order: seq<ColumnName>, keys: set<ColumnName>) {
    && (forall j :: 0 <= j < |order| ==> order[j] in keys)
    && (forall c :: c in keys ==> c in order)
    && (forall i, j :: 0 <= i < j < |order| ==> order[i] != order[j])
  }

  /** The settings of the columns, one per column, in the (unspecified) order
      the map is walked; `order` records that order. */
  method CollectColumnSettings(columns: map<ColumnName, ColumnEntry>) returns (settings: seq<ColumnSetting>, ghost order: seq<ColumnName>)
    ensures IsEnumeration(order, columns.Keys)
    ensures |settings| == |order| == |columns|
    ensures forall j :: 0 <= j < |order| ==> settings[j] == columns[order[j]].setting
    ensures |settings| == |columns|
    ensures forall j :: 0 <= j < |settings| ==> exists c :: c in columns && settings[j] == columns[c].setting
  {
    settings := [];
    order := [];
    var remaining := columns.Keys;
    while remaining != {}
      invariant forall j :: 0 <= j < |order| ==> order[j] in columns && order[j] !in remaining
      invariant forall c :: c in columns ==> c in remaining || c in order
      invariant remaining <= columns.Keys
      invariant forall i, j :: 0 <= i < j < |order| ==> order[i] != order[j]
      invariant |order| + |remaining| == |columns|
      invariant |settings| == |order|
      invariant forall j :: 0 <= j < |order| ==> settings[j] == columns[order[j]].setting
      decreases |remaining|
    {
      var c :| c in remaining;
      settings := settings + [columns[c].setting];
      order := order + [c];
      remaining := remaining - {c};
    }
    forall j | 0 <= j < |settings|
      ensures exists c :: c in columns && settings[j] == columns[c].setting
    {
      var c := order[j];
      assert c in columns && settings[j] == columns[c].setting;
    }
  }

  /** The settings list names every column of the table exactly once. */
  ghost predicate ListsEachColumnOnce(settings: seq<ColumnSetting>, columns: map<ColumnName, ColumnEntry>) {
    exists order :: IsEnumeration(order, columns.Keys) && |order| == |settings|
      && forall j :: 0 <= j < |order| ==> settings[j] == columns[order[j]].setting
  }

  /** A table builder: the table package it uses, the configuration being
      built and the calls made on its writer. */
  class Builder {
    const tableType: TableType
    const hosts: seq<Host>
    const tables: TablesPackage
    var config: Option<TableConfig>
    var log: seq<WriterEvent>

    constructor (tableType: TableType, hosts: seq<Host>, tables: TablesPackage)
      ensures this.tableType == tableType && this.hosts == hosts && this.tables == tables
      ensures config == None && log == []
    {
      this.tableType := tableType;
      this.hosts := hosts;
      this.tables := tables;
      config := None;
      log := [];
    }

    /** Dispatches on the table type. It never fails; an unknown type leaves
        the configuration as it was. */
    method InitTable(table: TableType, hosts: seq<Host>) returns (err: Option<string>)
      requires table.ReadsFirstHost() ==> |hosts| > 0
      modifies this
      ensures err == None
      ensures config == (if table.TableTypeOther? then old(config) else InitTableConfig(tables, table, hosts))
      ensures log == old(log)
    {
      match table {
      case TableTypeNode => HandleNodeTable(hosts);
      case TableTypeRPC => HandleRPCTable(hosts);
      case TableTypePeers => HandlePeersTable(hosts);
      case TableTypeValidator => HandleValidatorTable(hosts);
      case TableTypeSystemState =>
        var systemState := hosts[0].metrics.systemState;
        HandleSystemStateTable(systemState);
      case TableTypeValidatorsCounts =>
        var systemState := hosts[0].metrics.systemState;
        HandleValidatorCountsTable(systemState);
      case TableTypeValidatorsAtRisk =>
        var systemState := hosts[0].metrics.systemState;
        var e := HandleValidatorsAtRiskTable(systemState);
        if e.Some? {
          return e;
        }
      case TableTypeValidatorReports =>
        var systemState := hosts[0].metrics.systemState;
        var e := HandleValidatorReportsTable(systemState);
        if e.Some? {
          return e;
        }
      case TableTypeActiveValidators =>
        var systemState := hosts[0].metrics.systemState;
        HandleActiveValidatorsTable(systemState);
      case TableTypeOther(_) =>
      }
      return None;
    }

    method HandleNodeTable(hosts: seq<Host>)
      modifies this
      ensures config == Some(HostTable(tables, TableTypeNode, tables.nodeValues, hosts)) && log == old(log)
    {
      var tableConfig := FillRows(NewDefaultTableConfig(tables.layout(TableTypeNode)), tables.nodeValues, hosts, Updated);
      config := Some(tableConfig);
    }

    method HandleRPCTable(hosts: seq<Host>)
      modifies this
      ensures config == Some(HostTable(tables, TableTypeRPC, tables.rpcValues, hosts)) && log == old(log)
    {
      var tableConfig := FillRows(NewDefaultTableConfig(tables.layout(TableTypeRPC)), tables.rpcValues, hosts, Updated);
      config := Some(tableConfig);
    }

    /** The peers table is filled with the node mapper. */
    method HandlePeersTable(hosts: seq<Host>)
      modifies this
      ensures config == Some(HostTable(tables, TableTypePeers, tables.nodeValues, hosts)) && log == old(log)
    {
      var tableConfig := FillRows(NewDefaultTableConfig(tables.layout(TableTypePeers)), tables.nodeValues, hosts, Updated);
      config := Some(tableConfig);
    }

    method HandleValidatorTable(hosts: seq<Host>)
      modifies this
      ensures config == Some(HostTable(tables, TableTypeValidator, tables.validatorValues, hosts)) && log == old(log)
    {
      var tableConfig := FillRows(NewDefaultTableConfig(tables.layout(TableTypeValidator)), tables.validatorValues, hosts, Updated);
      config := Some(tableConfig);
    }

    method HandleSystemStateTable(systemState: SystemState)
      modifies this
      ensures config == Some(SingleRowTable(tables, TableTypeSystemState, tables.systemStateValues(systemState))) && log == old(log)
    {
      var tableConfig := NewDefaultTableConfig(tables.layout(TableTypeSystemState));
      var columnValues := tables.systemStateValues(systemState);
      tableConfig := tableConfig.(columns := SetColumnValues(tableConfig.columns, columnValues));
      tableConfig := tableConfig.(rowsCount := tableConfig.rowsCount + 1);
      config := Some(tableConfig);
    }

    method HandleValidatorCountsTable(systemState: SystemState)
      modifies this
      ensures config == Some(SingleRowTable(tables, TableTypeValidatorsCounts, tables.validatorCountsValues(systemState))) && log == old(log)
    {
      var tableConfig := NewDefaultTableConfig(tables.layout(TableTypeValidatorsCounts));
      var columnValues := tables.validatorCountsValues(systemState);
      tableConfig := tableConfig.(columns := SetColumnValues(tableConfig.columns, columnValues));
      tableConfig := tableConfig.(rowsCount := tableConfig.rowsCount + 1);
      config := Some(tableConfig);
    }

    method HandleValidatorsAtRiskTable(systemState: SystemState) returns (err: Option<string>)
      modifies this
      ensures err == None
      ensures config == Some(ListTable(tables, TableTypeValidatorsAtRisk, tables.atRiskValues, systemState.validatorsAtRisk))
      ensures log == old(log)
    {
      var tableConfig := FillRows(NewDefaultTableConfig(tables.layout(TableTypeValidatorsAtRisk)), tables.atRiskValues,
        systemState.validatorsAtRisk, (x: ValidatorAtRisk) => true);
      config := Some(tableConfig);
      return None;
    }

    method HandleValidatorReportsTable(systemState: SystemState) returns (err: Option<string>)
      modifies this
      ensures err == None
      ensures config == Some(ListTable(tables, TableTypeValidatorReports, tables.reportValues, systemState.validatorReports))
      ensures log == old(log)
    {
      var tableConfig := FillRows(NewDefaultTableConfig(tables.layout(TableTypeValidatorReports)), tables.reportValues,
        systemState.validatorReports, (x: ValidatorReport) => true);
      config := Some(tableConfig);
      return None;
    }

    method HandleActiveValidatorsTable(systemState: SystemState)
      modifies this
      ensures config == Some(ListTable(tables, TableTypeActiveValidators, tables.activeValidatorValues, systemState.activeValidators))
      ensures log == old(log)
    {
      var tableConfig := FillRows(NewDefaultTableConfig(tables.layout(TableTypeActiveValidators)), tables.activeValidatorValues,
        systemState.activeValidators, (x: Validator) => true);
      config := Some(tableConfig);
    }

    /** Passes the writer one setting per column of the configuration. */
    method SetColumns()
      requires config.Some?
      modifies this
      ensures config == old(config)
      ensures |log| == |old(log)| + 1 && log[..|old(log)|] == old(log)
      ensures log[|old(log)|].SetColumnConfigs? && ListsEachColumnOnce(log[|old(log)|].settings, config.value.columns)
    {
      var columnsConfig, order := CollectColumnSettings(config.value.columns);
      log := log + [SetColumnConfigs(columnsConfig)];
    }

    /** Writes the lines of every item, band after band. */
    method SetRows()
      requires config.Some? && RowsReady(config.value)
      modifies this
      ensures config == old(config)
      ensures log == old(log) + SetRowsEvents(config.value)
    {
      var cfg := config.value;
      var rowsConfig := cfg.rows;
      var itemsCount := cfg.rowsCount;
      var columnsPerRow := |rowsConfig[0]|;

      var itemIndex := 0;
      while itemIndex < itemsCount
        invariant itemIndex <= itemsCount
        invariant config == old(config)
        invariant log == old(log) + RowsEvents(cfg, itemIndex)
      {
        ghost var before := log;
        var rowIndex := 0;
        while rowIndex < |rowsConfig|
          invariant rowIndex <= |rowsConfig|
          invariant config == old(config)
          invariant log == before + ItemEvents(cfg, itemIndex, rowIndex)
        {
          ghost var done := ItemEvents(cfg, itemIndex, rowIndex);
          EmitBand(cfg, itemIndex, rowIndex);
          assert log == before + (done + BandEvents(cfg, itemIndex, rowIndex));
          rowIndex := rowIndex + 1;
        }
        assert log == old(log) + (RowsEvents(cfg, itemIndex) + ItemEvents(cfg, itemIndex, |rowsConfig|));
        itemIndex := itemIndex + 1;
      }
    }

    /** Writes the lines of band `rowIndex` of item `itemIndex`: the table
        header and footer for the very first band, otherwise the captions
        again when the header-row rule asks for them; then the value line and
        a separator. */
    method EmitBand(cfg: TableConfig, itemIndex: nat, rowIndex: nat)
      requires RowsReady(cfg) && itemIndex < cfg.rowsCount && rowIndex < |cfg.rows|
      modifies this
      ensures config == old(config)
      ensures log == old(log) + BandEvents(cfg, itemIndex, rowIndex)
    {
      var rowsConfig := cfg.rows;
      var columns := rowsConfig[rowIndex];
      var header, footer, row := LayOutBand(cfg, itemIndex, columns, |rowsConfig[0]|);
      if itemIndex == 0 && rowIndex == 0 {
        log := log + [AppendHeader(header, HeaderLineStyle)];
        log := log + [AppendFooter(footer, FooterLineStyle)];
      } else if rowIndex % 2 == 1 || (itemIndex > 0 && |rowsConfig| > 1 && rowIndex % 2 == 0) {
        log := log + [AppendRow(header, HeaderLineStyle)];
      }
      log := log + [AppendRow(row, ValueLineStyle)];
      log := log + [AppendSeparator];
    }

    /** Installs a fresh row painter, its counter at the first colour. */
    method SetColors() returns (painter: RowPainter)
      modifies this
      ensures fresh(painter) && painter.Valid() && painter.currentColor == 0
      ensures config == old(config) && log == old(log) + [SetRowPainter]
    {
      painter := new RowPainter();
      log := log + [SetRowPainter];
    }
  }

  /** Visits the items in order, adding a row for every kept item with the
      values the mapper gives for its position. */
  method FillRows<T>(cfg0: TableConfig, mapper: (nat, T) -> ColumnValues, items: seq<T>, keep: T -> bool) returns (cfg: TableConfig)
    ensures cfg == FoldItems(cfg0, mapper, items, keep, |items|)
  {
    cfg := cfg0;
    for idx := 0 to |items|
      invariant cfg == FoldItems(cfg0, mapper, items, keep, idx)
    {
      if !keep(items[idx]) {
        continue;
      }
      var columnValues := mapper(idx, items[idx]);
      cfg := cfg.(columns := SetColumnValues(cfg.columns, columnValues));
      cfg := cfg.(rowsCount := cfg.rowsCount + 1);
    }
  }

  /** Builds the header, footer and value line of one band: captions and
      values are appended, footer blanks and padding prepended. */
  method LayOutBand(cfg: TableConfig, itemIndex: nat, columns: seq<ColumnName>, columnsPerRow: nat)
    returns (header: seq<CellValue>, footer: seq<CellValue>, row: seq<CellValue>)
    requires BandHasItem(cfg, itemIndex, columns)
    ensures header == HeaderLine(columns, columnsPerRow)
    ensures footer == FooterLine(columns, columnsPerRow)
    ensures row == ValueLine(cfg, itemIndex, columns, columnsPerRow)
  {
    var columnIdx;
    header, footer, row, columnIdx := BandCells(cfg, itemIndex, columns);
    ghost var captions, values := header, row;
    columnIdx := columnIdx + 1;
    ghost var filled := columnIdx;
    ghost var pad := 0;
    while columnIdx < columnsPerRow
      invariant columnIdx == filled + pad
      invariant filled < columnsPerRow ==> columnIdx <= columnsPerRow
      invariant columnsPerRow <= filled ==> pad == 0
      invariant header == Empties(pad) + captions
      invariant row == Empties(pad) + values
      invariant footer == Empties(|columns| + pad)
    {
      EmptiesGrow(pad, captions);
      EmptiesGrow(pad, values);
      EmptiesGrow(|columns| + pad, []);
      header := [EmptyValue] + header;
      footer := [EmptyValue] + footer;
      row := [EmptyValue] + row;
      columnIdx := columnIdx + 1;
      pad := pad + 1;
    }
    assert pad == PadCount(columnsPerRow, |columns|);
  }

  /** The range loop over a band's columns: captions and values appended,
      one footer blank prepended per column. The index variable keeps the
      last index visited, or 0 for an empty band. */
  method BandCells(cfg: TableConfig, itemIndex: nat, columns: seq<ColumnName>)
    returns (header: seq<CellValue>, footer: seq<CellValue>, row: seq<CellValue>, columnIdx: nat)
    requires BandHasItem(cfg, itemIndex, columns)
    ensures header == Captions(columns) && row == ItemValues(cfg, itemIndex, columns)
    ensures footer == Empties(|columns|)
    ensures columnIdx + 1 == (if |columns| == 0 then 1 else |columns|)
  {
    header, footer, row := [], [], [];
    columnIdx := 0;
    for k := 0 to |columns|
      invariant columnIdx == (if k == 0 then 0 else k - 1)
      invariant |header| == k && forall j :: 0 <= j < k ==> header[j] == TextValue(columns[j].ToString())
      invariant |row| == k && forall j :: 0 <= j < k ==> row[j] == cfg.columns[columns[j]].values[itemIndex]
      invariant footer == Empties(k)
    {
      columnIdx := k;
      var columnValue := cfg.columns[columns[k]].values[itemIndex];
      header := header + [TextValue(columns[k].ToString())];
      row := row + [columnValue];
      EmptiesGrow(k, []);
      footer := [EmptyValue] + footer;
    }
    assert header == Captions(columns);
    assert row == ItemValues(cfg, itemIndex, columns);
  }

  /** Prepending an empty value to a padded line pads it by one more. */
  lemma EmptiesGrow(n: nat, s: seq<CellValue>)
    ensures [EmptyValue] + (Empties(n) + s) == Empties(n + 1) + s
  {
    assert [EmptyValue] + Empties(n) == Empties(n + 1);
  }
}
