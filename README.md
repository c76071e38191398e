# Suimon core, modelled in Dafny

Suimon monitors Sui network nodes from the terminal. It fetches metrics from
RPC hosts, a full node and its peers, and shows them as static tables or as a
live dashboard. This project models the sequential logic around the network
and terminal code:

- **Column names** (`column_names.dfy`). A column is identified by its string
  value, so constants from different sections that share a value are the same
  key: `Epoch` and `SystemEpoch` are both "EPOCH".
- **Node dashboard** (`node_dashboard.dfy`, `domain.dfy`). The static widths,
  bands and captions of the node dashboard, and the mapper from a host
  snapshot to one display value per dashboard column.
- **Widget selection** (`widgets.dfy`). The widget each dashboard column gets,
  and how failures of the widget library are wrapped.
- **Table initialisation** (`tables.dfy`, `table_builder.dfy`). `InitTable`
  and its per-type handlers fill a fresh table configuration. Per-host tables
  keep only updated hosts. System-state tables read the first host. List
  tables get one row per element.
- **Row layout and colours** (`table_rows.dfy`, `table_builder.dfy`).
  `setRows` lays out items × bands with left padding, one table
  header/footer, and repeated caption lines. `setColumns` passes one column
  setting per column. The row painter cycles a background counter.
- **Fetch aggregation** (`fetch.dfy`). `ParseData` fetches the enabled
  groups, collects their errors over a channel of capacity 3, and reports
  failure only when it collected three errors.
- **Peer table** (`peer_table.dfy`). The peer checker's table: a nine-caption
  header, one numbered line per peer with a "no data" placeholder, then
  separators and a render.

Code that updates state in place is modelled with Dafny classes:

- the table builder (`TableBuilder.Builder`);
- the row painter (`TableBuilder.RowPainter`);
- the error channel (`Checker.ErrorChannel`);
- the peer table builder (`PeerChecker.PeerTableBuilder`).

Each table writer is an append-only log of the calls made on it.

Two behaviours of the fetch round are worth stating outright:

- `ParseData` reports failure only when the error count is the literal 3.
  With fewer than three groups enabled it therefore never fails, even when
  every enabled group failed (`Checker.FewerThanThreeEnabledNeverFails`,
  `Checker.SingleFailingGroupIsNotReported`).
- When the round does not fail, the collected errors are dropped and
  nothing is returned.

## Model

| member | source | states |
|---|---|---|
| ColumnNames.ColumnName.ToString | internal/core/domain/enums/columnname.go:140-142 | the string returned is the column's own value: wrapping it again gives back the same column |
| ColumnNames.ToStringIdentifies | internal/core/domain/enums/columnname.go:140-142 | two columns are equal exactly when their strings are equal |
| ColumnNames.SharedEpochKeys | internal/core/domain/enums/columnname.go:79-108 | EPOCH, EPOCH START TIME UTC and REFERENCE GAS PRICE are each one key shared by the epoch and system sections; the two total-stake columns differ |
| ColumnNames.NodeDashboardColumnsDistinct | internal/core/domain/enums/columnname.go:8-100 | the 17 node dashboard columns are pairwise distinct |
| ColumnNames.ColumnNamesNonEmpty | internal/core/domain/enums/columnname.go:6-138 | all 103 column constants have a non-empty string |
| Domain.FormatPercent | suimon/internal/core/domain/service/dashboardbuilder/dashboards/node.go:110-111 | a rendered percentage is non-empty and ends in "%" |
| Domain.FormatIntIsNumeral | suimon/internal/core/domain/service/dashboardbuilder/dashboards/node.go:110-111 | the rendered number is non-empty and made only of a sign and digits |
| Domain.PercentSignOnlyAtEnd | suimon/internal/core/domain/service/dashboardbuilder/dashboards/node.go:110-111 | the percentage is the number followed by a single "%", and "%" occurs nowhere else |
| Domain.FortyTwoPercent | suimon/internal/core/domain/service/dashboardbuilder/dashboards/node.go:110 | 42 is displayed as "42%" |
| NodeDashboard.GetNodeColumnValues | suimon/internal/core/domain/service/dashboardbuilder/dashboards/node.go:95-119 | for every host, the keys of the values are exactly the keys of the widths table |
| NodeDashboard.NodeDerivedValues | suimon/internal/core/domain/service/dashboardbuilder/dashboards/node.go:96-111 | HEALTH is the status placeholder; both sync cells are the formatted number followed by "%" |
| NodeDashboard.NodeProgressValuesPassThrough | suimon/internal/core/domain/service/dashboardbuilder/dashboards/node.go:100-106 | the transaction and checkpoint cells are the metrics fields unchanged |
| NodeDashboard.NodeStatusValuesPassThrough | suimon/internal/core/domain/service/dashboardbuilder/dashboards/node.go:107-115 | the backlog, epoch, peers, uptime, version and commit cells are the metrics fields unchanged |
| NodeDashboard.ColumnsConfigKeys | suimon/internal/core/domain/service/dashboardbuilder/dashboards/node.go:11-29 | the widths table has exactly the 17 dashboard columns as keys |
| NodeDashboard.ColumnWidthsPositive | suimon/internal/core/domain/service/dashboardbuilder/dashboards/node.go:11-29 | every width is positive; HEALTH is 5 wide |
| NodeDashboard.CellsConfigMatchesColumns | suimon/internal/core/domain/service/dashboardbuilder/dashboards/node.go:70-88 | the captions table has the same keys as the widths table |
| NodeDashboard.RowBandsWellFormed | suimon/internal/core/domain/service/dashboardbuilder/dashboards/node.go:31-68 | four bands of 5, 3, 4 and 4 columns; every band column is configured and no band repeats a column |
| NodeDashboard.RowBandsCoverAllButHealth | suimon/internal/core/domain/service/dashboardbuilder/dashboards/node.go:31-68 | together the bands show every configured column except HEALTH, which no band contains |
| NodeDashboard.DashboardCellsAlwaysHaveValues | suimon/internal/core/domain/service/dashboardbuilder/render.go:70-75 | every column of the captions table `CellsConfigNode` has a value for every host, so the render loop's missing-column error cannot occur for cells keyed by that table |
| Widgets.NewWidgetOfType | suimon/internal/core/domain/service/dashboardbuilder/dashboards/widget.go:21-32 | an unknown kind is an invalid-type error; otherwise a blank widget of the requested kind, or the library's error |
| Widgets.OnlyThreeWidgetTypes | suimon/internal/core/domain/service/dashboardbuilder/dashboards/widget.go:21-31 | creation fails exactly for kinds other than progress, text and display |
| Widgets.NewWidgetByColumnName | suimon/internal/core/domain/service/dashboardbuilder/dashboards/widget.go:36-81 | the two sync columns get a gauge at 0%; HEALTH gets a text widget showing the grey status; every other column gets a segment display showing the loading value; success iff the library reports no failure |
| Widgets.WidgetErrorsNameColumn | suimon/internal/core/domain/service/dashboardbuilder/dashboards/widget.go:40-77 | every failure is wrapped in an error naming the column, around the library error; it is an initialisation error iff construction failed |
| Checker.EnabledGroups | suimon/cmd/checker/parsedata.go:24-60 | a group is fetched iff its display flag is set, so at most three fetches happen |
| Checker.FailureOf | suimon/cmd/checker/parsedata.go:30-32 | a group's fetch sends at most one error |
| Checker.FailuresCount | suimon/cmd/checker/parsedata.go:67-73 | the error count is at most the number of enabled groups, and equals it iff every enabled group failed |
| Checker.TotalFailureNeedsAllThree | suimon/cmd/checker/parsedata.go:75-79 | three errors are collected iff all three groups are enabled and all three failed |
| Checker.FewerThanThreeEnabledNeverFails | suimon/cmd/checker/parsedata.go:75-79 | with fewer than three groups enabled, the count never reaches 3, whatever fails |
| Checker.SingleFailingGroupIsNotReported | suimon/cmd/checker/parsedata.go:75-79 | only RPC enabled, and failing: every enabled group failed, yet the count is not 3 |
| Checker.ErrorChannel.constructor | suimon/cmd/checker/parsedata.go:17 | a new channel is open and empty, with the given capacity |
| Checker.ErrorChannel.Send | suimon/cmd/checker/parsedata.go:31 | a send needs an open channel with room, and appends the error |
| Checker.ErrorChannel.Close | suimon/cmd/checker/parsedata.go:64 | closing keeps the buffered errors |
| Checker.ErrorChannel.Receive | suimon/cmd/checker/parsedata.go:69 | a receive yields the oldest buffered error, or the end once the channel is closed and drained |
| Checker.LaunchFetch | suimon/cmd/checker/parsedata.go:27-33 | a fetch sends its error, if any, and nothing else |
| Checker.DrainErrors | suimon/cmd/checker/parsedata.go:67-73 | the receive loop collects every buffered error in order, and counts them |
| Checker.LaunchIfEnabled | suimon/cmd/checker/parsedata.go:24-60 | the group is fetched iff its flag is set; the channel then holds exactly the failures of the groups fetched so far, never more than their number |
| Checker.ParseData | suimon/cmd/checker/parsedata.go:14-80 | only enabled groups are fetched; no send blocks; an error is returned iff exactly 3 errors were collected, and it holds all of them |
| Tables.NewDefaultTableConfig | suimon/internal/core/domain/service/tablebuilder/inittable.go:53 | a fresh configuration has the layout's columns, all empty, its bands and no rows |
| Tables.AddRow | suimon/internal/core/domain/service/tablebuilder/inittable.go:62-64 | adding an item increments the row count and leaves the name, bands and column keys alone |
| Tables.KeptIndices | suimon/internal/core/domain/service/tablebuilder/inittable.go:55-58 | the kept positions are exactly the kept items, in increasing order |
| Tables.FoldItemsContents | suimon/internal/core/domain/service/tablebuilder/inittable.go:55-65 | a handler loop adds one row per kept item, and each column receives the mapper's values for the kept positions, in order |
| Tables.SkippedItemsIgnored | suimon/internal/core/domain/service/tablebuilder/inittable.go:56-58 | items that are skipped leave no trace in the table |
| Tables.AllKeptIndices | suimon/internal/core/domain/service/tablebuilder/inittable.go:160-166 | a list loop keeps every position 0..n-1, in order |
| Tables.FoldReadyForRows | suimon/internal/core/domain/service/tablebuilder/base.go:80-81 | with a well-formed layout and covering mappers, every column holds exactly one value per row, which is what setRows reads |
| TableBuilder.InitTableConfig | suimon/internal/core/domain/service/tablebuilder/inittable.go:12-49 | a configuration is produced iff the table type is known |
| TableBuilder.InitTableRowCounts | suimon/internal/core/domain/service/tablebuilder/inittable.go:52-209 | the row count is the number of updated hosts for per-host tables, 1 for the system-state and counts tables, and the list length for list tables; the layout is always the type's own |
| TableBuilder.StaleHostsIgnored | suimon/internal/core/domain/service/tablebuilder/inittable.go:56-58 | replacing non-updated hosts by other non-updated hosts leaves every per-host table unchanged |
| TableBuilder.HostTableValues | suimon/internal/core/domain/service/tablebuilder/inittable.go:55-62 | each column of a per-host table holds the mapper's value for each updated host, computed with the host's position in the input |
| TableBuilder.PeersTableUsesNodeMapper | suimon/internal/core/domain/service/tablebuilder/inittable.go:98 | the peers table is filled by the node mapper: with the same layout it equals the node table |
| TableBuilder.SystemStateTableFromFirstHost | suimon/internal/core/domain/service/tablebuilder/inittable.go:128-138 | every column of the system-state table holds the mapper's value for the first host's system state, or nothing when the mapper gave none |
| TableBuilder.HostTableReadyForRows | suimon/internal/core/domain/service/tablebuilder/base.go:80-81 | a per-host table built with covering mappers satisfies what setRows reads |
| TableBuilder.FillRows | suimon/internal/core/domain/service/tablebuilder/inittable.go:55-65 | the handler loop builds the fold of the kept items |
| TableBuilder.Builder.constructor | suimon/internal/core/domain/service/tablebuilder/base.go:38-48 | a new builder has the given type, hosts and tables, no configuration and an untouched writer |
| TableBuilder.Builder.InitTable | suimon/internal/core/domain/service/tablebuilder/inittable.go:12-49 | returns no error; the configuration becomes the one for the type, or stays as it was for an unknown type; nothing is written |
| TableBuilder.Builder.HandleNodeTable | suimon/internal/core/domain/service/tablebuilder/inittable.go:52-68 | the configuration becomes the node table of the updated hosts |
| TableBuilder.Builder.HandleRPCTable | suimon/internal/core/domain/service/tablebuilder/inittable.go:71-87 | the configuration becomes the RPC table of the updated hosts |
| TableBuilder.Builder.HandlePeersTable | suimon/internal/core/domain/service/tablebuilder/inittable.go:90-106 | the configuration becomes the peers table of the updated hosts, mapped by the node mapper |
| TableBuilder.Builder.HandleValidatorTable | suimon/internal/core/domain/service/tablebuilder/inittable.go:109-125 | the configuration becomes the validator table of the updated hosts |
| TableBuilder.Builder.HandleSystemStateTable | suimon/internal/core/domain/service/tablebuilder/inittable.go:128-138 | the configuration becomes the one-row system-state table |
| TableBuilder.Builder.HandleValidatorCountsTable | suimon/internal/core/domain/service/tablebuilder/inittable.go:141-151 | the configuration becomes the one-row validator-counts table |
| TableBuilder.Builder.HandleValidatorsAtRiskTable | suimon/internal/core/domain/service/tablebuilder/inittable.go:155-171 | returns no error; the configuration becomes the at-risk table, one row per listed validator |
| TableBuilder.Builder.HandleValidatorReportsTable | suimon/internal/core/domain/service/tablebuilder/inittable.go:175-191 | returns no error; the configuration becomes the reports table, one row per report |
| TableBuilder.Builder.HandleActiveValidatorsTable | suimon/internal/core/domain/service/tablebuilder/inittable.go:195-209 | the configuration becomes the active-validators table, one row per validator |
| TableBuilder.CollectColumnSettings | suimon/internal/core/domain/service/tablebuilder/base.go:51-56 | one setting per column, each column's own, every column exactly once, in map order |
| TableBuilder.Builder.SetColumns | suimon/internal/core/domain/service/tablebuilder/base.go:51-59 | a single call on the writer, listing every column's setting exactly once |
| TableBuilder.Builder.SetRows | suimon/internal/core/domain/service/tablebuilder/base.go:62-109 | the writer receives exactly the layout of every item, band after band |
| TableBuilder.Builder.EmitBand | suimon/internal/core/domain/service/tablebuilder/base.go:98-106 | one band writes the header and footer, or a caption line by the rule, then its value line and a separator |
| TableBuilder.LayOutBand | suimon/internal/core/domain/service/tablebuilder/base.go:70-96 | the header, footer and value lines are the left-padded captions, blanks and values |
| TableBuilder.BandCells | suimon/internal/core/domain/service/tablebuilder/base.go:79-86 | the range loop yields captions, values and one footer blank per column; the index ends one short of the filled width |
| TableBuilder.Builder.SetColors | suimon/internal/core/domain/service/tablebuilder/base.go:122-149 | installs a fresh painter whose counter starts at 0, records that on the writer, and leaves the configuration alone |
| TableBuilder.RowPainter.constructor | suimon/internal/core/domain/service/tablebuilder/base.go:124-126 | the colour counter starts at 0 |
| TableBuilder.RowPainter.Paint | suimon/internal/core/domain/service/tablebuilder/base.go:128-143 | a line with an int gets the white foreground and the counter is unchanged; otherwise black on the current background and the counter advances; it stays in 0..3 |
| TableBuilder.PaintStep | suimon/internal/core/domain/service/tablebuilder/base.go:129-142 | white for lines with an int, counter kept; otherwise black on background[counter], and the counter becomes (counter+1) mod 4 |
| TableBuilder.CounterAfter | suimon/internal/core/domain/service/tablebuilder/base.go:135-140 | the counter stays in 0..3 whatever lines are painted |
| TableBuilder.PainterCycles | suimon/internal/core/domain/service/tablebuilder/base.go:125-140 | after any lines the counter is the start plus the number of lines without an int, mod 4 |
| RowLayout.HeaderRowPattern | suimon/internal/core/domain/service/tablebuilder/base.go:101 | captions repeat iff there is more than one band and the band is odd or the item is not the first |
| RowLayout.BandCounts | suimon/internal/core/domain/service/tablebuilder/base.go:98-106 | a band writes one value line and one separator; the header and footer only at item 0, band 0 |
| RowLayout.ItemCounts | suimon/internal/core/domain/service/tablebuilder/base.go:69-107 | an item writes one value line and one separator per band; caption lines on the odd bands of item 0, and on every band of later items |
| RowLayout.SetRowsCounts | suimon/internal/core/domain/service/tablebuilder/base.go:68-108 | items × bands value lines and separators; header and footer exactly once when there are items; bands/2 + (items-1)·bands caption lines when there is more than one band, none otherwise |
| RowLayout.SetRowsWidths | suimon/internal/core/domain/service/tablebuilder/base.go:66-96 | when each band is non-empty and no wider than the first, every header, footer and line has the first band's width |
| RowLayout.ValuesRightAligned | suimon/internal/core/domain/service/tablebuilder/base.go:79-96 | padding is on the left: captions and item values sit in the last places, in band order |
| RowLayout.FooterIsBlank | suimon/internal/core/domain/service/tablebuilder/base.go:85-92 | the footer is made only of empty values |
| RowLayout.EmptyBandIsOneShort | suimon/internal/core/domain/service/tablebuilder/base.go:79-96 | an empty band is laid out one value short of the first band's width |
| RowLayout.HeaderAndFooterFirst | suimon/internal/core/domain/service/tablebuilder/base.go:98-100 | with at least one item, the first two writes are the table header and footer of band 0 |
| RowLayout.EveryValueLineWritten | suimon/internal/core/domain/service/tablebuilder/base.go:68-105 | the value line of every (item, band) pair is written, holding Columns[c].Values[item] |
| PeerChecker.PeerRowsLayout | peer_checker/domain/checker/tablebuilder.go:30-50 | line i is written at position 2i with its separator next, in input order; nothing else is written |
| PeerChecker.PeerTableLayout | peer_checker/domain/checker/tablebuilder.go:26-53 | one header first, then each peer's line and a separator in order, then one render last; nothing else |
| PeerChecker.PeerRowShape | peer_checker/domain/checker/tablebuilder.go:28-48 | every line has 9 cells like the header, the first being the one-based number |
| PeerChecker.NoDataPlaceholder | peer_checker/domain/checker/tablebuilder.go:31-35 | the total cell is "🔴 no data" when the peer reported none, the reported value otherwise |
| PeerChecker.PeerTableBuilder.constructor | peer_checker/domain/checker/tablebuilder.go:15-24 | a new writer has only the light style set |
| PeerChecker.PeerTableBuilder.BuildTable | peer_checker/domain/checker/tablebuilder.go:26-53 | the writer receives exactly the peer table of the data |

## Left out

- The live dashboard's render loop (`render.go`), with its tickers, goroutines, error channel and cancellation, is not modelled. Its only check on data, the missing-column error, is covered by `NodeDashboard.DashboardCellsAlwaysHaveValues` on the assumption that the dashboard's cells are keyed by the captions table `CellsConfigNode`; the code that fills the dashboard's cell map is not part of this model.
- Program entry points, flag and config parsing, the progress bar (`suimon/main.go`, `suimon/cmd/main.go`) and the interactive monitor selection (`monitor.go`) are I/O and wiring. They are not part of this model.
- `controller.go` has interfaces only. `systemcolumnname.go` is an enumeration with no behaviour. Neither is part of this model.
- The `Builders` aggregate of nine builders, the CLI gateway and the writer's output mirror are not modelled.
- `setStyle` is not modelled: sorting, title, box style and auto-index are writer options.
- Checker.ParseData: the concurrent fetches are modelled as sequential fetches in group order (RPC, node, peers). The real arrival order of errors is nondeterministic, so the order of the aggregate is fixed only in the model. The fetch results are an `outcome` parameter, since the fetches are network calls.
- Checker.ParseData: the combined multi-error value is modelled as the sequence of collected errors. Its message formatting is not modelled.
- Tables.NewDefaultTableConfig: the table package is not part of this model. Its assumed behaviour is a configuration with the layout's name, bands and columns, every column empty, and no rows.
- Tables.SetColumnValues: the table package is not part of this model. Its assumed behaviour is that each column receives the mapper's value when the mapper gave one, and columns it did not give are unchanged.
- Table layouts and column mappers are parameters (`Tables.TablesPackage`): the widths, captions and bands of every table except the node dashboard, and the `Get*ColumnValues` mappers.
- The table package's line builder is assumed to start each line empty, to append with `AppendValue` and to prepend with `PrependValue`. Its row options are reduced to `PrettyTable.RowStyle`.
- The go-pretty writer is an append-only log of calls. Rendering, and which lines go-pretty hands to the row painter, are not modelled. The painter is modelled by itself and by `TableBuilder.PainterCycles` over any sequence of lines.
- Widgets.NewWidgetByColumnName: termdash widgets are their kind plus what was written into them. Widget options, colours and the grey-status and loading-value texts are not modelled. Library failures are parameters.
- NodeDashboard.GetNodeColumnValues: the health placeholder (`StatusToPlaceholder`) is a parameter.
- Domain.FormatPercent: sync percentages are modelled as integers rendered in decimal. Go's `%v` rendering of a floating-point value is not modelled; only the trailing "%" is.
- Go panics become preconditions:
  - `InitTable` of a system-state table with no hosts (`hosts[0]`);
  - `setRows` with no bands (`rowsConfig[0]` is read before the loop), or, when there is at least one item, with a band column that is missing or has too few values (`TableBuilder.Builder.SetRows` requires `RowsReady`, which asks for the columns only when the row count is positive).
- PeerChecker.Peer: the peer's location is kept as its rendered string. The port and metrics cells are opaque display values.
- Integer widths are unbounded. Row counts and indices stay far below Go's `int` limits, so no wrap-around is modelled.
