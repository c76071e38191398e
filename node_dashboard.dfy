/** The node dashboard's static layout (column widths, row bands, cell
    captions) and its column mapper, which turns a host snapshot into one
    display value per dashboard column. */
module NodeDashboard {
  import opened ColumnNames
  import opened Domain

  /** One band of the dashboard: a height hint and the columns it shows. */
  datatype RowConfig = RowConfig(height: nat, columns: seq<ColumnName>)

  /** Width of every dashboard column. */
  const ColumnsConfigNode: map<ColumnName, nat> := map[
    CurrentEpoch := 19,
    NetworkPeers := 19,
    Uptime := 19,
    Version := 19,
    Commit := 19,
    Health := 5,
    TotalTransactionBlocks := 33,
    TotalTransactionCertificates := 33,
    TotalTransactionEffects := 33,
    LatestCheckpoint := 24,
    HighestKnownCheckpoint := 24,
    HighestSyncedCheckpoint := 24,
    LastExecutedCheckpoint := 24,
    CheckpointExecBacklog := 24,
    CheckpointSyncBacklog := 24,
    TXSyncPercentage := 24,
    CheckSyncPercentage := 24
  ]

  /** The four bands of the dashboard, indexed 0 to 3. */
  const RowsConfigNode: seq<RowConfig> := [
    RowConfig(15, [CurrentEpoch, NetworkPeers, Uptime, Version, Commit]),
    RowConfig(15, [TotalTransactionBlocks, TotalTransactionCertificates, TotalTransactionEffects]),
    RowConfig(15, [LatestCheckpoint, HighestKnownCheckpoint, HighestSyncedCheckpoint, LastExecutedCheckpoint]),
    RowConfig(15, [TXSyncPercentage, CheckSyncPercentage, CheckpointExecBacklog, CheckpointSyncBacklog])
  ]

  /** Caption of every dashboard cell. */
  const CellsConfigNode: map<ColumnName, string> := map[
    Health := "HEALTH",
    TotalTransactionBlocks := "TOTAL TRANSACTION BLOCKS",
    LatestCheckpoint := "LATEST CHECKPOINT",
    TotalTransactionCertificates := "TOTAL TRANSACTION CERTIFICATES",
    TotalTransactionEffects := "TOTAL TRANSACTION EFFECTS",
    HighestKnownCheckpoint := "HIGHEST KNOWN CHECKPOINT",
    HighestSyncedCheckpoint := "HIGHEST SYNCED CHECKPOINT",
    LastExecutedCheckpoint := "LAST EXECUTED CHECKPOINT",
    CheckpointExecBacklog := "CHECKPOINT EXEC BACKLOG",
    CheckpointSyncBacklog := "CHECKPOINT SYNC BACKLOG",
    CurrentEpoch := "CURRENT EPOCH",
    TXSyncPercentage := "TX SYNC PERCENTAGE",
    CheckSyncPercentage := "CHECKPOINTS SYNC PERCENTAGE",
    NetworkPeers := "NETWORK PEERS",
    Uptime := "UPTIME",
    Version := "VERSION",
    Commit := "COMMIT"
  ]

  /** The dashboard's display values for one host. `placeholder` is the
      status-to-placeholder rendering of the host package. Whatever the host,
      the keys are exactly the configured dashboard columns. */
  function GetNodeColumnValues(host: Host, placeholder: Status -> CellValue): (values: ColumnValues)
    ensures values.Keys == ColumnsConfigNode.Keys
  {
    var m := host.metrics;
    map[
      Health := placeholder(host.status),
      TotalTransactionBlocks := m.totalTransactionsBlocks,
      TotalTransactionCertificates := m.totalTransactionCertificates,
      TotalTransactionEffects := m.totalTransactionEffects,
      LatestCheckpoint := m.latestCheckpoint,
      HighestKnownCheckpoint := m.highestKnownCheckpoint,
      HighestSyncedCheckpoint := m.highestSyncedCheckpoint,
      LastExecutedCheckpoint := m.lastExecutedCheckpoint,
      CheckpointExecBacklog := m.checkpointExecBacklog,
      CheckpointSyncBacklog := m.checkpointSyncBacklog,
      CurrentEpoch := m.currentEpoch,
      TXSyncPercentage := TextValue(FormatPercent(m.txSyncPercentage)),
      CheckSyncPercentage := TextValue(FormatPercent(m.checkSyncPercentage)),
      NetworkPeers := m.networkPeers,
      Uptime := m.uptime,
      Version := m.version,
      Commit := m.commit
    ]
  }

  /** The health cell is the status placeholder and the two sync cells are
      the percentages rendered as "<number>%" text. */
  lemma NodeDerivedValues(host: Host, placeholder: Status -> CellValue)
    ensures var values := GetNodeColumnValues(host, placeholder);
      && values[Health] == placeholder(host.status)
      && values[TXSyncPercentage] == TextValue(FormatInt(host.metrics.txSyncPercentage) + "%")
      && values[CheckSyncPercentage] == TextValue(FormatInt(host.metrics.checkSyncPercentage) + "%")
  {
  }

  /** The transaction and checkpoint cells are the metrics fields unchanged. */
  lemma NodeProgressValuesPassThrough(host: Host, placeholder: Status -> CellValue)
    ensures var values := GetNodeColumnValues(host, placeholder);
      var m := host.metrics;
      && values[TotalTransactionBlocks] == m.totalTransactionsBlocks
      && values[TotalTransactionCertificates] == m.totalTransactionCertificates
      && values[TotalTransactionEffects] == m.totalTransactionEffects
      && values[LatestCheckpoint] == m.latestCheckpoint
      && values[HighestKnownCheckpoint] == m.highestKnownCheckpoint
      && values[HighestSyncedCheckpoint] == m.highestSyncedCheckpoint
      && values[LastExecutedCheckpoint] == m.lastExecutedCheckpoint
  {
  }

  /** The backlog, epoch, peers, uptime, version and commit cells are the
      metrics fields unchanged. */
  lemma NodeStatusValuesPassThrough(host: Host, placeholder: Status -> CellValue)
    ensures var values := GetNodeColumnValues(host, placeholder);
      var m := host.metrics;
      && values[CheckpointExecBacklog] == m.checkpointExecBacklog
      && values[CheckpointSyncBacklog] == m.checkpointSyncBacklog
      && values[CurrentEpoch] == m.currentEpoch
      && values[NetworkPeers] == m.networkPeers
      && values[Uptime] == m.uptime
      && values[Version] == m.version
      && values[Commit] == m.commit
  {
  }

  /** The widths table holds exactly the seventeen node dashboard columns. */
  lemma ColumnsConfigKeys()
    ensures ColumnsConfigNode.Keys == set c | c in NodeDashboardColumns
    ensures |ColumnsConfigNode| == 17
  {
    assert ColumnsConfigNode.Keys == set c | c in NodeDashboardColumns;
    NodeDashboardColumnsDistinct();
    DistinctSeqSetSize(NodeDashboardColumns);
  }

  /** Every configured width is positive; the health column is 5 wide. */
  lemma ColumnWidthsPositive()
    ensures forall c :: c in ColumnsConfigNode ==> ColumnsConfigNode[c] > 0
    ensures ColumnsConfigNode[Health] == 5
  {
  }

  /** A sequence without repeats has as many distinct elements as entries. */
  lemma {:induction false} DistinctSeqSetSize(s: seq<ColumnName>)
    requires forall i, j :: 0 <= i < j < |s| ==> s[i] != s[j]
    ensures |set c | c in s| == |s|
  {
    if |s| > 0 {
      DistinctSeqSetSize(s[1..]);
      assert (set c | c in s) == {s[0]} + (set c | c in s[1..]);
      assert s[0] !in (set c | c in s[1..]);
    }
  }

  /** The captions table has exactly the same keys as the widths table. */
  lemma CellsConfigMatchesColumns()
    ensures CellsConfigNode.Keys == ColumnsConfigNode.Keys
  {
  }

  /** Every band lists configured columns only and repeats none; the bands
      have 5, 3, 4 and 4 columns. */
  lemma RowBandsWellFormed()
    ensures |RowsConfigNode| == 4
    ensures forall b :: 0 <= b < |RowsConfigNode| ==>
      forall c :: c in RowsConfigNode[b].columns ==> c in ColumnsConfigNode
    ensures forall b :: 0 <= b < |RowsConfigNode| ==>
      forall i, j :: 0 <= i < j < |RowsConfigNode[b].columns| ==>
        RowsConfigNode[b].columns[i] != RowsConfigNode[b].columns[j]
    ensures |RowsConfigNode[0].columns| == 5 && |RowsConfigNode[1].columns| == 3
    ensures |RowsConfigNode[2].columns| == 4 && |RowsConfigNode[3].columns| == 4
  {
    NodeDashboardColumnsDistinct();
  }

  /** The bands together show every configured column except HEALTH, which
      no band contains. */
  lemma RowBandsCoverAllButHealth()
    ensures (set c | c in BandColumns()) == ColumnsConfigNode.Keys - {Health}
    ensures Health !in BandColumns()
  {
    ColumnsConfigKeys();
    HealthThenBands();
    TailSetRemovesHead(NodeDashboardColumns);
  }

  /** The dashboard column list is HEALTH followed by the band columns. */
  lemma HealthThenBands()
    ensures NodeDashboardColumns[0] == Health
    ensures BandColumns() == NodeDashboardColumns[1..]
    ensures forall j :: 0 < j < |NodeDashboardColumns| ==> NodeDashboardColumns[j] != NodeDashboardColumns[0]
  {
    NodeDashboardColumnsDistinct();
  }

  /** Dropping a head that does not recur removes exactly it from the set. */
  lemma TailSetRemovesHead(s: seq<ColumnName>)
    requires |s| > 0 && forall j :: 0 < j < |s| ==> s[j] != s[0]
    ensures (set c | c in s[1..]) == (set c | c in s) - {s[0]}
    ensures s[0] !in s[1..]
  {
  }

  /** The columns of the four bands, band after band. */
  function BandColumns(): seq<ColumnName> {
    RowsConfigNode[0].columns + RowsConfigNode[1].columns + RowsConfigNode[2].columns + RowsConfigNode[3].columns
  }

  /** The live dashboard looks up every captioned cell in the mapper's
      output and fails when one is missing; for any host none is. */
  lemma DashboardCellsAlwaysHaveValues(host: Host, placeholder: Status -> CellValue)
    ensures forall c :: c in CellsConfigNode ==> c in GetNodeColumnValues(host, placeholder)
  {
    CellsConfigMatchesColumns();
  }
}
