/** The peer checker's table: a nine-caption header, one numbered line per
    peer followed by a separator, and a final render. The writer is the
    event log of the terminal table writer. */
module PeerChecker {
  import opened Wrappers
  import opened Domain
  import opened PrettyTable

  /** What a peer reported; fields only passed through are display cells. */
  datatype PeerMetrics = PeerMetrics(
    highestSyncedCheckpoint: CellValue,
    suiNetworkPeers: CellValue,
    uptime: CellValue,
    version: CellValue)

  /** A checked peer. `location` is the rendered location; the total number
      of transactions is absent when the peer did not report it. */
  datatype Peer = Peer(
    address: string,
    port: CellValue,
    location: string,
    totalTransactionNumber: Option<CellValue>,
    metrics: PeerMetrics)

  /** Shown in place of a missing transaction total. */
  const NoDataReceived: string := "\U{1F534} no data"

  /** The header captions. */
  const HeaderCaptions: seq<CellValue> := [
    TextValue("#"), TextValue("Peer"), TextValue("Port"), TextValue("Country"),
    TextValue("Total\nTransactions"), TextValue("Highest\nCheckpoints"),
    TextValue("Connected\n Peers"), TextValue("Uptime"), TextValue("Version")]

  /** The transaction-total cell: the reported value, or the no-data text. */
  function TotalTransactionsCell(peer: Peer): CellValue {
    if peer.totalTransactionNumber.Some? then peer.totalTransactionNumber.value else TextValue(NoDataReceived)
  }

  /** The line of the peer at position `idx`, numbered from one. */
  function PeerRow(idx: nat, peer: Peer): seq<CellValue> {
    [ IntValue(idx + 1),
      TextValue(peer.address),
      peer.port,
      TextValue(peer.location),
      TotalTransactionsCell(peer),
      peer.metrics.highestSyncedCheckpoint,
      peer.metrics.suiNetworkPeers,
      peer.metrics.uptime,
      peer.metrics.version ]
  }

  /** The lines of the first `n` peers, each followed by a separator. */
  function PeerRowsEvents(data: seq<Peer>, n: nat): seq<WriterEvent>
    requires n <= |data|
  {
    if n == 0 then []
    else PeerRowsEvents(data, n - 1) + [AppendRow(PeerRow(n - 1, data[n - 1]), AutoMergeStyle), AppendSeparator]
  }

  /** Everything building the table writes. */
  function PeerTableEvents(data: seq<Peer>): seq<WriterEvent> {
    [AppendHeader(HeaderCaptions, AutoMergeStyle)] + PeerRowsEvents(data, |data|) + [Render]
  }

  /** Line `i` sits at position 2i, its separator right after it; nothing
      else is written. */
  lemma {:induction false} PeerRowsLayout(data: seq<Peer>, n: nat)
    requires n <= |data|
    ensures |PeerRowsEvents(data, n)| == 2 * n
    ensures forall i :: 0 <= i < n ==>
      PeerRowsEvents(data, n)[2 * i] == AppendRow(PeerRow(i, data[i]), AutoMergeStyle)
      && PeerRowsEvents(data, n)[2 * i + 1] == AppendSeparator
    ensures forall k :: 0 <= k < 2 * n ==> PeerRowsEvents(data, n)[k].AppendRow? || PeerRowsEvents(data, n)[k].AppendSeparator?
  {
    if n > 0 {
      PeerRowsLayout(data, n - 1);
    }
  }

  /** The table is the header, then for each peer in input order its line
      and a separator, then one render: the header and the render appear
      exactly once, first and last. */
  lemma PeerTableLayout(data: seq<Peer>)
    ensures var ev := PeerTableEvents(data);
      && |ev| == 2 * |data| + 2
      && ev[0] == AppendHeader(HeaderCaptions, AutoMergeStyle)
      && ev[|ev| - 1] == Render
      && (forall i :: 0 <= i < |data| ==>
            ev[2 * i + 1] == AppendRow(PeerRow(i, data[i]), AutoMergeStyle) && ev[2 * i + 2] == AppendSeparator)
      && (forall k :: 0 < k < |ev| ==> !ev[k].AppendHeader?)
      && (forall k :: 0 <= k < |ev| - 1 ==> !ev[k].Render?)
  {
    var ev := PeerTableEvents(data);
    var rows := PeerRowsEvents(data, |data|);
    PeerRowsLayout(data, |data|);
    assert ev == [AppendHeader(HeaderCaptions, AutoMergeStyle)] + rows + [Render];
    forall i | 0 <= i < |data|
      ensures ev[2 * i + 1] == AppendRow(PeerRow(i, data[i]), AutoMergeStyle) && ev[2 * i + 2] == AppendSeparator
    {
      assert ev[2 * i + 1] == rows[2 * i] && ev[2 * i + 2] == rows[2 * i + 1];
    }
    forall k | 0 < k < |ev| - 1
      ensures !ev[k].AppendHeader? && !ev[k].Render?
    {
      assert ev[k] == rows[k - 1];
    }
  }

  /** Every line has as many cells as the header and starts with the peer's
      one-based number. */
  lemma PeerRowShape(idx: nat, peer: Peer)
    ensures |PeerRow(idx, peer)| == |HeaderCaptions| == 9
    ensures PeerRow(idx, peer)[0] == IntValue(idx + 1)
  {
  }

  /** The fifth cell is the reported total, or the no-data text when the
      peer reported none. */
  lemma NoDataPlaceholder(idx: nat, peer: Peer)
    ensures peer.totalTransactionNumber.None? ==> PeerRow(idx, peer)[4] == TextValue(NoDataReceived)
    ensures peer.totalTransactionNumber.Some? ==> PeerRow(idx, peer)[4] == peer.totalTransactionNumber.value
  {
  }

  /** The peer checker's table builder and the calls made on its writer. */
  class PeerTableBuilder {
    var log: seq<WriterEvent>

    /** A writer with the light box style. */
    constructor ()
      ensures log == [SetLightStyle]
    {
      log := [SetLightStyle];
    }

    method BuildTable(data: seq<Peer>)
      modifies this
      ensures log == old(log) + PeerTableEvents(data)
    {
      log := log + [AppendHeader(HeaderCaptions, AutoMergeStyle)];
      ghost var start := log;
      for idx := 0 to |data|
        invariant log == start + PeerRowsEvents(data, idx)
      {
        var peer := data[idx];
        var totalTransactionsNumber := TextValue(NoDataReceived);
        if peer.totalTransactionNumber.Some? {
          totalTransactionsNumber := peer.totalTransactionNumber.value;
        }
        log := log + [AppendRow([
          IntValue(idx + 1),
          TextValue(peer.address),
          peer.port,
          TextValue(peer.location),
          totalTransactionsNumber,
          peer.metrics.highestSyncedCheckpoint,
          peer.metrics.suiNetworkPeers,
          peer.metrics.uptime,
          peer.metrics.version], AutoMergeStyle)];
        log := log + [AppendSeparator];
      }
      log := log + [Render];
    }
  }
}
