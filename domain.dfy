/** Small failure-compatible wrapper used across the model. */
module Wrappers {

  datatype Option<+T> = None | Some(value: T)
}

/** The values shared by the table builder and the dashboard: display cells,
    hosts and the metrics snapshot a host carries. Field contents that no
    modelled code inspects are kept abstract (as display cells). */
module Domain {
  import opened ColumnNames

  /** One displayable value. `EmptyValue` is the table package's padding
      value; `IntValue` is a Go `int` cell (the row painter looks for these). */
  datatype CellValue = EmptyValue | IntValue(n: int) | TextValue(s: string)

  /** The health status of a host; its placeholder rendering is not part of
      this model and is passed to the column mapper as a function. */
  datatype Status = StatusGreen | StatusYellow | StatusRed | StatusGrey

  /** Records listed by the system-state tables; their columns are produced
      by mappers outside this model, so only identifying fields are kept. */
  datatype ValidatorAtRisk = ValidatorAtRisk(name: string, address: string, epochsAtRisk: int)
  datatype ValidatorReport = ValidatorReport(reporter: string, reported: string)
  datatype Validator = Validator(name: string, address: string)

  /** The parsed system state carried inside a host's metrics. */
  datatype SystemState = SystemState(
    epoch: int,
    validatorsAtRisk: seq<ValidatorAtRisk>,
    validatorReports: seq<ValidatorReport>,
    activeValidators: seq<Validator>)

  /** The metrics snapshot of one host. `updated` is true once a fetch has
      succeeded. The sync percentages are numbers, formatted by the mapper;
      every other displayed field is passed through unchanged. */
  datatype Metrics = Metrics(
    updated: bool,
    totalTransactionsBlocks: CellValue,
    totalTransactionCertificates: CellValue,
    totalTransactionEffects: CellValue,
    latestCheckpoint: CellValue,
    highestKnownCheckpoint: CellValue,
    highestSyncedCheckpoint: CellValue,
    lastExecutedCheckpoint: CellValue,
    checkpointExecBacklog: CellValue,
    checkpointSyncBacklog: CellValue,
    currentEpoch: CellValue,
    txSyncPercentage: int,
    checkSyncPercentage: int,
    networkPeers: CellValue,
    uptime: CellValue,
    version: CellValue,
    commit: CellValue,
    systemState: SystemState)

  /** Column key to display value, as produced by a column mapper. */
  type ColumnValues = map<ColumnName, CellValue>

  /** A polled endpoint: its derived status and its current snapshot. */
  datatype Host = Host(address: string, status: Status, metrics: Metrics)

  /** Decimal rendering of an integer, as Go's `%v` verb prints an `int`. */
  function FormatInt(n: int): (s: string)
    decreases if n < 0 then 1 - n else n
  {
    if n < 0 then "-" + FormatInt(-n)
    else if n < 10 then [DigitChar(n)]
    else FormatInt(n / 10) + [DigitChar(n % 10)]
  }

  function DigitChar(d: nat): (c: char)
    requires d < 10
    ensures '0' <= c <= '9'
  {
    "0123456789"[d]
  }

  /** A percentage value as displayed: the number followed by a literal `%`. */
  function FormatPercent(n: int): (s: string)
    ensures |s| > 0 && s[|s| - 1] == '%'
  {
    FormatInt(n) + "%"
  }

  /** The rendered number is non-empty and contains only a sign and digits,
      so the `%` appended by FormatPercent is its only percent sign. */
  lemma {:induction false} FormatIntIsNumeral(n: int)
    ensures |FormatInt(n)| > 0
    ensures forall k :: 0 <= k < |FormatInt(n)| ==> FormatInt(n)[k] == '-' || '0' <= FormatInt(n)[k] <= '9'
    decreases if n < 0 then 1 - n else n
  {
    if n < 0 {
      FormatIntIsNumeral(-n);
    } else if n >= 10 {
      FormatIntIsNumeral(n / 10);
    }
  }

  /** The percent rendering holds exactly one `%`, at its end. */
  lemma PercentSignOnlyAtEnd(n: int)
    ensures var s := FormatPercent(n);
      s == FormatInt(n) + "%" && forall k :: 0 <= k < |s| - 1 ==> s[k] != '%'
  {
    FormatIntIsNumeral(n);
  }

  /** A percentage of 42 is displayed as the text "42%". */
  lemma FortyTwoPercent()
    ensures FormatPercent(42) == "42%"
  {
    assert FormatInt(4) == "4";
    assert FormatInt(42) == "42";
  }
}
