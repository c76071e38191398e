/** The flat namespace of column identifiers shared by every table and
    dashboard. A column name is nothing more than its string: two constants
    declared in different sections with the same text are the same key. */
module ColumnNames {

  /** A column identifier; its identity is its underlying string. */
  datatype ColumnName = ColumnName(value: string) {

    /** The display text of the column: the underlying string itself. */
    function ToString(): (s: string)
      ensures ColumnName(s) == this
    {
      value
    }
  }

  // Overview section
  const Index := ColumnName("IDX")
  const Health := ColumnName("HEALTH")
  const Address := ColumnName("ADDRESS")
  const PortRPC := ColumnName("RPC")
  const Uptime := ColumnName("UPTIME DAYS")
  const Version := ColumnName("VERSION")
  const Commit := ColumnName("COMMIT")
  const Country := ColumnName("COUNTRY")

  // Transaction section
  const TotalTransactionBlocks := ColumnName("TOTAL TX\nBLOCKS")
  const TotalTransactionCertificates := ColumnName("TOTAL TX\nCERTIFICATES")
  const TotalTransactionEffects := ColumnName("TOTAL TX\nEFFECTS")
  const TXSyncPercentage := ColumnName("TX SYNC PCT")
  const SkippedConsensusTransactions := ColumnName("SKIPPED\nCONSENSUS TX")
  const CertificatesCreated := ColumnName("CERTIFICATES\nCREATED")
  const HandleCertificateNonConsensusLatencySum := ColumnName("CERTIFICATE\nNON CONSENSUS LATENCY")
  const TotalSignatureErrors := ColumnName("SIGNATURE\nERRORS")
  const TransactionsPerSecond := ColumnName("TRANSACTIONS PER SECOND")
  const CertificatesPerSecond := ColumnName("CERTIFICATES PER SECOND")

  // Checkpoint section
  const LatestCheckpoint := ColumnName("LATEST\nCHECKPOINT")
  const HighestKnownCheckpoint := ColumnName("HIGHEST KNOWN\nCHECKPOINT")
  const LastExecutedCheckpoint := ColumnName("LAST EXECUTED\nCHECKPOINT")
  const HighestSyncedCheckpoint := ColumnName("HIGHEST SYNCED\nCHECKPOINT")
  const CheckpointExecBacklog := ColumnName("CHECKPOINT\nEXEC BACKLOG")
  const CheckpointSyncBacklog := ColumnName("CHECKPOINT\nSYNC BACKLOG")
  const CheckSyncPercentage := ColumnName("CHECKPOINT\nSYNC PCT")
  const CheckpointsPerSecond := ColumnName("CHECKPOINTS PER SECOND")

  // Round section
  const CurrentRound := ColumnName("CURRENT\nROUND")
  const HighestProcessedRound := ColumnName("HIGHEST\nPROCESSED ROUND")
  const LastCommittedRound := ColumnName("LAST COMMITTED\nROUND")
  const RoundsPerSecond := ColumnName("ROUNDS PER SECOND")

  // Peer section
  const NetworkPeers := ColumnName("NETWORK\nPEERS")
  const PrimaryNetworkPeers := ColumnName("PRIMARY\nNETWORK PEERS")
  const WorkerNetworkPeers := ColumnName("WORKER\nNETWORK PEERS")

  // Validator section
  const ValidatorName := ColumnName("NAME")
  const ValidatorNetAddress := ColumnName("NET ADDRESS")
  const ValidatorVotingPower := ColumnName("VOTING\nPOWER")
  const ValidatorGasPrice := ColumnName("GAS\nPRICE")
  const ValidatorCommissionRate := ColumnName("COMMISSION\nRATE")
  const ValidatorNextEpochStake := ColumnName("NEXT EPOCH\nSTAKE, SUI")
  const ValidatorNextEpochGasPrice := ColumnName("NEXT EPOCH\nGAS PRICE")
  const ValidatorNextEpochCommissionRate := ColumnName("NEXT EPOCH\nCOMMISSION RATE")
  const ValidatorStakingPoolSuiBalance := ColumnName("STAKING POOL SUI\nBALANCE, SUI")
  const ValidatorRewardsPool := ColumnName("REWARDS POOL, SUI")
  const ValidatorPoolTokenBalance := ColumnName("POOL TOKEN\nBALANCE, SUI")
  const ValidatorPendingStake := ColumnName("PENDING STAKE, SUI")
  const ValidatorPendingTotalSuiWithdraw := ColumnName("PENDING TOTAL\nSUI WITHDRAW")
  const ValidatorPendingPoolTokenWithdraw := ColumnName("PENDING POOL\nTOKEN WITHDRAW")
  const ValidatorApy := ColumnName("APY, %")

  // Epoch section
  const Epoch := ColumnName("EPOCH")
  const EpochTotalTransactions := ColumnName("TOTAL\nTRANSACTIONS")
  const EpochStartTimestamp := ColumnName("EPOCH START TIME UTC")
  const EpochEndTimestamp := ColumnName("EPOCH END TIME UTC")
  const EpochFirstCheckpointId := ColumnName("FIRST\nCHECKPOINT ID")
  const EpochLastCheckpointId := ColumnName("LAST\nCHECKPOINT ID")
  const EpochProtocolVersion := ColumnName("PROTOCOL\nVERSION")
  const EpochReferenceGasPrice := ColumnName("REFERENCE\nGAS PRICE")
  const EpochTotalStake := ColumnName("TOTAL STAKE,\nSUI")
  const EpochStorageFundReinvestment := ColumnName("STORAGE FUND\nREINVESTMENT, SUI")
  const EpochStorageCharge := ColumnName("STORAGE\nCHARGE, SUI")
  const EpochStorageRebate := ColumnName("STORAGE\nREBATE, SUI")
  const EpochStorageFundBalance := ColumnName("STORAGE FUND\nBALANCE, SUI")
  const EpochStakeSubsidyAmount := ColumnName("STORAGE SUBSIDY\nAMOUNT, SUI")
  const EpochTotalGasFees := ColumnName("TOTAL GAS\nFEES, SUI")
  const EpochTotalStakeRewardsDistributed := ColumnName("TOTAL STAKE REWARDS\nDISTRIBUTED, SUI")
  const EpochLeftoverStorageFundInflow := ColumnName("LEFTOVER STORAGE FUND\nINFLOW, SUI")

  // SystemState section
  const CurrentEpoch := ColumnName("CURRENT\nEPOCH")
  const SystemEpoch := ColumnName("EPOCH")
  const SystemEpochStartTimestamp := ColumnName("EPOCH START TIME UTC")
  const SystemEpochDuration := ColumnName("EPOCH\nDURATION")
  const SystemTimeTillNextEpoch := ColumnName("TIME TILL\nNEXT EPOCH")
  const SystemTotalStake := ColumnName("TOTAL STAKE, SUI")
  const SystemStorageFundTotalObjectStorageRebates := ColumnName("STORAGE FUND TOTAL\nOBJECT REBATES, SUI")
  const SystemStorageFundNonRefundableBalance := ColumnName("STORAGE FUND\nREFUNDABLE BALANCE, SUI")
  const SystemReferenceGasPrice := ColumnName("REFERENCE\nGAS PRICE")
  const SystemMinReferenceGasPrice := ColumnName("MIN REFERENCE\nGAS PRICE")
  const SystemMaxReferenceGasPrice := ColumnName("MAX REFERENCE\nGAS PRICE")
  const SystemMeanReferenceGasPrice := ColumnName("MEAN REFERENCE\nGAS PRICE")
  const SystemStakeWeightedMeanReferenceGasPrice := ColumnName("STAKE WEIGHTED MEAN\nREFERENCE GAS PRICE")
  const SystemMedianReferenceGasPrice := ColumnName("MEDIAN REFERENCE\nGAS PRICE")
  const SystemEstimatedReferenceGasPrice := ColumnName("ESTIMATED REFERENCE\nGAS PRICE")
  const SystemMaxValidatorCount := ColumnName("MAX VALIDATOR\nCOUNT")
  const SystemActiveValidatorCount := ColumnName("ACTIVE VALIDATOR\nCOUNT")
  const SystemPendingActiveValidatorCount := ColumnName("PENDING ACTIVE\nVALIDATORS COUNT")
  const SystemValidatorCandidateCount := ColumnName("VALIDATOR\nCANDIDATE COUNT")
  const SystemPendingRemovalsCount := ColumnName("PENDING VALIDATOR\nREMOVALS COUNT")
  const SystemAtRiskValidatorCount := ColumnName("VALIDATOR AT RISK\nCOUNT")
  const SystemMinValidatorJoiningStake := ColumnName("MIN VALIDATOR\nJOINING STAKE")
  const SystemValidatorLowStakeThreshold := ColumnName("VALIDATOR LOW\nSTAKE THRESHOLD")
  const SystemValidatorVeryLowStakeThreshold := ColumnName("VALIDATOR VERY LOW\nSTAKE THRESHOLD")
  const SystemValidatorLowStakeGracePeriod := ColumnName("VALIDATOR LOW STAKE\nGRACE PERIOD")
  const SystemAtRiskValidatorName := ColumnName("VALIDATOR NAME")
  const SystemAtRiskValidatorAddress := ColumnName("VALIDATOR ADDRESS")
  const SystemAtRiskValidatorNumberOfEpochs := ColumnName("NUMBER OF EPOCHS\nAT RISK")
  const SystemValidatorReporterName := ColumnName("REPORTER VALIDATOR")
  const SystemValidatorReporterAddress := ColumnName("REPORTER VALIDATOR ADDRESS")
  const SystemValidatorReportedName := ColumnName("REPORTED VALIDATOR")
  const SystemValidatorSlashingPercentage := ColumnName("SLASHING PCT")
  const SystemStakeSubsidyStartEpoch := ColumnName("STAKE SUBSIDY\nSTART EPOCH")
  const SystemStakeSubsidyBalance := ColumnName("STAKE SUBSIDY\nBALANCE, SUI")
  const SystemStakeSubsidyDistributionCounter := ColumnName("STAKE SUBSIDY\nDISTRIBUTION COUNTER")
  const SystemStakeSubsidyCurrentDistributionAmount := ColumnName("STAKE SUBSIDY\nDISTRIBUTION AMOUNT, SUI")
  const SystemStakeSubsidyPeriodLength := ColumnName("STAKE SUBSIDY\nPERIOD LENGTH")
  const SystemStakeSubsidyDecreaseRate := ColumnName("STAKE SUBSIDY\nDECREASE RATE")

  // The constants of each section, in declaration order.

  const OverviewColumns: seq<ColumnName> := [
    Index, Health, Address, PortRPC,
    Uptime, Version, Commit, Country
  ]

  const TransactionColumns: seq<ColumnName> := [
    TotalTransactionBlocks, TotalTransactionCertificates, TotalTransactionEffects, TXSyncPercentage,
    SkippedConsensusTransactions, CertificatesCreated, HandleCertificateNonConsensusLatencySum, TotalSignatureErrors,
    TransactionsPerSecond, CertificatesPerSecond
  ]

  const CheckpointColumns: seq<ColumnName> := [
    LatestCheckpoint, HighestKnownCheckpoint, LastExecutedCheckpoint, HighestSyncedCheckpoint,
    CheckpointExecBacklog, CheckpointSyncBacklog, CheckSyncPercentage, CheckpointsPerSecond
  ]

  const RoundColumns: seq<ColumnName> := [
    CurrentRound, HighestProcessedRound, LastCommittedRound, RoundsPerSecond
  ]

  const PeerColumns: seq<ColumnName> := [
    NetworkPeers, PrimaryNetworkPeers, WorkerNetworkPeers
  ]

  const ValidatorColumns: seq<ColumnName> := [
    ValidatorName, ValidatorNetAddress, ValidatorVotingPower, ValidatorGasPrice,
    ValidatorCommissionRate, ValidatorNextEpochStake, ValidatorNextEpochGasPrice, ValidatorNextEpochCommissionRate,
    ValidatorStakingPoolSuiBalance, ValidatorRewardsPool, ValidatorPoolTokenBalance, ValidatorPendingStake,
    ValidatorPendingTotalSuiWithdraw, ValidatorPendingPoolTokenWithdraw, ValidatorApy
  ]

  const EpochColumns: seq<ColumnName> := [
    Epoch, EpochTotalTransactions, EpochStartTimestamp, EpochEndTimestamp,
    EpochFirstCheckpointId, EpochLastCheckpointId, EpochProtocolVersion, EpochReferenceGasPrice,
    EpochTotalStake, EpochStorageFundReinvestment, EpochStorageCharge, EpochStorageRebate,
    EpochStorageFundBalance, EpochStakeSubsidyAmount, EpochTotalGasFees, EpochTotalStakeRewardsDistributed,
    EpochLeftoverStorageFundInflow
  ]

  const SystemStateColumns: seq<ColumnName> := SystemStateHeadColumns + SystemStateTailColumns
  const SystemStateHeadColumns: seq<ColumnName> := [
    CurrentEpoch, SystemEpoch, SystemEpochStartTimestamp, SystemEpochDuration,
    SystemTimeTillNextEpoch, SystemTotalStake, SystemStorageFundTotalObjectStorageRebates, SystemStorageFundNonRefundableBalance,
    SystemReferenceGasPrice, SystemMinReferenceGasPrice, SystemMaxReferenceGasPrice, SystemMeanReferenceGasPrice,
    SystemStakeWeightedMeanReferenceGasPrice, SystemMedianReferenceGasPrice, SystemEstimatedReferenceGasPrice, SystemMaxValidatorCount,
    SystemActiveValidatorCount, SystemPendingActiveValidatorCount, SystemValidatorCandidateCount
  ]
  const SystemStateTailColumns: seq<ColumnName> := [
    SystemPendingRemovalsCount, SystemAtRiskValidatorCount, SystemMinValidatorJoiningStake, SystemValidatorLowStakeThreshold,
    SystemValidatorVeryLowStakeThreshold, SystemValidatorLowStakeGracePeriod, SystemAtRiskValidatorName, SystemAtRiskValidatorAddress,
    SystemAtRiskValidatorNumberOfEpochs, SystemValidatorReporterName, SystemValidatorReporterAddress, SystemValidatorReportedName,
    SystemValidatorSlashingPercentage, SystemStakeSubsidyStartEpoch, SystemStakeSubsidyBalance, SystemStakeSubsidyDistributionCounter,
    SystemStakeSubsidyCurrentDistributionAmount, SystemStakeSubsidyPeriodLength, SystemStakeSubsidyDecreaseRate
  ]

  /** Every constant declared above, in declaration order (aliases included). */
  const EarlySectionColumns: seq<ColumnName> := OverviewColumns + TransactionColumns + CheckpointColumns + RoundColumns + PeerColumns
  const ValidatorAndEpochColumns: seq<ColumnName> := ValidatorColumns + EpochColumns
  const AllColumnNames: seq<ColumnName> := EarlySectionColumns + ValidatorAndEpochColumns + SystemStateColumns

  /** The seventeen columns shown by the node dashboard. */
  const NodeDashboardColumns: seq<ColumnName> := [
    Health,
    CurrentEpoch, NetworkPeers, Uptime, Version, Commit,
    TotalTransactionBlocks, TotalTransactionCertificates, TotalTransactionEffects,
    LatestCheckpoint, HighestKnownCheckpoint, HighestSyncedCheckpoint, LastExecutedCheckpoint,
    TXSyncPercentage, CheckSyncPercentage, CheckpointExecBacklog, CheckpointSyncBacklog
  ]

  /** Two column names are the same key exactly when their strings agree. */
  lemma ToStringIdentifies(a: ColumnName, b: ColumnName)
    ensures a.ToString() == b.ToString() <==> a == b
  {
  }

  /** The epoch constants and their system-state namesakes are one key each;
      the two total-stake constants differ (one has a line break). */
  lemma SharedEpochKeys()
    ensures Epoch == SystemEpoch
    ensures EpochStartTimestamp == SystemEpochStartTimestamp
    ensures EpochReferenceGasPrice == SystemReferenceGasPrice
    ensures EpochTotalStake != SystemTotalStake
  {
  }

  /** The node dashboard columns are seventeen pairwise distinct keys. */
  lemma NodeDashboardColumnsDistinct()
    ensures |NodeDashboardColumns| == 17
    ensures forall i, j :: 0 <= i < j < |NodeDashboardColumns| ==> NodeDashboardColumns[i] != NodeDashboardColumns[j]
  {
  }

  /** True when no name in `names` is the empty string. */
  predicate NoneEmpty(names: seq<ColumnName>) {
    forall c :: c in names ==> c.value != []
  }

  // One helper per section keeps each literal check small.

  lemma OverviewColumnsNonEmpty()
    ensures NoneEmpty(OverviewColumns)
  {
  }

  lemma TransactionColumnsNonEmpty()
    ensures NoneEmpty(TransactionColumns)
  {
  }

  lemma CheckpointColumnsNonEmpty()
    ensures NoneEmpty(CheckpointColumns)
  {
  }

  lemma RoundColumnsNonEmpty()
    ensures NoneEmpty(RoundColumns)
  {
  }

  lemma PeerColumnsNonEmpty()
    ensures NoneEmpty(PeerColumns)
  {
  }

  lemma ValidatorColumnsNonEmpty()
    ensures NoneEmpty(ValidatorColumns)
  {
  }

  lemma EpochColumnsNonEmpty()
    ensures NoneEmpty(EpochColumns)
  {
  }

  lemma SystemStateHeadColumnsNonEmpty()
    ensures NoneEmpty(SystemStateHeadColumns)
  {
  }

  lemma SystemStateTailColumnsNonEmpty()
    ensures NoneEmpty(SystemStateTailColumns)
  {
  }

  /** No column constant is the empty string. */
  lemma ColumnNamesNonEmpty()
    ensures |AllColumnNames| == 103
    ensures forall c :: c in AllColumnNames ==> |c.ToString()| > 0
  {
    OverviewColumnsNonEmpty();
    TransactionColumnsNonEmpty();
    CheckpointColumnsNonEmpty();
    RoundColumnsNonEmpty();
    PeerColumnsNonEmpty();
    ValidatorColumnsNonEmpty();
    EpochColumnsNonEmpty();
    SystemStateHeadColumnsNonEmpty();
    SystemStateTailColumnsNonEmpty();
    NoneEmptyConcat(OverviewColumns, TransactionColumns);
    NoneEmptyConcat(OverviewColumns + TransactionColumns, CheckpointColumns);
    NoneEmptyConcat(OverviewColumns + TransactionColumns + CheckpointColumns, RoundColumns);
    NoneEmptyConcat(OverviewColumns + TransactionColumns + CheckpointColumns + RoundColumns, PeerColumns);
    NoneEmptyConcat(ValidatorColumns, EpochColumns);
    NoneEmptyConcat(SystemStateHeadColumns, SystemStateTailColumns);
    NoneEmptyConcat(EarlySectionColumns, ValidatorAndEpochColumns);
    NoneEmptyConcat(EarlySectionColumns + ValidatorAndEpochColumns, SystemStateColumns);
  }

  lemma NoneEmptyConcat(a: seq<ColumnName>, b: seq<ColumnName>)
    requires NoneEmpty(a) && NoneEmpty(b)
    ensures NoneEmpty(a + b)
  {
  }
}
