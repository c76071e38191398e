/** The one-shot fetch orchestrator: each enabled data group (RPC hosts, the
    node, the peers) is fetched, failures are reported over an error channel
    of capacity 3, and the collected errors are aggregated. The concurrent
    tasks are replaced by their outcomes, taken in group order. */
module Checker {
  import opened Wrappers

  /** The independent data groups, each behind its own display flag. */
  datatype Group = RPCGroup | NodeGroup | PeersGroup

  /** The error a group's fetch reports (network, timeout or decoding). */
  datatype FetchError = FetchError(message: string)

  /** The display flags of the three tables. */
  datatype MonitorsConfig = MonitorsConfig(rpcTable: bool, nodeTable: bool, peersTable: bool)

  /** Capacity of the error channel. */
  const ErrorChannelCapacity := 3

  /** The enabled groups, in the order their fetches are launched. */
  function EnabledGroups(cfg: MonitorsConfig): (groups: seq<Group>)
    ensures |groups| <= 3
    ensures RPCGroup in groups <==> cfg.rpcTable
    ensures NodeGroup in groups <==> cfg.nodeTable
    ensures PeersGroup in groups <==> cfg.peersTable
  {
    (if cfg.rpcTable then [RPCGroup] else [])
    + (if cfg.nodeTable then [NodeGroup] else [])
    + (if cfg.peersTable then [PeersGroup] else [])
  }

  /** The errors reported by the groups `groups`, in order; a group whose
      fetch succeeds reports nothing. */
  function Failures(groups: seq<Group>, outcome: Group -> Option<FetchError>): seq<FetchError>
  {
    if groups == [] then []
    else Failures(groups[..|groups| - 1], outcome) + FailureOf(groups[|groups| - 1], outcome)
  }

  function FailureOf(g: Group, outcome: Group -> Option<FetchError>): (errs: seq<FetchError>)
    ensures |errs| <= 1
  {
    if outcome(g).Some? then [outcome(g).value] else []
  }

  lemma FailuresSnoc(groups: seq<Group>, g: Group, outcome: Group -> Option<FetchError>)
    ensures Failures(groups + [g], outcome) == Failures(groups, outcome) + FailureOf(g, outcome)
  {
    assert (groups + [g])[..|groups|] == groups;
  }

  /** Each group contributes at most one error, and every group contributes
      one exactly when all of them failed. */
  lemma {:induction false} FailuresCount(groups: seq<Group>, outcome: Group -> Option<FetchError>)
    ensures |Failures(groups, outcome)| <= |groups|
    ensures |Failures(groups, outcome)| == |groups| <==> forall k :: 0 <= k < |groups| ==> outcome(groups[k]).Some?
  {
    if groups != [] {
      var init := groups[..|groups| - 1];
      FailuresCount(init, outcome);
      assert forall k :: 0 <= k < |init| ==> init[k] == groups[k];
    }
  }

  /** The orchestrator reports failure exactly when all three groups are
      enabled and all three failed. */
  lemma {:induction false} TotalFailureNeedsAllThree(cfg: MonitorsConfig, outcome: Group -> Option<FetchError>)
    ensures |Failures(EnabledGroups(cfg), outcome)| == ErrorChannelCapacity
            <==> cfg.rpcTable && cfg.nodeTable && cfg.peersTable
                 && outcome(RPCGroup).Some? && outcome(NodeGroup).Some? && outcome(PeersGroup).Some?
  {
    var groups := EnabledGroups(cfg);
    FailuresCount(groups, outcome);
    if cfg.rpcTable && cfg.nodeTable && cfg.peersTable {
      assert groups == [RPCGroup, NodeGroup, PeersGroup];
    }
  }

  /** With fewer than three groups enabled, no combination of failures is
      reported, even when every enabled group failed. */
  lemma FewerThanThreeEnabledNeverFails(cfg: MonitorsConfig, outcome: Group -> Option<FetchError>)
    requires |EnabledGroups(cfg)| < 3
    ensures |Failures(EnabledGroups(cfg), outcome)| != ErrorChannelCapacity
  {
    FailuresCount(EnabledGroups(cfg), outcome);
  }

  /** The threshold is the literal capacity 3, not the number of enabled
      groups: with only the RPC table enabled and its fetch failing, every
      enabled group failed and yet the count differs from 3. */
  lemma SingleFailingGroupIsNotReported()
    ensures var cfg := MonitorsConfig(true, false, false);
      var outcome := (g: Group) => Some(FetchError("timeout"));
      && |Failures(EnabledGroups(cfg), outcome)| == |EnabledGroups(cfg)|
      && |Failures(EnabledGroups(cfg), outcome)| != ErrorChannelCapacity
  {
    var cfg := MonitorsConfig(true, false, false);
    var outcome := (g: Group) => Some(FetchError("timeout"));
    assert EnabledGroups(cfg) == [RPCGroup];
    assert Failures([RPCGroup], outcome) == Failures([], outcome) + FailureOf(RPCGroup, outcome);
  }

  /** A buffered channel of fetch errors. A send needs room in the buffer
      (otherwise the sender would block) and receiving drains the buffer in
      order; once closed and empty, a receive reports the end. */
  class ErrorChannel {
    const capacity: nat
    var buffer: seq<FetchError>
    var closed: bool

    constructor (capacity: nat)
      ensures this.capacity == capacity && buffer == [] && !closed
    {
      this.capacity := capacity;
      buffer := [];
      closed := false;
    }

    method Send(e: FetchError)
      requires !closed && |buffer| < capacity
      modifies this
      ensures buffer == old(buffer) + [e] && !closed
    {
      buffer := buffer + [e];
    }

    method Close()
      requires !closed
      modifies this
      ensures closed && buffer == old(buffer)
    {
      closed := true;
    }

    /** Receives the next error, or None once the channel is closed and
        drained. */
    method Receive() returns (e: Option<FetchError>)
      requires closed || buffer != []
      modifies this
      ensures closed == old(closed)
      ensures old(buffer) == [] ==> e == None && buffer == []
      ensures old(buffer) != [] ==> e == Some(old(buffer)[0]) && buffer == old(buffer)[1..]
    {
      if buffer == [] {
        e := None;
      } else {
        e := Some(buffer[0]);
        buffer := buffer[1..];
      }
    }
  }

  /** Runs one group's fetch and reports its failure on the channel. */
  method LaunchFetch(ch: ErrorChannel, g: Group, outcome: Group -> Option<FetchError>)
    requires !ch.closed && |ch.buffer| < ch.capacity
    modifies ch
    ensures !ch.closed && ch.buffer == old(ch.buffer) + FailureOf(g, outcome)
  {
    var result := outcome(g);
    if result.Some? {
      ch.Send(result.value);
    }
  }

  /** Launches the fetch of group `g` when its flag is set. The channel
      holds the failures of the groups fetched so far, and there is room
      for one more. */
  method LaunchIfEnabled(ch: ErrorChannel, enabled: bool, g: Group, outcome: Group -> Option<FetchError>, fetched: seq<Group>)
    returns (fetched': seq<Group>)
    requires !ch.closed && ch.buffer == Failures(fetched, outcome)
    requires |ch.buffer| <= |fetched| < ch.capacity
    modifies ch
    ensures fetched' == fetched + (if enabled then [g] else [])
    ensures !ch.closed && ch.buffer == Failures(fetched', outcome) && |ch.buffer| <= |fetched'|
  {
    fetched' := fetched;
    if enabled {
      LaunchFetch(ch, g, outcome);
      FailuresSnoc(fetched, g, outcome);
      fetched' := fetched + [g];
    }
  }

  /** Receives until the closed channel is drained, appending each error to
      the aggregate and counting it. */
  method DrainErrors(ch: ErrorChannel) returns (collected: seq<FetchError>, errCount: nat)
    requires ch.closed
    modifies ch
    ensures collected == old(ch.buffer) && errCount == |collected|
    ensures ch.closed && ch.buffer == []
  {
    collected := [];
    errCount := 0;
    var next := ch.Receive();
    while next.Some?
      invariant ch.closed
      invariant next.Some? ==> collected + [next.value] + ch.buffer == old(ch.buffer)
      invariant next.None? ==> collected == old(ch.buffer) && ch.buffer == []
      invariant errCount == |collected|
      decreases |ch.buffer| + (if next.Some? then 1 else 0)
    {
      collected := collected + [next.value];
      errCount := errCount + 1;
      next := ch.Receive();
    }
  }

  /** Fetches every enabled group and aggregates the errors. `outcome` gives
      each group's fetch result; `fetched` lists the fetches performed. An
      error, holding every collected error in order, is returned only when
      three errors were collected. */
  method ParseData(cfg: MonitorsConfig, outcome: Group -> Option<FetchError>)
    returns (err: Option<seq<FetchError>>, fetched: seq<Group>)
    ensures fetched == EnabledGroups(cfg)
    ensures err.Some? <==> |Failures(EnabledGroups(cfg), outcome)| == ErrorChannelCapacity
    ensures err.Some? ==> err.value == Failures(EnabledGroups(cfg), outcome)
  {
    var errChan := new ErrorChannel(ErrorChannelCapacity);
    fetched := LaunchIfEnabled(errChan, cfg.rpcTable, RPCGroup, outcome, []);
    fetched := LaunchIfEnabled(errChan, cfg.nodeTable, NodeGroup, outcome, fetched);
    fetched := LaunchIfEnabled(errChan, cfg.peersTable, PeersGroup, outcome, fetched);
    assert fetched == EnabledGroups(cfg);
    errChan.Close();

    var collected, errCount := DrainErrors(errChan);

    if errCount == 3 {
      err := Some(collected);
    } else {
      err := None;
    }
  }
}
