/**
 The network-aware delivery advisor (hooks/useNetworkOptimization.ts).

 The hook holds one snapshot of the device's connectivity. A periodic probe
 replaces it; a probe that throws leaves it as it was. Two derivations read
 the snapshot: the video quality label and the preload decision.
 */
module NetworkOptimization {
  import opened Wrappers

  /** The connection-type label the probe reports for a mobile-data link. */
  const Cellular: string := "CELLULAR"

  /** The label the hook uses when the probe reports no connection type. */
  const Unknown: string := "UNKNOWN"

  /** The snapshot the hook holds. The source's `type` field is `connectionType` here. */
  datatype NetworkState = NetworkState(
    isConnected: bool,
    isInternetReachable: bool,
    connectionType: string,
    isSlowConnection: bool)

  /** The snapshot before any probe has completed. */
  const InitialState: NetworkState := NetworkState(false, false, Unknown, false)

  /** What the connectivity probe reports; each field may be missing. */
  datatype ProbeReport = ProbeReport(
    isConnected: Option<bool>,
    isInternetReachable: Option<bool>,
    connectionType: Option<string>)

  /** One call of the probe: it either resolves with a report or throws. */
  datatype ProbeResult = ProbeSucceeded(report: ProbeReport) | ProbeFailed

  /** The quality label the advisor recommends. */
  datatype VideoQuality = Offline | Low | High

  /** JavaScript `b || false`: a missing flag reads as false. */
  function OrFalse(b: Option<bool>): (r: bool)
    ensures r <==> b == Some(true)
  {
    match b
    case Some(v) => v
    case None => false
  }

  /** JavaScript `t || 'UNKNOWN'`: a missing or empty label reads as UNKNOWN. */
  function OrUnknown(t: Option<string>): (r: string)
    ensures r != ""
    ensures t.Some? && t.value != "" ==> r == t.value
    ensures t.None? || t.value == "" ==> r == Unknown
  {
    match t
    case Some(s) => if s != "" then s else Unknown
    case None => Unknown
  }

  /**
   The invariant of every snapshot the hook can hold: the type label is never
   empty, and the connection is slow exactly when the label is CELLULAR.
   */
  ghost predicate WellFormed(s: NetworkState)
  {
    s.connectionType != "" && (s.isSlowConnection <==> s.connectionType == Cellular)
  }

  /** The snapshot built from a successful probe. */
  function Snapshot(report: ProbeReport): (s: NetworkState)
    ensures s.isConnected <==> report.isConnected == Some(true)
    ensures s.isInternetReachable <==> report.isInternetReachable == Some(true)
    ensures s.connectionType == OrUnknown(report.connectionType)
    ensures s.isSlowConnection <==> report.connectionType == Some(Cellular)
    ensures WellFormed(s)
  {
    NetworkState(
      OrFalse(report.isConnected),
      OrFalse(report.isInternetReachable),
      OrUnknown(report.connectionType),
      report.connectionType == Some(Cellular))
  }

  /** The snapshot held after one probe: stale-but-available on failure. */
  function Next(s: NetworkState, result: ProbeResult): NetworkState
  {
    match result
    case ProbeSucceeded(report) => Snapshot(report)
    case ProbeFailed => s
  }

  /** The quality label for a snapshot. */
  function Quality(s: NetworkState): VideoQuality
  {
    if !s.isConnected then Offline
    else if s.isSlowConnection then Low
    else High
  }

  /** Whether content should be buffered before the user asks for it. */
  function ShouldPreload(s: NetworkState): bool
  {
    s.isConnected && !s.isSlowConnection
  }

  /** The snapshot held after the probes `results`, in the order they completed. */
  function Poll(s: NetworkState, results: seq<ProbeResult>): NetworkState
    decreases |results|
  {
    if results == [] then s else Poll(Next(s, results[0]), results[1..])
  }

  /** The report of the last successful probe in `results`, if any. */
  function LastSuccess(results: seq<ProbeResult>): Option<ProbeReport>
    decreases |results|
  {
    if results == [] then None
    else match results[|results| - 1]
      case ProbeSucceeded(report) => Some(report)
      case ProbeFailed => LastSuccess(results[..|results| - 1])
  }

  /** The held snapshot is stale-but-available: `s` unless some probe succeeded. */
  function Latest(s: NetworkState, results: seq<ProbeResult>): NetworkState
  {
    match LastSuccess(results)
    case Some(report) => Snapshot(report)
    case None => s
  }

  // ---------------------------------------------------------------------------
  // The hook itself: one held snapshot, refreshed in place.

  class NetworkMonitor {
    var networkState: NetworkState

    ghost predicate Valid()
      reads this
    {
      WellFormed(networkState)
    }

    /** Mounting the hook: disconnected, UNKNOWN and not slow. */
    constructor ()
      ensures networkState == InitialState
      ensures Valid()
    {
      networkState := InitialState;
    }

    /** One firing of the probe timer. */
    method CheckNetworkState(result: ProbeResult)
      requires Valid()
      modifies this
      ensures Valid()
      ensures networkState == Next(old(networkState), result)
      ensures result.ProbeFailed? ==> networkState == old(networkState)
    {
      match result {
        case ProbeSucceeded(report) =>
          networkState := Snapshot(report);
        case ProbeFailed =>
      }
    }

    /** The quality label for the held snapshot; reads it and changes nothing. */
    method GetOptimizedVideoQuality() returns (q: VideoQuality)
      requires Valid()
      ensures q == Offline <==> !networkState.isConnected
      ensures q == Low <==> networkState.isConnected && networkState.isSlowConnection
      ensures q == Low <==> networkState.isConnected && networkState.connectionType == Cellular
      ensures q == Quality(networkState)
    {
      if !networkState.isConnected {
        return Offline;
      }
      if networkState.isSlowConnection {
        return Low;
      }
      return High;
    }

    /** The preload decision for the held snapshot; reads it and changes nothing. */
    method ShouldPreloadContent() returns (b: bool)
      ensures b == ShouldPreload(networkState)
      ensures b <==> Quality(networkState) == High
    {
      b := networkState.isConnected && !networkState.isSlowConnection;
    }
  }

  // ---------------------------------------------------------------------------
  // Properties of the advisor.

  /** The three quality cases, each as an if-and-only-if over the snapshot. */
  lemma QualityCases(s: NetworkState)
    ensures Quality(s) == Offline <==> !s.isConnected
    ensures Quality(s) == Low <==> s.isConnected && s.isSlowConnection
    ensures Quality(s) == High <==> s.isConnected && !s.isSlowConnection
  {
  }

  /** A disconnected snapshot is offline whatever its slow flag says. */
  lemma OfflineWinsOverSlow(s: NetworkState)
    requires !s.isConnected && s.isSlowConnection
    ensures Quality(s) == Offline && !ShouldPreload(s)
  {
  }

  /** Preloading is advised exactly when the quality is high. */
  lemma PreloadIffHigh(s: NetworkState)
    ensures ShouldPreload(s) <==> Quality(s) == High
  {
  }

  /** Before any probe: offline, no preload, and the invariant holds. */
  lemma InitialAdvice()
    ensures WellFormed(InitialState)
    ensures Quality(InitialState) == Offline
    ensures !ShouldPreload(InitialState)
  {
  }

  /** A successful probe: slow iff the raw type is CELLULAR, and falsy fields normalised. */
  lemma SuccessfulProbeNormalises(s: NetworkState, report: ProbeReport)
    ensures var t := Next(s, ProbeSucceeded(report));
      && (t.isSlowConnection <==> report.connectionType == Some(Cellular))
      && (report.isConnected != Some(true) ==> !t.isConnected)
      && (report.isInternetReachable != Some(true) ==> !t.isInternetReachable)
      && (report.connectionType in {None, Some("")} ==> t.connectionType == Unknown)
      && (report.connectionType.Some? && report.connectionType.value != ""
          ==> t.connectionType == report.connectionType.value)
  {
  }

  /** A failed probe leaves the snapshot exactly as it was. */
  lemma FailedProbeKeepsSnapshot(s: NetworkState)
    ensures Next(s, ProbeFailed) == s
  {
  }

  /** Splitting off the first probe of a run does not disturb which probe succeeded last. */
  lemma {:induction false} LastSuccessCons(r: ProbeResult, rest: seq<ProbeResult>)
    ensures LastSuccess([r] + rest) ==
      if LastSuccess(rest).Some? then LastSuccess(rest)
      else if r.ProbeSucceeded? then Some(r.report)
      else None
    decreases |rest|
  {
    var rs := [r] + rest;
    if rest == [] {
      assert rs[..|rs| - 1] == [];
    } else {
      assert rs[..|rs| - 1] == [r] + rest[..|rest| - 1];
      assert rs[|rs| - 1] == rest[|rest| - 1];
      LastSuccessCons(r, rest[..|rest| - 1]);
    }
  }

  /** However many probes run, the held snapshot is the one built by the last success. */
  lemma {:induction false} PollKeepsLatest(s: NetworkState, results: seq<ProbeResult>)
    ensures Poll(s, results) == Latest(s, results)
    decreases |results|
  {
    if results != [] {
      var r, rest := results[0], results[1..];
      assert results == [r] + rest;
      PollKeepsLatest(Next(s, r), rest);
      LastSuccessCons(r, rest);
    }
  }

  /** Every run of probes keeps the snapshot invariant. */
  lemma {:induction false} PollPreservesWellFormed(s: NetworkState, results: seq<ProbeResult>)
    requires WellFormed(s)
    ensures WellFormed(Poll(s, results))
    decreases |results|
  {
    if results != [] {
      PollPreservesWellFormed(Next(s, results[0]), results[1..]);
    }
  }

  /** From mount on, the advice is low exactly when connected over CELLULAR. */
  lemma ReachableLowIffCellular(results: seq<ProbeResult>)
    ensures var s := Poll(InitialState, results);
      Quality(s) == Low <==> s.isConnected && s.connectionType == Cellular
  {
    PollPreservesWellFormed(InitialState, results);
  }
}
