/**
 The video player component (components/OptimizedVideo.tsx): it picks a
 source from the advisor's quality label, shows an offline notice instead of
 the player when disconnected, and keeps three flags for the player's UI.
 */
module OptimizedVideo {
  import opened Wrappers
  import opened NetworkOptimization

  /** The request header added for a slow connection. */
  const AcceptEncoding: string := "Accept-Encoding"
  const Gzip: string := "gzip"

  /** The `source` object handed to the player. */
  datatype VideoSource = VideoSource(uri: string, headers: Option<map<string, string>>)

  /** What the component shows: the offline notice, or the player. */
  datatype Screen =
    | OfflineNotice
    | Player(source: VideoSource, slowIndicator: bool)

  /** The outcome of the player ref and its asynchronous play or pause call. */
  datatype PlayerCall = NoPlayer | CallCompleted | CallRejected

  /** The call issued on the player. */
  datatype PlayerCommand = Play | Pause

  /** The source for `videoUrl` at the given quality: same URI, gzip only when low. */
  function GetVideoSource(videoUrl: string, quality: VideoQuality): (src: VideoSource)
    ensures src.uri == videoUrl
    ensures src.headers.Some? <==> quality == Low
    ensures src.headers.Some? ==> src.headers.value == map[AcceptEncoding := Gzip]
  {
    VideoSource(videoUrl, if quality == Low then Some(map[AcceptEncoding := Gzip]) else None)
  }

  /** What the component renders for a snapshot: the offline gate comes first. */
  function Render(net: NetworkState, videoUrl: string): (v: Screen)
    ensures v.OfflineNotice? <==> !net.isConnected
    ensures v.Player? ==> v.source == GetVideoSource(videoUrl, Quality(net))
    ensures v.Player? ==> (v.slowIndicator <==> net.isSlowConnection)
  {
    if !net.isConnected then OfflineNotice
    else Player(GetVideoSource(videoUrl, Quality(net)), net.isSlowConnection)
  }

  /** The player's UI flags for one rendered video. */
  class VideoPlayerState {
    const videoUrl: string
    var isPlaying: bool
    var isLoading: bool
    var showControls: bool

    /** Paused, not loading, controls visible. */
    constructor (videoUrl: string)
      ensures this.videoUrl == videoUrl
      ensures !isPlaying && !isLoading && showControls
    {
      this.videoUrl := videoUrl;
      isPlaying, isLoading, showControls := false, false, true;
    }

    /**
     The play/pause button. Without a player nothing is issued; otherwise the
     opposite of the current state is requested, and the flag flips only when
     that call completes.
     */
    method HandlePlayPause(call: PlayerCall) returns (issued: Option<PlayerCommand>)
      modifies this
      ensures issued == if call.NoPlayer? then None
                        else Some(if old(isPlaying) then Pause else Play)
      ensures isPlaying == if call.CallCompleted? then !old(isPlaying) else old(isPlaying)
      ensures isLoading == old(isLoading) && showControls == old(showControls)
    {
      if call.NoPlayer? {
        return None;
      }
      if isPlaying {
        issued := Some(Pause);
        if call.CallCompleted? {
          isPlaying := false;
        }
      } else {
        issued := Some(Play);
        if call.CallCompleted? {
          isPlaying := true;
        }
      }
    }

    /** The player finished loading. */
    method HandleLoad()
      modifies this
      ensures !isLoading
      ensures isPlaying == old(isPlaying) && showControls == old(showControls)
    {
      isLoading := false;
    }

    /** The player started loading. */
    method HandleLoadStart()
      modifies this
      ensures isLoading
      ensures isPlaying == old(isPlaying) && showControls == old(showControls)
    {
      isLoading := true;
    }

    /** A tap on the video shows or hides the controls. */
    method ToggleControls()
      modifies this
      ensures showControls == !old(showControls)
      ensures isPlaying == old(isPlaying) && isLoading == old(isLoading)
    {
      showControls := !showControls;
    }

    /** The source built for this video at the advisor's current quality. */
    method VideoSourceFor(monitor: NetworkMonitor) returns (src: VideoSource)
      requires monitor.Valid()
      ensures src.uri == videoUrl
      ensures src.headers.Some? <==> monitor.networkState.isConnected
                                     && monitor.networkState.isSlowConnection
      ensures src.headers.Some? ==> src.headers.value == map[AcceptEncoding := Gzip]
      ensures src == GetVideoSource(videoUrl, Quality(monitor.networkState))
    {
      var quality := monitor.GetOptimizedVideoQuality();
      src := GetVideoSource(videoUrl, quality);
    }
  }

  // ---------------------------------------------------------------------------
  // Properties of the component composed with the advisor.

  /** The slow-connection badge only ever shows on a connected, slow snapshot. */
  lemma SlowIndicatorNeedsConnection(net: NetworkState, videoUrl: string)
    ensures Render(net, videoUrl).Player? && Render(net, videoUrl).slowIndicator
            <==> net.isConnected && net.isSlowConnection
  {
  }

  /** A successful probe reporting a connected CELLULAR link yields a gzip source. */
  lemma ConnectedCellularGetsGzip(s: NetworkState, report: ProbeReport, videoUrl: string)
    requires report.isConnected == Some(true) && report.connectionType == Some(Cellular)
    ensures Render(Next(s, ProbeSucceeded(report)), videoUrl)
            == Player(VideoSource(videoUrl, Some(map[AcceptEncoding := Gzip])), true)
  {
  }

  /** From mount on, whatever the probes did, gzip is requested exactly on connected CELLULAR. */
  lemma GzipIffConnectedCellular(results: seq<ProbeResult>, videoUrl: string)
    ensures var net := Poll(InitialState, results);
      var v := Render(net, videoUrl);
      v.Player? && v.source.headers.Some? <==> net.isConnected && net.connectionType == Cellular
  {
    ReachableLowIffCellular(results);
  }

  /** Before the first probe the offline notice is shown. */
  lemma InitiallyOffline(videoUrl: string)
    ensures Render(InitialState, videoUrl) == OfflineNotice
  {
  }
}
