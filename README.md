# Network-aware video delivery and the authentication screen, in Dafny

This project models the small piece of the career-guidance app that has behaviour you can state. It has three parts.

- **The delivery advisor** (`hooks/useNetworkOptimization.ts`, module `NetworkOptimization`). The advisor holds one `NetworkState` snapshot. It starts disconnected, `UNKNOWN` and not slow. Each firing of the probe timer is one call of `NetworkMonitor.CheckNetworkState`. That call takes the probe's outcome as a `ProbeResult`: a report whose fields may be missing, or a failure. A successful report replaces the snapshot with a normalised one: missing flags become false, a missing or empty type becomes `UNKNOWN`, and the connection counts as slow exactly when the raw type is `CELLULAR`. A failed probe keeps the old snapshot. `Quality` turns the snapshot into `Offline`, `Low` or `High`. `ShouldPreload` decides whether to buffer ahead. `Poll` folds a whole run of probes, which stands for the 5-second polling.
- **The video component** (`components/OptimizedVideo.tsx`, module `OptimizedVideo`). `GetVideoSource` maps a quality label to the player's source. The URI is always the video's URL, and an `Accept-Encoding: gzip` header is added only for `Low`. `Render` applies the offline gate before any source is built. `VideoPlayerState` holds the `isPlaying`, `isLoading` and `showControls` flags and the handlers that change them. The player's asynchronous play and pause calls become a `PlayerCall` parameter: no player, call completed, or call rejected.
- **The authentication screen** (`app/auth/index.tsx`, module `AuthScreen`). `AuthScreenState` holds the mode, the four text fields, the intro-video index and the `showVideos` flag. `HandleAuth` is specified by the decision function `Decide` and by `EffectOf`. Navigation and alerts are returned as `Effect` values. The 90-second redirect after registration is the effect `NavigateAfter(90000, "/career-details")`. `PlayNextVideo` is one step of the introduction and is specified by `NextVideo`.

Three points about the hook's code shape the model:
- The hook has no separate "unknown" state. From mount it holds a concrete default snapshot, and the model does the same.
- The connection type is whatever string the probe reports, or `UNKNOWN`. It is not a closed enumeration, so the model keeps a string.
- There is no guard against updating the snapshot after unmount, so none is modelled.

The introduction videos after registration run as follows. While a video has a successor, `playNextVideo` sets a 30-second timer that moves to the next index. When the index reaches the last video, the effect on the index runs `playNextVideo` again at once. Its other branch then hides the videos without any timer. So the last video stays on screen only until that effect runs, even though the code's comment says 30 seconds per video. The register form then shows until the 90-second redirect fires. The index is never reset, so a second registration finds it at the last video and ends the introduction at once. `PlayNextVideo` returns the delay of its step, 30000 ms or 0, and `IntroElapsed` and `LastVideoEndsAtOnce` state these timings.

## Model

| member | source | states |
|---|---|---|
| `NetworkOptimization.OrFalse` | hooks/useNetworkOptimization.ts:32-33 | the or-false default on a possibly missing flag is true exactly when the flag is present and true |
| `NetworkOptimization.OrUnknown` | hooks/useNetworkOptimization.ts:34 | a missing or empty type label becomes `UNKNOWN`; a non-empty label is kept; the result is never empty |
| `NetworkOptimization.Snapshot` | hooks/useNetworkOptimization.ts:31-36 | a successful probe yields connected/reachable only for a reported `true`, the reported type if non-empty and otherwise `UNKNOWN`, slow iff the raw type is `CELLULAR`, and a well-formed snapshot |
| `NetworkOptimization.NetworkMonitor.constructor` | hooks/useNetworkOptimization.ts:12-17 | the hook starts disconnected, unreachable, `UNKNOWN`, not slow, and well-formed |
| `NetworkOptimization.NetworkMonitor.CheckNetworkState` | hooks/useNetworkOptimization.ts:27-40 | the held snapshot becomes the normalised report on success and stays exactly as it was on failure; the invariant is kept |
| `NetworkOptimization.NetworkMonitor.GetOptimizedVideoQuality` | hooks/useNetworkOptimization.ts:42-46 | offline iff disconnected, low iff connected and slow, otherwise high; on a well-formed snapshot, low iff connected with type `CELLULAR`; only reads the snapshot |
| `NetworkOptimization.NetworkMonitor.ShouldPreloadContent` | hooks/useNetworkOptimization.ts:48-50 | the result is the preload rule "connected and not slow", and it holds exactly when the quality label is high; only reads the snapshot |
| `NetworkOptimization.QualityCases` | hooks/useNetworkOptimization.ts:42-46 | each of the three labels holds exactly under its condition on connectivity and slowness |
| `NetworkOptimization.OfflineWinsOverSlow` | hooks/useNetworkOptimization.ts:43-44 | a disconnected snapshot is offline, with no preload, even when its slow flag is set |
| `NetworkOptimization.PreloadIffHigh` | hooks/useNetworkOptimization.ts:42-50 | `shouldPreloadContent` is true exactly when `getOptimizedVideoQuality` is high |
| `NetworkOptimization.InitialAdvice` | hooks/useNetworkOptimization.ts:12-17 | before any probe the quality is offline, preload is off, and the snapshot is well-formed |
| `NetworkOptimization.SuccessfulProbeNormalises` | hooks/useNetworkOptimization.ts:31-36 | after a successful probe: slow iff the raw type is `CELLULAR`; falsy flags read false; a falsy type reads `UNKNOWN` |
| `NetworkOptimization.FailedProbeKeepsSnapshot` | hooks/useNetworkOptimization.ts:37-39 | a probe that throws leaves the snapshot unchanged |
| `NetworkOptimization.PollKeepsLatest` | hooks/useNetworkOptimization.ts:19-40 | after any run of periodic probes the snapshot is the one built by the last successful probe, or the starting one if none succeeded |
| `NetworkOptimization.PollPreservesWellFormed` | hooks/useNetworkOptimization.ts:27-36 | every run of probes keeps the invariant "type non-empty, slow iff type is `CELLULAR`" |
| `NetworkOptimization.ReachableLowIffCellular` | hooks/useNetworkOptimization.ts:12-46 | in every state reachable from mount, the quality is low exactly when connected with type `CELLULAR` |
| `OptimizedVideo.GetVideoSource` | components/OptimizedVideo.tsx:55-67 | the source's URI is always the video URL, and the gzip header is present iff the quality is low |
| `OptimizedVideo.Render` | components/OptimizedVideo.tsx:69-134 | disconnected gives the offline notice and builds no source; connected gives the player with the quality's source and the slow badge iff slow |
| `OptimizedVideo.VideoPlayerState.constructor` | components/OptimizedVideo.tsx:29-31 | the flags start not playing, not loading, controls shown |
| `OptimizedVideo.VideoPlayerState.HandlePlayPause` | components/OptimizedVideo.tsx:35-45 | without a player nothing is issued or changed; otherwise pause or play is issued as the flag says, and the flag flips only if the call completes |
| `OptimizedVideo.VideoPlayerState.HandleLoad` | components/OptimizedVideo.tsx:47-49 | load completion clears `isLoading` and nothing else |
| `OptimizedVideo.VideoPlayerState.HandleLoadStart` | components/OptimizedVideo.tsx:51-53 | load start sets `isLoading` and nothing else |
| `OptimizedVideo.VideoPlayerState.ToggleControls` | components/OptimizedVideo.tsx:83-86 | a tap on the video flips `showControls` and nothing else |
| `OptimizedVideo.VideoPlayerState.VideoSourceFor` | components/OptimizedVideo.tsx:55-67 | the source built from the live advisor is `GetVideoSource` at the held snapshot's quality: this video's URI, with exactly the `Accept-Encoding: gzip` header iff the snapshot is connected and slow |
| `OptimizedVideo.SlowIndicatorNeedsConnection` | components/OptimizedVideo.tsx:69-134 | the "Slow Connection" badge appears iff connected and slow, because the offline notice returns first |
| `OptimizedVideo.ConnectedCellularGetsGzip` | components/OptimizedVideo.tsx:55-67 | a probe reporting a connected `CELLULAR` link makes the player request the same URI with `Accept-Encoding: gzip` |
| `OptimizedVideo.GzipIffConnectedCellular` | components/OptimizedVideo.tsx:55-79 | after any run of probes from mount, the gzip header is requested exactly when connected with type `CELLULAR` |
| `OptimizedVideo.InitiallyOffline` | components/OptimizedVideo.tsx:69-79 | before the first probe the component shows the offline notice |
| `AuthScreen.EffectOf` | app/auth/index.tsx:48-71 | a login navigates to `/(tabs)` at once; missing fields alert "Please fill all fields"; a mismatch alerts "Passwords do not match"; a successful registration navigates to `/career-details` after 90000 ms; only the two error outcomes alert |
| `AuthScreen.AuthScreenState.constructor` | app/auth/index.tsx:23-29 | the screen starts in login mode with empty fields, video index 0 and the videos hidden |
| `AuthScreen.AuthScreenState.EditField` | app/auth/index.tsx:109-147 | typing replaces one field of the form and changes nothing else |
| `AuthScreen.AuthScreenState.HandleAuth` | app/auth/index.tsx:48-71 | the effect is the one `Decide` picks for the mode and the form; `showVideos` is set only by a successful registration; nothing else changes |
| `AuthScreen.AuthScreenState.PlayNextVideo` | app/auth/index.tsx:38-46 | the index goes up by one, after the 30-second timer, while it is below the last video; otherwise the videos are hidden with no delay; the index never passes the last video |
| `AuthScreen.AuthScreenState.ToggleMode` | app/auth/index.tsx:155-158 | the mode flips and the typed fields keep their values |
| `AuthScreen.AuthScreenState.Skip` | app/auth/index.tsx:88-93 | skipping hides the videos and navigates to `/career-details` |
| `AuthScreen.LoginDecision` | app/auth/index.tsx:49-55 | login navigates to `/(tabs)` iff email and password are both non-empty; otherwise it alerts "Please fill all fields" |
| `AuthScreen.LoginIgnoresNameAndConfirm` | app/auth/index.tsx:51 | two forms with the same email and password get the same login outcome |
| `AuthScreen.RegisterMissingFieldFirst` | app/auth/index.tsx:58-69 | registration with any empty field alerts "Please fill all fields", whether or not the passwords match |
| `AuthScreen.RegisterFilledForm` | app/auth/index.tsx:58-63 | with all fields filled, registration alerts "Passwords do not match" iff they differ, and starts the introduction iff they are equal |
| `AuthScreen.StartIntroExactly` | app/auth/index.tsx:48-71 | the introduction starts exactly on a complete registration with matching passwords |
| `AuthScreen.IntroAfterSteps` | app/auth/index.tsx:32-46 | n steps from any valid index reach min(index + n, last) and keep the videos shown only if no step ran past the last video |
| `AuthScreen.IntroElapsed` | app/auth/index.tsx:38-46 | the first n steps from any valid index wait 30 seconds for each video left that has a successor and nothing at the last video |
| `AuthScreen.LastVideoEndsAtOnce` | app/auth/index.tsx:33-35 | at the last index the step waits no time and hides the introduction, so the last video gets no 30 seconds and a repeated registration ends at once |
| `AuthScreen.IntroFromStart` | app/auth/index.tsx:32-46 | after a registration the index steps through the videos and the introduction ends at the last index after as many steps as there are videos; it waits 30 seconds per video except the last, which ends before the 90-second redirect |

## Left out

- Rendering, styles and colours (`constants/colors.ts`) are not modelled. From the render code, the model keeps only the offline gate, the source handed to the player and the slow-connection badge.
- The connectivity probe is a `ProbeResult` parameter. The model does not call a platform API.
- The player's play and pause calls are a `PlayerCall` parameter. A rejected call stands for a promise that rejects, so the flag is never set.
- Navigation and alerts are returned as `Effect` values and never performed.
- Diagnostic logging of a failed probe is left out because it is console output.
- No clock is modelled. The 5-second polling interval is not modelled: each probe is one method call. The 30-second and 90-second delays appear only as numbers: the delay `PlayNextVideo` returns, and the emitted `NavigateAfter` effect. The redirect's later firing is not modelled.
- AuthScreen.AuthScreenState.PlayNextVideo: one call is one run of the step. Below the last video, it combines scheduling the 30-second timer with that timer firing. At the last video there is no timer, and the call hides the videos at once. The model does not capture the index that a timer captured when it was scheduled. It also does not capture that the effect calls this step only in register mode while the videos are shown.
- React's lifecycle is not modelled: effects, dependency arrays, unmounting, and a probe that resolves after unmount. The source does not guard against that last case.
- The video URLs are not modelled. Only their count, two, matters.
- The component's `thumbnail` and `title` props are display-only and are not modelled. So is the `onPlaybackStatusUpdate` callback, which is passed straight through to the player.
