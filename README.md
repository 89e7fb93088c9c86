# Glitcho native playback — a Dafny model

Glitcho is a macOS Twitch client. It browses Twitch in an embedded web view
and can hand a live channel to a native, ad-free player. This project models
the logic around that native playback path:

- **Stream resolution** (`StreamlinkManager`, Sources/Glitcho/StreamlinkPlayer.swift).
  The external `streamlink` resolver gets a fixed argument list. Its exit is
  classified as a stream URL or as an error carrying the exit status and the
  stderr text (module `Resolver`).
- **The player views** (`StreamlinkPlayerView`, `HybridTwitchView`,
  `NativeVideoPlayer`, same file). The two `loadStream` state machines run
  over `isLoading`, `streamURL`, `error` and `showError`. The body picks
  one of three phases: player, loading or load prompt. The AVPlayer is kept
  in step with `isPlaying` and loops from zero at the end of the stream
  (module `PlayerViews`).
- **The ad-blocking proxy** (Scripts/proxy_server.py). `filter_m3u8` is a
  one-pass line filter over an HLS media playlist (RFC 8216) that drops ad
  `#EXT-X-DATERANGE` markers and the segment after each (module
  `PlaylistFilter`). The routing tests of `do_GET` and its header copying
  are in module `ProxyRouting`.
- **Account labels and channel selection** (Sources/Glitcho/ContentView.swift).
  `AccountSection.normalized` feeds the display name and subtitle (module
  `Account`). The selection handlers set the current channel, the
  native-player flag and a fresh player identity, and the detail pane
  follows them (module `MainWindow`).

`Text` holds the string operations these share (trimming, case mapping,
substring tests, splitting and joining on line feeds). `Wrappers` holds
`Option`.

## Behaviour as written

The model follows the code:

- Nothing discards a stale resolver result. Each `loadStream` is a start
  step and a completion step, and when loads overlap the one that completes
  last wins (`PlayerViews.OverlappingLoadsLastCompletionWins`).
- No load is ever cancelled. `stopStream` acts on the manager's `process`
  field, but `getStreamURL` starts its process in a local variable
  (StreamlinkPlayer.swift:17) and never stores it. So the field stays empty
  and `stopStream` terminates nothing (the constructors and load methods
  keep `streamlink.process` unchanged).
- There is no separate error state. A failed load raises an alert. Under it,
  `StreamlinkPlayerView` shows the load prompt, while `HybridTwitchView`
  keeps showing its previous stream (`PlayerViews.FailedReloadKeepsStream`).
- The AVPlayer on screen keeps the URL it was built with. `makeNSView` builds it when `streamURL` goes from none to some. `updateNSView` (StreamlinkPlayer.swift:101-107) never reads `url`, so a later URL does not change what plays. In the hybrid view a successful reload therefore keeps the old stream (`PlayerViews.SuccessfulReloadKeepsPlayer`). With overlapping loads the view ends holding one URL while playing another.
- `isPlaying` is not reset by a load. It keeps whatever the play/pause
  button last made it.

## Model

| member | source | states |
|---|---|---|
| `Resolver.ResolverArguments` | Sources/Glitcho/StreamlinkPlayer.swift:22-28 | the resolver gets exactly five arguments: `twitch.tv/<channel>`, the quality, then `--stream-url`, `--twitch-disable-ads`, `--twitch-low-latency` |
| `Resolver.ResolverArgumentsInjective` | Sources/Glitcho/StreamlinkPlayer.swift:14-28 | two requests with the same command line have the same channel and quality, so the command line identifies the request |
| `Resolver.TrimmedOutput` | Sources/Glitcho/StreamlinkPlayer.swift:37-38 | the output considered is stdout trimmed of outer whitespace, or the empty text when stdout is not UTF-8 |
| `Resolver.Classify` | Sources/Glitcho/StreamlinkPlayer.swift:33-56 | success iff the process exited with status 0 and the trimmed stdout parses as a URL, and the URL is that trimmed text; a launch failure yields its own error; any other exit yields an error whose code is the exit status and whose message is stderr or "Unknown error"; one result per run |
| `Resolver.PrintedUrlResolves` | Sources/Glitcho/StreamlinkPlayer.swift:37-42 | a resolver that prints a URL followed by a line feed and exits 0 resolves to exactly that URL |
| `Resolver.NonZeroExitFails` | Sources/Glitcho/StreamlinkPlayer.swift:40-51 | a non-zero exit is an error whatever stdout holds, and the description the views show is the stderr text |
| `Resolver.ResolveError.Description` | Sources/Glitcho/StreamlinkPlayer.swift:47-51 | the `localizedDescription` the views store is the stderr text for a resolver error, and the launch error's own description otherwise |
| `Resolver.StreamlinkManager.constructor` | Sources/Glitcho/StreamlinkPlayer.swift:7-12 | a new manager is not loading, has no error, no URL and no process |
| `Resolver.StreamlinkManager.GetStreamURL` | Sources/Glitcho/StreamlinkPlayer.swift:14-59 | runs the resolver on the fixed argument list for the channel and quality and returns `Classify` of that run; it changes no field of the manager, so `process` is never set |
| `Resolver.StreamlinkManager.StopStream` | Sources/Glitcho/StreamlinkPlayer.swift:61-64 | a stored process is sent the termination signal and the field is cleared; the published fields are unchanged |
| `Resolver.ResolverProcess.Terminate` | Sources/Glitcho/StreamlinkPlayer.swift:62 | `terminate()` records that the process was signalled to stop; it does not claim the process has exited |
| `PlayerViews.PhaseOf` | Sources/Glitcho/StreamlinkPlayer.swift:121-161 | the player is shown iff there is a stream URL, whatever `isLoading` is; otherwise the loading view iff `isLoading`, and the load prompt iff not (the same branches are at lines 256-292) |
| `PlayerViews.PlayerAfter` | Sources/Glitcho/StreamlinkPlayer.swift:121-122 | a player is on screen iff the view holds a URL; entering the player branch builds one for the new URL, and staying in it keeps the player built for the earlier URL, since `updateNSView` (lines 101-107) ignores `url` |
| `PlayerViews.NativeVideoPlayer.constructor` | Sources/Glitcho/StreamlinkPlayer.swift:72-84 | the player starts at position zero and plays iff `isPlaying` |
| `PlayerViews.NativeVideoPlayer.UpdateNSView` | Sources/Glitcho/StreamlinkPlayer.swift:101-107 | after an update the player plays iff `isPlaying` and pauses otherwise; the position is kept |
| `PlayerViews.NativeVideoPlayer.DidPlayToEnd` | Sources/Glitcho/StreamlinkPlayer.swift:86-96 | at the end of the stream the player is back at zero and playing iff `isPlaying` |
| `PlayerViews.StreamlinkPlayerView.constructor` | Sources/Glitcho/StreamlinkPlayer.swift:111-116 | a new view has no URL and no player, is playing, shows no alert and is in the prompt phase |
| `PlayerViews.StreamlinkPlayerView.BeginLoad` | Sources/Glitcho/StreamlinkPlayer.swift:222-224 | a load starts with `isLoading` set and the URL cleared, which tears the player down, so the loading phase shows; nothing else changes |
| `PlayerViews.StreamlinkPlayerView.CompleteLoad` | Sources/Glitcho/StreamlinkPlayer.swift:225-237 | success stores the URL and shows the player, which plays that URL only if no player was on screen; failure stores the error's description, raises the alert and keeps the URL and player; both clear `isLoading` and keep the rest |
| `PlayerViews.StreamlinkPlayerView.LoadStream` | Sources/Glitcho/StreamlinkPlayer.swift:222-238 | a load with no other load overlapping it runs the resolver for the channel at quality `best` and ends with `isLoading` false and `isPlaying` kept; on success the player plays the resolved URL and the alert flag and any earlier error text are kept as they were; on failure there is no URL, the error's description is stored and the alert raised |
| `PlayerViews.StreamlinkPlayerView.TogglePlaying` | Sources/Glitcho/StreamlinkPlayer.swift:165 | the play/pause button flips `isPlaying` and nothing else |
| `PlayerViews.StreamlinkPlayerView.DismissAlert` | Sources/Glitcho/StreamlinkPlayer.swift:207 | the cancel button closes the alert |
| `PlayerViews.StreamlinkPlayerView.Retry` | Sources/Glitcho/StreamlinkPlayer.swift:204-206 | the retry button closes the alert and loads again: the alert is open afterwards iff that load failed, and then the stored error is that failure's description; on success the resolved URL plays; `isPlaying` and the process are kept |
| `PlayerViews.StreamlinkPlayerView.AlertMessage` | Sources/Glitcho/StreamlinkPlayer.swift:209 | the alert shows the stored error text, or "Impossible de charger le stream" when none is stored |
| `PlayerViews.HybridTwitchView.constructor` | Sources/Glitcho/StreamlinkPlayer.swift:242-248 | a new view has no URL and no player, is playing, shows the chat and no alert, and is in the prompt phase |
| `PlayerViews.HybridTwitchView.BeginLoad` | Sources/Glitcho/StreamlinkPlayer.swift:351-352 | a load only sets `isLoading`: with a URL already present the player stays on screen, otherwise the loading phase shows |
| `PlayerViews.HybridTwitchView.CompleteLoad` | Sources/Glitcho/StreamlinkPlayer.swift:353-365 | success replaces the URL, but a player already on screen keeps playing its first URL; failure keeps the previous URL and player, stores the error's description and raises the alert; both clear `isLoading` |
| `PlayerViews.HybridTwitchView.LoadStream` | Sources/Glitcho/StreamlinkPlayer.swift:351-366 | a load with no other load overlapping it ends with `isLoading` false; on success the URL is replaced and the alert flag and earlier error text are kept, and a new player is built only if none was on screen; on failure the previous URL and player stay, with the error's description stored and the alert raised |
| `PlayerViews.HybridTwitchView.TogglePlaying` | Sources/Glitcho/StreamlinkPlayer.swift:296 | the play/pause button flips `isPlaying` and keeps the URL, the player, the chat and the alert |
| `PlayerViews.HybridTwitchView.ToggleChat` | Sources/Glitcho/StreamlinkPlayer.swift:308 | the chat button flips `showChat` and keeps the URL, the player, `isPlaying` and the alert |
| `PlayerViews.HybridTwitchView.DismissAlert` | Sources/Glitcho/StreamlinkPlayer.swift:342 | the OK button closes the alert |
| `PlayerViews.HybridTwitchView.AlertMessage` | Sources/Glitcho/StreamlinkPlayer.swift:344 | the alert shows the stored error text, or "Erreur inconnue" when none is stored |
| `PlayerViews.OverlappingLoadsLastCompletionWins` | Sources/Glitcho/StreamlinkPlayer.swift:222-238 | two overlapping loads whose first completes last leave the view's `streamURL` at the first load's URL, while the player built for the reload's URL keeps playing: the code has no staleness guard |
| `PlayerViews.FailedReloadKeepsStream` | Sources/Glitcho/StreamlinkPlayer.swift:351-366 | in the hybrid view a failed reload leaves the earlier URL and its player in place under the error alert |
| `PlayerViews.SuccessfulReloadKeepsPlayer` | Sources/Glitcho/StreamlinkPlayer.swift:351-366 | in the hybrid view a successful reload to a second URL updates `streamURL`, but the player on screen still plays the first URL |
| `PlaylistFilter.FilterM3u8` | Scripts/proxy_server.py:53-78 | the one-pass loop with the `skip_next` flag returns the joined lines that `FilterLines` keeps |
| `PlaylistFilter.FilterLines` | Scripts/proxy_server.py:59-76 | one step per loop iteration over the lines with the `skip_next` flag; the result is never longer than the input |
| `PlaylistFilter.IsAdMarker` | Scripts/proxy_server.py:61 | an ad marker contains `#EXT-X-DATERANGE` and one of `stitched-ad`, `AMAZON`, `commercial`, `AD-` |
| `PlaylistFilter.IsUriLine` | Scripts/proxy_server.py:67 | a segment line is one that does not start with '#' and is not all whitespace |
| `PlaylistFilter.FilterIsSubsequence` | Scripts/proxy_server.py:55-78 | the output lines are a subsequence of the input lines, in their original order |
| `PlaylistFilter.FilterKeepsOnlyInputLines` | Scripts/proxy_server.py:59-76 | every output line is one of the input lines |
| `PlaylistFilter.FilterRemovesMarkers` | Scripts/proxy_server.py:61-64 | no output line has `#EXT-X-DATERANGE` together with `stitched-ad`, `AMAZON`, `commercial` or `AD-` |
| `PlaylistFilter.MarkerDropsNextSegment` | Scripts/proxy_server.py:61-70 | after an ad marker and any blank lines, the next segment URI line is dropped, the blanks are kept, and filtering goes on with no skip pending |
| `PlaylistFilter.MarkerSkipCancelledByTag` | Scripts/proxy_server.py:66-76 | after an ad marker and any blank lines, a tag line that is not itself a marker is kept and clears the pending skip, so filtering goes on with no skip pending |
| `PlaylistFilter.FilterBlanks` | Scripts/proxy_server.py:67-76 | blank or whitespace-only lines are always kept and do not clear a pending skip |
| `PlaylistFilter.BlankIsNotMarker` | Scripts/proxy_server.py:61-67 | a whitespace-only line is neither an ad marker, nor a tag line, nor a segment URI line |
| `PlaylistFilter.FilterKeepsProtected` | Scripts/proxy_server.py:61-76 | the non-marker tag lines and blank lines of the output are exactly those of the input, in order: they are never dropped |
| `PlaylistFilter.FilterCleanLines` | Scripts/proxy_server.py:59-76 | with no ad marker and no skip pending, every line is kept |
| `PlaylistFilter.FilteredCleanPlaylist` | Scripts/proxy_server.py:55-78 | a playlist with no ad marker line comes back exactly as it was |
| `PlaylistFilter.FilteredIdempotent` | Scripts/proxy_server.py:53-78 | filtering an already filtered playlist returns it unchanged |
| `PlaylistFilter.FilterRemovalBoundFrom` | Scripts/proxy_server.py:59-76 | from any skip flag, the lines removed number at most twice the ad markers, plus one for a skip already pending |
| `PlaylistFilter.FilterRemovalBound` | Scripts/proxy_server.py:61-70 | at most two lines are removed per ad marker: the marker and one segment |
| `ProxyRouting.RouteFor` | Scripts/proxy_server.py:18-51 | a path is fetched iff it starts with `http`, and anything else gets 400 "Bad Request"; the fetched target is the path itself, and it is filtered iff it contains `.m3u8` |
| `ProxyRouting.ResponseBody` | Scripts/proxy_server.py:34-36 | a playlist body is replaced by its filtered text, and any other body is passed on unchanged |
| `ProxyRouting.CleanResponsesUnchanged` | Scripts/proxy_server.py:34-45 | a fetched body without ad markers reaches the client unchanged, whether it is a playlist or not |
| `ProxyRouting.PlaylistResponsesCarryNoMarkers` | Scripts/proxy_server.py:34-36 | no line of a filtered playlist response, split as the client reads it, is an ad marker |
| `ProxyRouting.CopyHeaders` | Scripts/proxy_server.py:26-29 | the header-copy loop builds the header table `CopyFrom` describes, adding each forwarded header under its capitalized name |
| `ProxyRouting.IsForwarded` | Scripts/proxy_server.py:28 | a header is forwarded iff its lower-cased name is neither `host` nor `connection` |
| `ProxyRouting.AddHeader` | Scripts/proxy_server.py:29 | `add_header` stores the value under the capitalized name, replacing any earlier value there, and keeps every other entry |
| `ProxyRouting.CopyFromKeys` | Scripts/proxy_server.py:26-29 | a name is in the upstream header table iff it was already there or some forwarded incoming header capitalizes to it |
| `ProxyRouting.HopHeadersNotCopied` | Scripts/proxy_server.py:27-29 | no `host` or `connection` header, in any letter case, is copied upstream |
| `ProxyRouting.CopyFromKeeps` | Scripts/proxy_server.py:27-29 | an entry of the header table that no later forwarded header capitalizes to keeps its value |
| `ProxyRouting.CopyFromValue` | Scripts/proxy_server.py:27-29 | the value stored under a capitalized name is that of the last forwarded incoming header with that name |
| `ProxyRouting.OtherHeadersCopied` | Scripts/proxy_server.py:27-29 | every other incoming header is copied upstream under its capitalized name; the value stored is the header's own value when no later forwarded header has the same capitalized name |
| `Account.Normalized` | Sources/Glitcho/ContentView.swift:378-387 | no value and blank values give nothing; a value whose trimmed, lower-cased form is `user`, `profile`, `account`, `avatar`, `menu` or `user menu` gives nothing; any other value gives its trimmed text, which is non-empty and has no outer whitespace |
| `Account.NormalizedIdempotent` | Sources/Glitcho/ContentView.swift:378-387 | normalizing a normalized value returns it unchanged |
| `Account.NormalizedIgnoresPadding` | Sources/Glitcho/ContentView.swift:379-380 | whitespace around a value does not change what it normalizes to |
| `Account.DisplayName` | Sources/Glitcho/ContentView.swift:264 | the display name is the normalized profile name, else the normalized login, else "Profile" when signed in and "Not signed in" otherwise; it is never empty |
| `Account.Subtitle` | Sources/Glitcho/ContentView.swift:265-271 | "Sign in to continue" when signed out; when signed in, "@" followed by the normalized login if there is one, else "Account" |
| `Account.LoginOnlyAccount` | Sources/Glitcho/ContentView.swift:264-271 | with only a usable login, the display name is the trimmed login and the subtitle is that same login after "@" |
| `Account.SignedOutFallbacks` | Sources/Glitcho/ContentView.swift:264-271 | signed out and with no usable scraped name, the labels are "Not signed in" and "Sign in to continue" |
| `MainWindow.LastPathComponent` | Sources/Glitcho/ContentView.swift:210 | the channel name taken from a followed channel's URL path is a single component with no '/' (or "/" for a root path), and is non-empty for any non-empty path |
| `MainWindow.ChannelPageName` | Sources/Glitcho/ContentView.swift:207-211 | the channel page `…/name`, with or without a final '/', selects the channel `name` |
| `MainWindow.ContentView.constructor` | Sources/Glitcho/ContentView.swift:8-10 | the window starts with no channel, the native player off, and the web view in the detail pane |
| `MainWindow.ContentView.Detail` | Sources/Glitcho/ContentView.swift:29-35 | the detail pane shows the native player iff `useNativePlayer` is set and there is a current channel, and the player gets that channel and the current player identity; otherwise it shows the web view |
| `MainWindow.ContentView.NewPlayerID` | Sources/Glitcho/ContentView.swift:24 | `UUID()` hands out a value different from the current player identity |
| `MainWindow.ContentView.SelectChannel` | Sources/Glitcho/ContentView.swift:21-25 | selecting a channel makes it current, turns the native player on, and gives the player an identity different from the previous one, so the pane shows that channel in a new player |
| `MainWindow.ContentView.SelectFollowedChannel` | Sources/Glitcho/ContentView.swift:207-211 | a followed-channel row selects the last path component of the channel's URL |
| `MainWindow.ContentView.SwitchRequestChanged` | Sources/Glitcho/ContentView.swift:41-51 | a switch request that names a channel selects it as the sidebar does; a cleared request changes nothing |
| `MainWindow.ReselectRebuildsPlayer` | Sources/Glitcho/ContentView.swift:21-25 | selecting the same channel twice gives two different player identities |
| `Text.TrimDecomposition` | Sources/Glitcho/ContentView.swift:380 | the text is its trimming with whitespace on either side: trimming removes outer whitespace and nothing else |
| `Text.TrimIdempotent` | Sources/Glitcho/ContentView.swift:380 | trimming a trimmed text changes nothing |
| `Text.JoinSplit` | Scripts/proxy_server.py:55-78 | joining the pieces of `split('\n')` with `'\n'` gives back the text |
| `Text.SplitJoin` | Scripts/proxy_server.py:55-78 | splitting a join of one or more lines that have no line feed gives back those lines |

## Left out

- Subprocess plumbing: `Process.run`, `waitUntilExit`, pipes, the global dispatch queue and the checked continuation are left out. A run is a parameter that maps the argument list to how the process ended. The `print` logging of `getStreamURL` (StreamlinkPlayer.swift:41, 46, 54) is left out, because it has no effect on the result. The continuation is resumed exactly once per run, and the model captures this only by `Classify` being a function with one result. The executable path is kept as a constant only.
- `URL(string:)` is Foundation's parser. It is the parameter `parses`, and the URL is represented by its text.
- Concurrency: `Task`, `MainActor.run`, the `.task` and `.onChange` triggers that start loads, and the 0.1 s delayed reset of the switch request (ContentView.swift:47-49) are left out. Each `loadStream` is an atomic start step and an atomic completion step, and any interleaving of them can be written as calls.
- AVPlayer, AVPlayerView and NotificationCenter are foreign. The player is reduced to a position and a playing flag. AVPlayer stopping at the end of an item is folded into `DidPlayToEnd`. A view records only the URL of its on-screen player (`playerURL`), not the `NativeVideoPlayer` object, so SwiftUI calling `updateNSView` after `isPlaying` changes is not one step.
- Players are never released. There is no `dismantleNSView`, and the end-of-item observer (StreamlinkPlayer.swift:87-96) is never removed, so it keeps its AVPlayer alive. A player dropped by a reload or by a `.id(playerID)` rebuild may therefore go on playing. Nothing was run to confirm this, and the model does not track dropped players.
- SwiftUI view identity: `.id(playerID)` rebuilding `HybridTwitchView` is represented only by the fresh identity. `UUID()` randomness is a counter that never repeats.
- Alert presentation: SwiftUI closing the alert when any of its buttons is pressed is modelled explicitly in `Retry` and `DismissAlert`.
- Unicode: trimming (`.whitespacesAndNewlines`, Python `strip`) and case mapping (`lowercased()`, `lower()`, `capitalize()`) are ASCII approximations. Whitespace is space, tab, LF, CR, VT and FF, and only A–Z change case. Python's `str.strip` also strips `\x1c`–`\x1f` and the non-ASCII whitespace. So a line made only of those characters is blank to the proxy, but `PlaylistFilter.IsUriLine` takes it for a segment line.
- Proxy networking is left out: `urlopen`, the response headers and `Content-Length`, the 502 path for fetch errors, `TCPServer`/`serve_forever`, `log_message` and all printed logs. Bodies are text. The UTF-8 decode of a playlist body, and the 502 reply when it fails, are not modelled.
- `Resolver.ResolverProcess.Terminate`: only sending SIGTERM is modelled. Whether and when the process exits is not.
- `ProxyRouting.CopyFrom`: the `Host` header that urllib adds itself is left out.
- `StreamlinkManager.streamURL` is published, but nothing in the source writes it after its declaration or reads it. The model keeps the field, and every view method states that it is unchanged.
- `WebViewStore` (profile scraping, the followed-channel list, `shouldSwitchToNativePlayer`, `navigate`, `logout`) is not part of this model. Its values are inputs. `LastPathComponent` takes the URL's path, and URL parsing is left out.
- Web views and injected scripts are left out: `TwitchChatView`, `ChannelInfoView`, `ChannelPageWebView`, `PopupWebViewContainer`, `WebViewContainer` and the CSS/JavaScript strings. They are a foreign runtime and cosmetic.
- SwiftUI layout and styling, `TwitchDestination`, `App.swift` and the search percent-encoding (ContentView.swift:174) are left out. They are UI or a Foundation call.
- Scripts/generate_icon.py is floating-point image drawing with no stateable logic.
