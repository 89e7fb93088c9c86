/**
 * The native playback views of Sources/Glitcho/StreamlinkPlayer.swift:
 * `NativeVideoPlayer` (the AVPlayer wrapper), and the load state machines
 * of `StreamlinkPlayerView` and `HybridTwitchView`.
 *
 * Each `loadStream` is an atomic start step (before the `await`) and an
 * atomic completion step (the `MainActor.run` block). Nothing ties a
 * completion to the start that caused it: when loads overlap, whichever
 * completes last decides the state.
 *
 * `playerURL` is the URL of the AVPlayer on screen. SwiftUI calls
 * `makeNSView` when the `if let url = streamURL` branch is entered and only
 * `updateNSView` while it stays, and `updateNSView` never looks at `url`:
 * a new URL replacing an old one leaves the old stream playing.
 */
module PlayerViews {
  import opened Wrappers
  import opened Resolver

  /** What the player area of a view shows. */
  datatype Phase = Player(url: Url) | Loading | Prompt

  /** The `body` branch: a URL wins over loading, loading over the load prompt. */
  function PhaseOf(streamURL: Option<Url>, isLoading: bool): (p: Phase)
    ensures p.Player? <==> streamURL.Some?
    ensures p.Player? ==> p.url == streamURL.value
    ensures p.Loading? <==> streamURL.None? && isLoading
    ensures p.Prompt? <==> streamURL.None? && !isLoading
  {
    match streamURL
    case Some(url) => Player(url)
    case None => if isLoading then Loading else Prompt
  }

  /**
   * The URL of the AVPlayer on screen after `streamURL` goes from `before`
   * to `after`: a player is built when the player branch is entered, torn
   * down when it is left, and kept, with its first URL, while it stays.
   */
  function PlayerAfter(before: Option<Url>, player: Option<Url>, after: Option<Url>): (r: Option<Url>)
    requires player.Some? <==> before.Some?
    ensures r.Some? <==> after.Some?
    ensures before.None? && after.Some? ==> r == after
    ensures before.Some? && after.Some? ==> r == player
  {
    if after.None? then None
    else if before.None? then after
    else player
  }

  /**
   * `NativeVideoPlayer`: an AVPlayer reduced to its playback position and
   * whether it is playing. `isPlaying` is the value of the view's binding
   * at the time of each call.
   */
  class NativeVideoPlayer {
    const url: Url
    var position: nat
    var playing: bool

    /** `makeNSView`: a player for `url` at the start, auto-playing if `isPlaying`. */
    constructor (url: Url, isPlaying: bool)
      ensures this.url == url && position == 0 && playing == isPlaying
    {
      this.url := url;
      position := 0;
      playing := isPlaying;
    }

    /** `updateNSView`: play when `isPlaying`, pause otherwise; the position stays. */
    method UpdateNSView(isPlaying: bool)
      modifies this
      ensures playing == isPlaying && position == old(position)
    {
      if isPlaying {
        playing := true;
      } else {
        playing := false;
      }
    }

    /**
     * End of the item: AVPlayer stops at the end, then the observer seeks
     * back to zero and resumes only if `isPlaying`.
     */
    method DidPlayToEnd(isPlaying: bool)
      modifies this
      ensures position == 0 && playing == isPlaying
    {
      playing := false;
      position := 0;
      if isPlaying {
        playing := true;
      }
    }
  }

  /** `StreamlinkPlayerView`: full-size native player with a load prompt. */
  class StreamlinkPlayerView {
    const channelName: string
    const streamlink: StreamlinkManager
    var streamURL: Option<Url>
    var isPlaying: bool
    var showError: bool
    var playerURL: Option<Url>       // the URL of the AVPlayer on screen, if any

    /** A player is on screen exactly while the view holds a URL. */
    predicate PlayerShown()
      reads this
    {
      playerURL.Some? <==> streamURL.Some?
    }

    constructor (channelName: string)
      ensures this.channelName == channelName && fresh(streamlink)
      ensures streamURL == None && isPlaying && !showError && playerURL == None
      ensures !streamlink.isLoading && streamlink.error == None && streamlink.process == None
      ensures Phase() == Prompt && PlayerShown()
    {
      this.channelName := channelName;
      streamlink := new StreamlinkManager();
      streamURL := None;
      isPlaying := true;
      showError := false;
      playerURL := None;
    }

    function Phase(): Phase
      reads this, streamlink
    {
      PhaseOf(streamURL, streamlink.isLoading)
    }

    /** The alert text: the stored error or a fixed fallback. */
    function AlertMessage(): (r: string)
      reads streamlink
      ensures streamlink.error.Some? ==> r == streamlink.error.value
      ensures streamlink.error.None? ==> r == "Impossible de charger le stream"
    {
      streamlink.error.GetOr("Impossible de charger le stream")
    }

    /** Start of `loadStream`: loading, and the old URL and its player are dropped. */
    method BeginLoad()
      requires PlayerShown()
      modifies this, streamlink
      ensures streamlink.streamURL == old(streamlink.streamURL)
      ensures streamlink.isLoading && streamURL == None && playerURL == None
      ensures Phase() == Loading && PlayerShown()
      ensures streamlink.error == old(streamlink.error) && streamlink.process == old(streamlink.process)
      ensures showError == old(showError) && isPlaying == old(isPlaying)
    {
      var before := streamURL;
      streamlink.isLoading := true;
      streamURL := None;
      playerURL := PlayerAfter(before, playerURL, streamURL);
    }

    /**
     * End of `loadStream`: the URL on success, the error and the alert on
     * failure. A success while a player is already on screen (a second
     * completion) changes `streamURL` but not the stream that plays.
     */
    method CompleteLoad(result: ResolveResult)
      requires PlayerShown()
      modifies this, streamlink
      ensures streamlink.streamURL == old(streamlink.streamURL)
      ensures !streamlink.isLoading && PlayerShown()
      ensures result.Resolved? ==>
                streamURL == Some(result.url) && streamlink.error == old(streamlink.error)
                && showError == old(showError) && Phase() == Player(result.url)
                && playerURL == (if old(streamURL).None? then Some(result.url) else old(playerURL))
      ensures result.Failed? ==>
                streamURL == old(streamURL) && playerURL == old(playerURL) && showError
                && streamlink.error == Some(result.error.Description())
                && AlertMessage() == result.error.Description()
      ensures streamlink.process == old(streamlink.process) && isPlaying == old(isPlaying)
    {
      var before := streamURL;
      match result {
        case Resolved(url) =>
          streamURL := Some(url);
          playerURL := PlayerAfter(before, playerURL, streamURL);
          streamlink.isLoading := false;
        case Failed(error) =>
          streamlink.error := Some(error.Description());
          streamlink.isLoading := false;
          showError := true;
      }
    }

    /** `loadStream` when no other load overlaps it. */
    method LoadStream(run: seq<string> -> ProcessOutcome, parses: string -> bool)
      requires PlayerShown()
      modifies this, streamlink
      ensures streamlink.streamURL == old(streamlink.streamURL)
      ensures var result := Classify(run(ResolverArguments(channelName, DefaultQuality)), parses);
              && !streamlink.isLoading && PlayerShown()
              && (result.Resolved? ==>
                    streamURL == Some(result.url) && playerURL == Some(result.url)
                    && showError == old(showError) && streamlink.error == old(streamlink.error))
              && (result.Failed? ==>
                    streamURL == None && playerURL == None && showError
                    && streamlink.error == Some(result.error.Description()))
      ensures streamlink.process == old(streamlink.process) && isPlaying == old(isPlaying)
    {
      BeginLoad();
      var result := streamlink.GetStreamURL(channelName, DefaultQuality, run, parses);
      CompleteLoad(result);
    }

    /** The play/pause button. */
    method TogglePlaying()
      modifies this
      ensures isPlaying == !old(isPlaying)
      ensures streamURL == old(streamURL) && showError == old(showError) && playerURL == old(playerURL)
    {
      isPlaying := !isPlaying;
    }

    /** The alert's cancel button. */
    method DismissAlert()
      modifies this
      ensures !showError
      ensures streamURL == old(streamURL) && isPlaying == old(isPlaying) && playerURL == old(playerURL)
    {
      showError := false;
    }

    /** The alert's retry button: the alert closes and the stream loads again. */
    method Retry(run: seq<string> -> ProcessOutcome, parses: string -> bool)
      requires PlayerShown()
      modifies this, streamlink
      ensures streamlink.streamURL == old(streamlink.streamURL)
      ensures var result := Classify(run(ResolverArguments(channelName, DefaultQuality)), parses);
              && !streamlink.isLoading && PlayerShown()
              && (result.Resolved? ==>
                    streamURL == Some(result.url) && playerURL == Some(result.url)
                    && !showError && streamlink.error == old(streamlink.error))
              && (result.Failed? ==>
                    streamURL == None && showError
                    && streamlink.error == Some(result.error.Description()))
      ensures streamlink.process == old(streamlink.process) && isPlaying == old(isPlaying)
    {
      DismissAlert();
      LoadStream(run, parses);
    }
  }

  /** `HybridTwitchView`: native player beside the chat panel. */
  class HybridTwitchView {
    const channelName: string
    const streamlink: StreamlinkManager
    var streamURL: Option<Url>
    var isPlaying: bool
    var showError: bool
    var showChat: bool
    var playerURL: Option<Url>       // the URL of the AVPlayer on screen, if any

    /** A player is on screen exactly while the view holds a URL. */
    predicate PlayerShown()
      reads this
    {
      playerURL.Some? <==> streamURL.Some?
    }

    constructor (channelName: string)
      ensures this.channelName == channelName && fresh(streamlink)
      ensures streamURL == None && isPlaying && !showError && showChat && playerURL == None
      ensures !streamlink.isLoading && streamlink.error == None && streamlink.process == None
      ensures Phase() == Prompt && PlayerShown()
    {
      this.channelName := channelName;
      streamlink := new StreamlinkManager();
      streamURL := None;
      isPlaying := true;
      showError := false;
      showChat := true;
      playerURL := None;
    }

    function Phase(): Phase
      reads this, streamlink
    {
      PhaseOf(streamURL, streamlink.isLoading)
    }

    /** The alert text: the stored error or a fixed fallback. */
    function AlertMessage(): (r: string)
      reads streamlink
      ensures streamlink.error.Some? ==> r == streamlink.error.value
      ensures streamlink.error.None? ==> r == "Erreur inconnue"
    {
      streamlink.error.GetOr("Erreur inconnue")
    }

    /** Start of `loadStream`: loading, but the current URL and player stay in place. */
    method BeginLoad()
      modifies streamlink
      ensures streamlink.streamURL == old(streamlink.streamURL)
      ensures streamlink.isLoading
      ensures old(streamURL).Some? ==> Phase() == Player(old(streamURL).value)
      ensures old(streamURL).None? ==> Phase() == Loading
      ensures streamlink.error == old(streamlink.error) && streamlink.process == old(streamlink.process)
    {
      streamlink.isLoading := true;
    }

    /**
     * End of `loadStream`: a new URL on success; on failure the old URL is
     * kept. A success while a player is on screen changes `streamURL` but
     * not the stream that plays.
     */
    method CompleteLoad(result: ResolveResult)
      requires PlayerShown()
      modifies this, streamlink
      ensures streamlink.streamURL == old(streamlink.streamURL)
      ensures !streamlink.isLoading && PlayerShown()
      ensures result.Resolved? ==>
                streamURL == Some(result.url) && streamlink.error == old(streamlink.error)
                && showError == old(showError)
                && playerURL == (if old(streamURL).None? then Some(result.url) else old(playerURL))
      ensures result.Failed? ==>
                streamURL == old(streamURL) && playerURL == old(playerURL) && showError
                && streamlink.error == Some(result.error.Description())
                && AlertMessage() == result.error.Description()
      ensures streamlink.process == old(streamlink.process)
      ensures isPlaying == old(isPlaying) && showChat == old(showChat)
    {
      var before := streamURL;
      match result {
        case Resolved(url) =>
          streamURL := Some(url);
          playerURL := PlayerAfter(before, playerURL, streamURL);
          streamlink.isLoading := false;
        case Failed(error) =>
          streamlink.error := Some(error.Description());
          streamlink.isLoading := false;
          showError := true;
      }
    }

    /** `loadStream` when no other load overlaps it. */
    method LoadStream(run: seq<string> -> ProcessOutcome, parses: string -> bool)
      requires PlayerShown()
      modifies this, streamlink
      ensures streamlink.streamURL == old(streamlink.streamURL)
      ensures var result := Classify(run(ResolverArguments(channelName, DefaultQuality)), parses);
              && !streamlink.isLoading && PlayerShown()
              && (result.Resolved? ==>
                    streamURL == Some(result.url) && showError == old(showError)
                    && streamlink.error == old(streamlink.error)
                    && playerURL == (if old(streamURL).None? then Some(result.url) else old(playerURL)))
              && (result.Failed? ==>
                    streamURL == old(streamURL) && playerURL == old(playerURL) && showError
                    && streamlink.error == Some(result.error.Description()))
      ensures streamlink.process == old(streamlink.process)
      ensures isPlaying == old(isPlaying) && showChat == old(showChat)
    {
      BeginLoad();
      var result := streamlink.GetStreamURL(channelName, DefaultQuality, run, parses);
      CompleteLoad(result);
    }

    /** The play/pause button. */
    method TogglePlaying()
      modifies this
      ensures isPlaying == !old(isPlaying)
      ensures streamURL == old(streamURL) && showChat == old(showChat) && showError == old(showError)
      ensures playerURL == old(playerURL)
    {
      isPlaying := !isPlaying;
    }

    /** The chat button. */
    method ToggleChat()
      modifies this
      ensures showChat == !old(showChat)
      ensures streamURL == old(streamURL) && isPlaying == old(isPlaying) && showError == old(showError)
      ensures playerURL == old(playerURL)
    {
      showChat := !showChat;
    }

    /** The alert's OK button. */
    method DismissAlert()
      modifies this
      ensures !showError
      ensures streamURL == old(streamURL) && isPlaying == old(isPlaying) && showChat == old(showChat)
      ensures playerURL == old(playerURL)
    {
      showError := false;
    }
  }

  /**
   * Two overlapping loads of a `StreamlinkPlayerView` whose first request
   * completes last: the view ends holding the older URL, while the player
   * built for the newer URL, which completed first, keeps playing.
   */
  method OverlappingLoadsLastCompletionWins(channel: string, older: Url, newer: Url)
    returns (view: StreamlinkPlayerView)
    ensures view.streamURL == Some(older) && view.Phase() == Player(older)
    ensures view.playerURL == Some(newer)
    ensures !view.streamlink.isLoading
  {
    view := new StreamlinkPlayerView(channel);
    view.BeginLoad();                      // first load starts
    view.BeginLoad();                      // a reload starts before it returns
    view.CompleteLoad(Resolved(newer));    // the reload returns first
    view.CompleteLoad(Resolved(older));    // the first load returns last
  }

  /** A `HybridTwitchView` keeps playing its stream when a reload fails. */
  method FailedReloadKeepsStream(channel: string, url: Url, error: ResolveError)
    returns (view: HybridTwitchView)
    ensures view.streamURL == Some(url) && view.Phase() == Player(url) && view.playerURL == Some(url)
    ensures view.showError && view.AlertMessage() == error.Description()
  {
    view := new HybridTwitchView(channel);
    view.BeginLoad();
    view.CompleteLoad(Resolved(url));
    view.BeginLoad();
    assert view.Phase() == Player(url);    // no spinner while reloading
    view.CompleteLoad(Failed(error));
  }

  /**
   * A successful reload of a `HybridTwitchView` stores the new URL, but the
   * player on screen is the one built for the first URL.
   */
  method SuccessfulReloadKeepsPlayer(channel: string, first: Url, second: Url)
    returns (view: HybridTwitchView)
    ensures view.streamURL == Some(second) && view.Phase() == Player(second)
    ensures view.playerURL == Some(first)
  {
    view := new HybridTwitchView(channel);
    view.BeginLoad();
    view.CompleteLoad(Resolved(first));
    view.BeginLoad();
    view.CompleteLoad(Resolved(second));
  }
}
