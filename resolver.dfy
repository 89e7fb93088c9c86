/**
 * Stream resolution through the external `streamlink` program
 * (`StreamlinkManager` in Sources/Glitcho/StreamlinkPlayer.swift).
 *
 * The subprocess itself is outside the model: `getStreamURL` is its fixed
 * argument list plus the classification of how the process ended. Swift's
 * `URL(string:)` is the parameter `parses`.
 */
module Resolver {
  import opened Wrappers
  import opened Text

  /** The text of a resolved stream URL. */
  type Url = string

  const ExecutablePath := "/opt/homebrew/bin/streamlink"
  const DefaultQuality := "best"
  /** Print the URL only, strip ads, ask for low latency; never configurable. */
  const FixedFlags: seq<string> := ["--stream-url", "--twitch-disable-ads", "--twitch-low-latency"]
  const ChannelPrefix := "twitch.tv/"

  newtype int32 = x: int | -0x8000_0000 <= x < 0x8000_0000

  /** How the resolver run ended, as seen by `getStreamURL`. */
  datatype ProcessOutcome =
      /** `process.run()` threw: the program could not be started. */
    | LaunchFailed(description: string)
      /** The program exited; `stdout` and `stderr` are `None` when not valid UTF-8. */
    | Exited(status: int32, stdout: Option<string>, stderr: Option<string>)

  datatype ResolveError =
      /** NSError in domain "StreamlinkError" carrying the exit status and stderr. */
    | StreamlinkError(code: int, message: string)
      /** The error thrown by `process.run()`. */
    | LaunchError(description: string)
  {
    /** `error.localizedDescription` as the views show it. */
    function Description(): (d: string)
      ensures StreamlinkError? ==> d == message
      ensures LaunchError? ==> d == description
    {
      match this
      case StreamlinkError(_, message) => message
      case LaunchError(description) => description
    }
  }

  datatype ResolveResult = Resolved(url: Url) | Failed(error: ResolveError)

  /** The command line passed to the resolver for `channel` at `quality`. */
  function ResolverArguments(channel: string, quality: string): (args: seq<string>)
    ensures |args| == 5 && args[0] == ChannelPrefix + channel && args[1] == quality
    ensures args[2..] == FixedFlags
  {
    [ChannelPrefix + channel, quality] + FixedFlags
  }

  /** Different requests give different command lines. */
  lemma ResolverArgumentsInjective(c1: string, q1: string, c2: string, q2: string)
    requires ResolverArguments(c1, q1) == ResolverArguments(c2, q2)
    ensures c1 == c2 && q1 == q2
  {
    var a1, a2 := ChannelPrefix + c1, ChannelPrefix + c2;
    assert a1 == a2;
    assert c1 == a1[|ChannelPrefix|..];
    assert c2 == a2[|ChannelPrefix|..];
  }

  /** Standard output decoded as UTF-8 and trimmed, or "" when it is not UTF-8. */
  function TrimmedOutput(stdout: Option<string>): (r: string)
    ensures NoOuterWhitespace(r)
    ensures stdout.Some? ==> r == Trim(stdout.value)
    ensures stdout.None? ==> r == ""
  {
    match stdout
    case Some(text) => Trim(text)
    case None => ""
  }

  /**
   * The value `getStreamURL` returns or throws for one run: a URL when the
   * program exited with status 0 and its trimmed output parses as a URL; the
   * launch error when it could not start; otherwise an error carrying the
   * exit status and the standard error text ("Unknown error" if not UTF-8).
   */
  function Classify(outcome: ProcessOutcome, parses: string -> bool): (r: ResolveResult)
    ensures r.Resolved? <==>
              outcome.Exited? && outcome.status == 0 && parses(TrimmedOutput(outcome.stdout))
    ensures r.Resolved? ==> r.url == TrimmedOutput(outcome.stdout) && parses(r.url) && NoOuterWhitespace(r.url)
    ensures outcome.LaunchFailed? ==> r == Failed(LaunchError(outcome.description))
    ensures outcome.Exited? && r.Failed? ==>
              r.error.StreamlinkError? && r.error.code == outcome.status as int
              && r.error.message == outcome.stderr.GetOr("Unknown error")
  {
    match outcome
    case LaunchFailed(description) => Failed(LaunchError(description))
    case Exited(status, stdout, stderr) =>
      var output := TrimmedOutput(stdout);
      if status == 0 && parses(output) then Resolved(output)
      else Failed(StreamlinkError(status as int, stderr.GetOr("Unknown error")))
  }

  /** A resolver that prints a URL and a line feed and exits 0 yields exactly that URL. */
  lemma PrintedUrlResolves(url: Url, stderr: Option<string>, parses: string -> bool)
    requires NoOuterWhitespace(url) && parses(url)
    ensures Classify(Exited(0, Some(url + "\n"), stderr), parses) == Resolved(url)
  {
    assert AllWhitespace("\n");
    assert "" + url + "\n" == url + "\n";
    TrimPadded("", url, "\n");
  }

  /** A non-zero exit is always an error, whatever the program printed. */
  lemma NonZeroExitFails(status: int32, stdout: Option<string>, stderr: string, parses: string -> bool)
    requires status != 0
    ensures Classify(Exited(status, stdout, Some(stderr)), parses) == Failed(StreamlinkError(status as int, stderr))
    ensures Classify(Exited(status, stdout, Some(stderr)), parses).error.Description() == stderr
  {
  }

  /**
   * A process started by the manager. `terminate()` only sends it SIGTERM,
   * so what is recorded is that the signal was sent, not that it exited.
   */
  class ResolverProcess {
    var signalled: bool

    constructor ()
      ensures !signalled
    {
      signalled := false;
    }

    method Terminate()
      modifies this
      ensures signalled
    {
      signalled := true;
    }
  }

  /** `StreamlinkManager`: the state the views publish, and the resolver call. */
  class StreamlinkManager {
    var isLoading: bool
    var error: Option<string>
    var streamURL: Option<Url>
    var process: Option<ResolverProcess>

    constructor ()
      ensures !isLoading && error == None && streamURL == None && process == None
    {
      isLoading := false;
      error := None;
      streamURL := None;
      process := None;
    }

    /**
     * `getStreamURL(for:quality:)`: runs the resolver (`run` maps a command
     * line to how the run ends) and classifies the outcome. It changes no
     * field: in particular the process it starts is a local, never stored
     * in `process`.
     */
    method GetStreamURL(channel: string, quality: string, run: seq<string> -> ProcessOutcome, parses: string -> bool)
      returns (result: ResolveResult)
      ensures result == Classify(run(ResolverArguments(channel, quality)), parses)
    {
      var outcome := run(ResolverArguments(channel, quality));
      result := Classify(outcome, parses);
    }

    /** `stopStream`: terminates the stored process, if any, and forgets it. */
    method StopStream()
      modifies this, if process.Some? then {process.value} else {}
      ensures process == None
      ensures old(process).Some? ==> old(process).value.signalled
      ensures isLoading == old(isLoading) && error == old(error) && streamURL == old(streamURL)
    {
      if process.Some? {
        process.value.Terminate();
      }
      process := None;
    }
  }
}
