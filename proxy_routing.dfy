/**
 * The request routing of the local ad-blocking proxy
 * (`TwitchProxyHandler.do_GET` in Scripts/proxy_server.py): which request
 * paths are fetched, which responses are passed through the playlist
 * filter, and which request headers are copied onto the upstream request.
 */
module ProxyRouting {
  import opened Text
  import opened PlaylistFilter

  /** Headers that belong to the client's hop and are not copied upstream. */
  const HopHeaders: seq<string> := ["host", "connection"]

  datatype Route =
    | Reject(status: int, reason: string)      // answered with an error, nothing fetched
    | Fetch(target: string, filter: bool)      // fetched; `filter` when the body is a playlist

  /** The path must be an absolute `http…` URL; anything else is a bad request. */
  function RouteFor(path: string): (r: Route)
    ensures r.Reject? <==> !StartsWith(path, "http")
    ensures r.Reject? ==> r == Reject(400, "Bad Request")
    ensures r.Fetch? ==> r.target == path && (r.filter <==> Contains(path, ".m3u8"))
  {
    if StartsWith(path, "http") then Fetch(path, Contains(path, ".m3u8"))
    else Reject(400, "Bad Request")
  }

  /** The body sent back for a fetched `target`: playlists are filtered, the rest is passed on. */
  function ResponseBody(target: string, upstream: string): (body: string)
    ensures !Contains(target, ".m3u8") ==> body == upstream
    ensures Contains(target, ".m3u8") ==> body == Filtered(upstream)
  {
    if Contains(target, ".m3u8") then Filtered(upstream) else upstream
  }

  /** A playlist without ad markers, or any other resource, reaches the client unchanged. */
  lemma CleanResponsesUnchanged(path: string, upstream: string)
    requires RouteFor(path).Fetch?
    requires NoMarkers(Split(upstream))
    ensures ResponseBody(RouteFor(path).target, upstream) == upstream
  {
    if Contains(path, ".m3u8") {
      FilteredCleanPlaylist(upstream);
    }
  }

  /** No ad marker line reaches the client in a playlist response. */
  lemma PlaylistResponsesCarryNoMarkers(path: string, upstream: string)
    requires RouteFor(path).Fetch? && RouteFor(path).filter
    ensures NoMarkers(Split(ResponseBody(path, upstream)))
  {
    var lines := FilterLines(Split(upstream), false);
    FilterRemovesMarkers(Split(upstream), false);
    if lines == [] {
      SplitSingle("");
      BlankIsNotMarker("");
    } else {
      FilterKeepsOnlyInputLines(Split(upstream), false);
      assert forall k | 0 <= k < |lines| :: NoNewline(lines[k]) by {
        forall k | 0 <= k < |lines| ensures NoNewline(lines[k]) {
          assert lines[k] in Split(upstream);
        }
      }
      SplitJoin(lines);
    }
  }

  /** `header.lower() not in ['host', 'connection']`. */
  predicate IsForwarded(name: string)
    ensures IsForwarded(name) <==> Lower(name) != "host" && Lower(name) != "connection"
  {
    Lower(name) !in HopHeaders
  }

  /**
   * The upstream request's header table after `add_header(name, value)`:
   * urllib stores the name capitalized, and a later value replaces an
   * earlier one under the same key.
   */
  function AddHeader(headers: map<string, string>, name: string, value: string): (r: map<string, string>)
    ensures r.Keys == headers.Keys + {Capitalize(name)}
    ensures r[Capitalize(name)] == value
    ensures forall key | key in headers && key != Capitalize(name) :: r[key] == headers[key]
  {
    headers[Capitalize(name) := value]
  }

  /** The header table after copying `incoming` in order onto `headers`. */
  function CopyFrom(headers: map<string, string>, incoming: seq<(string, string)>): map<string, string>
    decreases |incoming|
  {
    if incoming == [] then headers
    else
      var (name, value) := incoming[0];
      CopyFrom(if IsForwarded(name) then AddHeader(headers, name, value) else headers, incoming[1..])
  }

  /** The header-copy loop of `do_GET`, starting from an empty request. */
  method CopyHeaders(incoming: seq<(string, string)>) returns (headers: map<string, string>)
    ensures headers == CopyFrom(map[], incoming)
  {
    headers := map[];
    var i := 0;
    while i < |incoming|
      invariant 0 <= i <= |incoming|
      invariant CopyFrom(headers, incoming[i..]) == CopyFrom(map[], incoming)
    {
      var (name, value) := incoming[i];
      assert incoming[i..][1..] == incoming[i + 1..];
      if Lower(name) !in ["host", "connection"] {
        headers := AddHeader(headers, name, value);
      }
      i := i + 1;
    }
  }

  /**
   * A key is in the copied table exactly when it was there before or some
   * forwarded incoming header capitalizes to it.
   */
  lemma {:induction false} CopyFromKeys(headers: map<string, string>, incoming: seq<(string, string)>, key: string)
    ensures key in CopyFrom(headers, incoming) <==>
            key in headers || exists k | 0 <= k < |incoming| :: IsForwarded(incoming[k].0) && Capitalize(incoming[k].0) == key
    decreases |incoming|
  {
    if incoming != [] {
      var (name, value) := incoming[0];
      var next := if IsForwarded(name) then AddHeader(headers, name, value) else headers;
      CopyFromKeys(next, incoming[1..], key);
      if exists k | 0 <= k < |incoming[1..]| :: IsForwarded(incoming[1..][k].0) && Capitalize(incoming[1..][k].0) == key {
        var k :| 0 <= k < |incoming[1..]| && IsForwarded(incoming[1..][k].0) && Capitalize(incoming[1..][k].0) == key;
        assert incoming[k + 1] == incoming[1..][k];
      }
      if exists k | 0 <= k < |incoming| :: IsForwarded(incoming[k].0) && Capitalize(incoming[k].0) == key {
        var k :| 0 <= k < |incoming| && IsForwarded(incoming[k].0) && Capitalize(incoming[k].0) == key;
        if k > 0 { assert incoming[1..][k - 1] == incoming[k]; }
      }
    }
  }

  /** Neither `Host` nor `Connection`, in any spelling, is copied upstream. */
  lemma HopHeadersNotCopied(incoming: seq<(string, string)>)
    ensures forall key | key in CopyFrom(map[], incoming) :: Lower(key) !in HopHeaders
  {
    forall key | key in CopyFrom(map[], incoming) ensures Lower(key) !in HopHeaders {
      CopyFromKeys(map[], incoming, key);
      var k :| 0 <= k < |incoming| && IsForwarded(incoming[k].0) && Capitalize(incoming[k].0) == key;
      LowerOfCapitalize(incoming[k].0);
    }
  }

  /** No forwarded header after position `k` has the same capitalized name as `incoming[k]`. */
  predicate LastOfItsName(incoming: seq<(string, string)>, k: int)
    requires 0 <= k < |incoming|
  {
    forall j | k < j < |incoming| ::
      !IsForwarded(incoming[j].0) || Capitalize(incoming[j].0) != Capitalize(incoming[k].0)
  }

  /** An entry that no forwarded incoming header overwrites keeps its value. */
  lemma {:induction false} CopyFromKeeps(headers: map<string, string>, incoming: seq<(string, string)>, key: string)
    requires key in headers
    requires forall j | 0 <= j < |incoming| :: !IsForwarded(incoming[j].0) || Capitalize(incoming[j].0) != key
    ensures key in CopyFrom(headers, incoming) && CopyFrom(headers, incoming)[key] == headers[key]
    decreases |incoming|
  {
    if incoming != [] {
      var (name, value) := incoming[0];
      var next := if IsForwarded(name) then AddHeader(headers, name, value) else headers;
      assert forall j | 0 <= j < |incoming[1..]| :: incoming[1..][j] == incoming[j + 1];
      CopyFromKeeps(next, incoming[1..], key);
    }
  }

  /** The last forwarded header of a name decides the value stored under it. */
  lemma {:induction false} CopyFromValue(headers: map<string, string>, incoming: seq<(string, string)>, k: int)
    requires 0 <= k < |incoming| && IsForwarded(incoming[k].0) && LastOfItsName(incoming, k)
    ensures Capitalize(incoming[k].0) in CopyFrom(headers, incoming)
            && CopyFrom(headers, incoming)[Capitalize(incoming[k].0)] == incoming[k].1
    decreases |incoming|
  {
    var (name, value) := incoming[0];
    var next := if IsForwarded(name) then AddHeader(headers, name, value) else headers;
    assert forall j | 0 <= j < |incoming[1..]| :: incoming[1..][j] == incoming[j + 1];
    if k == 0 {
      CopyFromKeeps(next, incoming[1..], Capitalize(name));
    } else {
      assert incoming[1..][k - 1] == incoming[k];
      CopyFromValue(next, incoming[1..], k - 1);
    }
  }

  /**
   * Every other incoming header is copied under its capitalized name, and
   * the value stored is that of the last forwarded header of that name.
   */
  lemma OtherHeadersCopied(incoming: seq<(string, string)>)
    ensures forall k | 0 <= k < |incoming| && IsForwarded(incoming[k].0) ::
              Capitalize(incoming[k].0) in CopyFrom(map[], incoming)
    ensures forall k | 0 <= k < |incoming| && IsForwarded(incoming[k].0) && LastOfItsName(incoming, k) ::
              Capitalize(incoming[k].0) in CopyFrom(map[], incoming)
              && CopyFrom(map[], incoming)[Capitalize(incoming[k].0)] == incoming[k].1
  {
    forall k | 0 <= k < |incoming| && IsForwarded(incoming[k].0)
      ensures Capitalize(incoming[k].0) in CopyFrom(map[], incoming)
    {
      CopyFromKeys(map[], incoming, Capitalize(incoming[k].0));
    }
    forall k | 0 <= k < |incoming| && IsForwarded(incoming[k].0) && LastOfItsName(incoming, k)
      ensures Capitalize(incoming[k].0) in CopyFrom(map[], incoming)
              && CopyFrom(map[], incoming)[Capitalize(incoming[k].0)] == incoming[k].1
    {
      CopyFromValue(map[], incoming, k);
    }
  }
}
