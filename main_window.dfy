/**
 * Channel selection in the main window (`ContentView` and the followed
 * channel rows of `Sidebar` in Sources/Glitcho/ContentView.swift).
 *
 * Selecting a channel switches the detail pane from the web view to the
 * native player and gives the player a fresh identity, so that SwiftUI
 * builds a new `HybridTwitchView`. `UUID()` is modelled by a counter that
 * never repeats a value.
 */
module MainWindow {
  import opened Wrappers

  /** What the detail pane shows. */
  datatype Detail = NativePlayer(channel: string, playerID: nat) | WebView

  // ---------------------------------------------------------------------
  // Channel name of a followed channel: `url.lastPathComponent`
  // ---------------------------------------------------------------------

  predicate NoSlash(s: string) {
    '/' !in s
  }

  /** `path` without its trailing '/' characters. */
  function DropTrailingSlashes(path: string): (r: string)
    ensures |r| <= |path| && r == path[..|r|]
    ensures r == [] || r[|r| - 1] != '/'
    ensures forall k | |r| <= k < |path| :: path[k] == '/'
  {
    if path != [] && path[|path| - 1] == '/' then DropTrailingSlashes(path[..|path| - 1]) else path
  }

  /** The text after the last '/' of `path` (all of it when there is none). */
  function AfterLastSlash(path: string): (r: string)
    ensures NoSlash(r)
    ensures |r| <= |path| && r == path[|path| - |r|..]
    ensures |r| < |path| ==> path[|path| - |r| - 1] == '/'
  {
    if path == [] || path[|path| - 1] == '/' then []
    else AfterLastSlash(path[..|path| - 1]) + [path[|path| - 1]]
  }

  /**
   * Foundation's `lastPathComponent` of a URL path: "" stays "", a path of
   * slashes only gives "/", otherwise trailing slashes are ignored and the
   * last component is returned.
   */
  function LastPathComponent(path: string): (r: string)
    ensures r == "/" || NoSlash(r)
    ensures path != [] ==> r != []
  {
    if path == [] then ""
    else
      var trimmed := DropTrailingSlashes(path);
      if trimmed == [] then "/" else AfterLastSlash(trimmed)
  }

  /** The channel page `…/name` (with or without a final '/') selects `name`. */
  lemma {:induction false} ChannelPageName(prefix: string, name: string, trailingSlash: bool)
    requires name != [] && NoSlash(name)
    ensures LastPathComponent(prefix + "/" + name + (if trailingSlash then "/" else "")) == name
  {
    var base := prefix + "/" + name;
    var path := base + (if trailingSlash then "/" else "");
    assert base[|base| - 1] == name[|name| - 1];
    assert name[|name| - 1] in name;
    if trailingSlash {
      assert path[..|path| - 1] == base;
    } else {
      assert path == base;
    }
    assert DropTrailingSlashes(path) == base;
    AfterLastSlashOf(prefix, name);
  }

  lemma {:induction false} AfterLastSlashOf(prefix: string, name: string)
    requires NoSlash(name)
    ensures AfterLastSlash(prefix + "/" + name) == name
    decreases |name|
  {
    var base := prefix + "/" + name;
    if name == [] {
      assert base[|base| - 1] == '/';
    } else {
      var last := name[|name| - 1];
      assert last in name;
      assert base[..|base| - 1] == prefix + "/" + name[..|name| - 1];
      assert NoSlash(name[..|name| - 1]) by {
        forall c | c in name[..|name| - 1] ensures c in name { }
      }
      AfterLastSlashOf(prefix, name[..|name| - 1]);
      assert name == name[..|name| - 1] + [last];
    }
  }

  // ---------------------------------------------------------------------
  // The window's selection state
  // ---------------------------------------------------------------------

  class ContentView {
    var currentChannel: Option<string>
    var useNativePlayer: bool
    var playerID: nat
    /** The next value `UUID()` hands out; every earlier one has been used. */
    var nextUUID: nat

    ghost predicate Valid()
      reads this
    {
      playerID < nextUUID
    }

    constructor ()
      ensures Valid()
      ensures currentChannel == None && !useNativePlayer
      ensures Detail() == WebView
    {
      currentChannel := None;
      useNativePlayer := false;
      playerID := 0;
      nextUUID := 1;
    }

    /** The detail pane: the native player for the current channel, else the web view. */
    function Detail(): (d: Detail)
      reads this
      ensures d.NativePlayer? <==> useNativePlayer && currentChannel.Some?
      ensures d.NativePlayer? ==> d.channel == currentChannel.value && d.playerID == playerID
    {
      if useNativePlayer && currentChannel.Some? then NativePlayer(currentChannel.value, playerID)
      else WebView
    }

    /** `UUID()`: a value never handed out before. */
    method NewPlayerID() returns (id: nat)
      requires Valid()
      modifies this
      ensures Valid()
      ensures id == old(nextUUID) && id > old(playerID)
      ensures nextUUID == id + 1
      ensures currentChannel == old(currentChannel) && useNativePlayer == old(useNativePlayer)
      ensures playerID == old(playerID)
    {
      id := nextUUID;
      nextUUID := nextUUID + 1;
    }

    /** `onChannelSelected`: show `channelName` in a freshly built native player. */
    method SelectChannel(channelName: string)
      requires Valid()
      modifies this
      ensures Valid()
      ensures currentChannel == Some(channelName) && useNativePlayer
      ensures playerID != old(playerID)
      ensures Detail() == NativePlayer(channelName, playerID)
    {
      currentChannel := Some(channelName);
      useNativePlayer := true;
      playerID := NewPlayerID();
    }

    /** A followed-channel row: the channel is the last component of its URL path. */
    method SelectFollowedChannel(urlPath: string)
      requires Valid()
      modifies this
      ensures Valid()
      ensures currentChannel == Some(LastPathComponent(urlPath)) && useNativePlayer
      ensures playerID != old(playerID)
    {
      SelectChannel(LastPathComponent(urlPath));
    }

    /**
     * `onChange(of: store.shouldSwitchToNativePlayer)`: a requested channel
     * is selected as from the sidebar; a cleared request changes nothing.
     */
    method SwitchRequestChanged(channelName: Option<string>)
      requires Valid()
      modifies this
      ensures Valid()
      ensures channelName.Some? ==>
                currentChannel == channelName && useNativePlayer && playerID != old(playerID)
      ensures channelName.None? ==>
                currentChannel == old(currentChannel) && useNativePlayer == old(useNativePlayer)
                && playerID == old(playerID)
    {
      if channelName.Some? {
        SelectChannel(channelName.value);
      }
    }
  }

  /** Selecting the same channel twice still builds a new player each time. */
  method ReselectRebuildsPlayer(channelName: string) returns (first: nat, second: nat)
    ensures first != second
  {
    var window := new ContentView();
    window.SelectChannel(channelName);
    first := window.playerID;
    window.SelectChannel(channelName);
    second := window.playerID;
  }
}
