/**
 * The ad-segment filter the local proxy applies to HLS media playlists
 * (`TwitchProxyHandler.filter_m3u8` in Scripts/proxy_server.py).
 *
 * A playlist is split into lines on '\n'. A line is an ad marker when it
 * carries the `#EXT-X-DATERANGE` tag (section 4.3.2.7 of RFC 8216) together
 * with one of the ad keywords; the marker is dropped and so is the next
 * media-segment URI line (a non-blank line that does not start with '#',
 * section 4.1 of RFC 8216). A tag line seen first cancels the pending skip;
 * blank lines neither are dropped nor cancel it.
 */
module PlaylistFilter {
  import opened Text

  const DateRangeTag := "#EXT-X-DATERANGE"
  const AdKeywords: seq<string> := ["stitched-ad", "AMAZON", "commercial", "AD-"]

  /** A date-range tag line that names an ad. */
  predicate IsAdMarker(line: string) {
    Contains(line, DateRangeTag) && exists k | 0 <= k < |AdKeywords| :: Contains(line, AdKeywords[k])
  }

  /** A tag or comment line: it starts with '#'. */
  predicate IsTagLine(line: string) {
    StartsWith(line, "#")
  }

  /** A media-segment URI line: not a tag line, and not blank once stripped. */
  predicate IsUriLine(line: string)
    ensures IsUriLine(line) <==> !IsTagLine(line) && !AllWhitespace(line)
  {
    TrimEmptyIffBlank(line);
    !IsTagLine(line) && Trim(line) != ""
  }

  /**
   * The lines the filter keeps from `lines`, starting with the pending-skip
   * flag `skip`; one step per loop iteration of the source.
   */
  function FilterLines(lines: seq<string>, skip: bool): seq<string>
    ensures |FilterLines(lines, skip)| <= |lines|
  {
    if lines == [] then []
    else
      var line := lines[0];
      if IsAdMarker(line) then FilterLines(lines[1..], true)
      else if skip && IsUriLine(line) then FilterLines(lines[1..], false)
      else [line] + FilterLines(lines[1..], skip && !IsTagLine(line))
  }

  /** The playlist text the proxy returns for `content`. */
  function Filtered(content: string): string {
    Join(FilterLines(Split(content), false))
  }

  /** `filter_m3u8`: one pass over the lines with a `skipNext` flag. */
  method FilterM3u8(content: string) returns (result: string)
    ensures result == Filtered(content)
  {
    var lines := Split(content);
    var filtered: seq<string> := [];
    var skipNext := false;
    var i := 0;
    while i < |lines|
      invariant 0 <= i <= |lines|
      invariant filtered + FilterLines(lines[i..], skipNext) == FilterLines(lines, false)
    {
      var line := lines[i];
      FilterStep(lines, i, skipNext);
      if IsAdMarker(line) {
        skipNext := true;
      } else if skipNext && IsUriLine(line) {
        skipNext := false;
      } else {
        var rest := FilterLines(lines[i + 1..], skipNext && !IsTagLine(line));
        AppendLine(filtered, line, rest);
        if IsTagLine(line) && skipNext {
          skipNext := false;
        }
        filtered := filtered + [line];
      }
      i := i + 1;
    }
    assert filtered + FilterLines([], skipNext) == filtered;
    result := Join(filtered);
  }

  lemma AppendLine(done: seq<string>, line: string, rest: seq<string>)
    ensures done + ([line] + rest) == (done + [line]) + rest
  {
  }

  /** One loop iteration: the filter of `lines[i..]` unfolded once. */
  lemma FilterStep(lines: seq<string>, i: nat, skip: bool)
    requires i < |lines|
    ensures FilterLines(lines[i..], skip) ==
            if IsAdMarker(lines[i]) then FilterLines(lines[i + 1..], true)
            else if skip && IsUriLine(lines[i]) then FilterLines(lines[i + 1..], false)
            else [lines[i]] + FilterLines(lines[i + 1..], skip && !IsTagLine(lines[i]))
  {
    assert lines[i..][0] == lines[i];
    assert lines[i..][1..] == lines[i + 1..];
  }

  // ---------------------------------------------------------------------
  // Properties
  // ---------------------------------------------------------------------

  /** `sub` is `s` with some elements left out, the rest in order. */
  predicate IsSubsequence(sub: seq<string>, s: seq<string>) {
    sub == [] || (s != [] && ((sub[0] == s[0] && IsSubsequence(sub[1..], s[1..])) || IsSubsequence(sub, s[1..])))
  }

  /** The output lines are a subsequence of the input lines. */
  lemma {:induction false} FilterIsSubsequence(lines: seq<string>, skip: bool)
    ensures IsSubsequence(FilterLines(lines, skip), lines)
  {
    if lines != [] {
      var line := lines[0];
      if IsAdMarker(line) {
        FilterIsSubsequence(lines[1..], true);
      } else if skip && IsUriLine(line) {
        FilterIsSubsequence(lines[1..], false);
      } else {
        var next := skip && !IsTagLine(line);
        FilterIsSubsequence(lines[1..], next);
        assert ([line] + FilterLines(lines[1..], next))[1..] == FilterLines(lines[1..], next);
      }
    }
  }

  /** Every output line is one of the input lines. */
  lemma {:induction false} FilterKeepsOnlyInputLines(lines: seq<string>, skip: bool)
    ensures forall l | l in FilterLines(lines, skip) :: l in lines
  {
    if lines != [] {
      var line := lines[0];
      var next := if IsAdMarker(line) then true
                  else if skip && IsUriLine(line) then false
                  else skip && !IsTagLine(line);
      FilterKeepsOnlyInputLines(lines[1..], next);
      assert forall l | l in lines[1..] :: l in lines;
    }
  }

  /** No ad marker survives the filter. */
  lemma {:induction false} FilterRemovesMarkers(lines: seq<string>, skip: bool)
    ensures forall k | 0 <= k < |FilterLines(lines, skip)| :: !IsAdMarker(FilterLines(lines, skip)[k])
  {
    if lines != [] {
      var line := lines[0];
      var next := if IsAdMarker(line) then true
                  else if skip && IsUriLine(line) then false
                  else skip && !IsTagLine(line);
      FilterRemovesMarkers(lines[1..], next);
    }
  }

  /** A blank line is never an ad marker. */
  lemma BlankIsNotMarker(line: string)
    requires AllWhitespace(line)
    ensures !IsAdMarker(line) && !IsTagLine(line) && !IsUriLine(line)
  {
    BlankContainsNoToken(line, DateRangeTag);
    TrimEmptyIffBlank(line);
  }

  /** Blank lines pass through and leave the pending-skip flag as it was. */
  lemma {:induction false} FilterBlanks(blanks: seq<string>, rest: seq<string>, skip: bool)
    requires forall k | 0 <= k < |blanks| :: AllWhitespace(blanks[k])
    ensures FilterLines(blanks + rest, skip) == blanks + FilterLines(rest, skip)
  {
    if blanks != [] {
      var b, tail := blanks[0], blanks[1..];
      assert blanks == [b] + tail;
      ConcatAssoc([b], tail, rest);
      BlankIsNotMarker(b);
      FilterCons(b, tail + rest, skip);
      forall k | 0 <= k < |tail| ensures AllWhitespace(tail[k]) {
        assert tail[k] == blanks[k + 1];
      }
      FilterBlanks(tail, rest, skip);
      ConcatAssoc([b], tail, FilterLines(rest, skip));
    } else {
      assert blanks + rest == rest;
    }
  }

  /** One step of the filter on a line in front of `rest`. */
  lemma FilterCons(line: string, rest: seq<string>, skip: bool)
    ensures FilterLines([line] + rest, skip) ==
            if IsAdMarker(line) then FilterLines(rest, true)
            else if skip && IsUriLine(line) then FilterLines(rest, false)
            else [line] + FilterLines(rest, skip && !IsTagLine(line))
  {
    assert ([line] + rest)[0] == line;
    assert ([line] + rest)[1..] == rest;
  }

  /**
   * After an ad marker and any blank lines, the next media-segment URI is
   * dropped and filtering goes on as at the start.
   */
  lemma MarkerDropsNextSegment(marker: string, blanks: seq<string>, uri: string, rest: seq<string>, skip: bool)
    requires IsAdMarker(marker) && IsUriLine(uri) && !IsAdMarker(uri)
    requires forall k | 0 <= k < |blanks| :: AllWhitespace(blanks[k])
    ensures FilterLines([marker] + blanks + [uri] + rest, skip) == blanks + FilterLines(rest, false)
  {
    ConcatAssoc([marker] + blanks, [uri], rest);
    ConcatAssoc([marker], blanks, [uri] + rest);
    FilterCons(marker, blanks + ([uri] + rest), skip);
    FilterBlanks(blanks, [uri] + rest, true);
    FilterCons(uri, rest, true);
  }

  /**
   * After an ad marker and any blank lines, a tag line that is not itself a
   * marker cancels the skip: it is kept and so is the line after it.
   */
  lemma MarkerSkipCancelledByTag(marker: string, blanks: seq<string>, tag: string, rest: seq<string>, skip: bool)
    requires IsAdMarker(marker) && IsTagLine(tag) && !IsAdMarker(tag)
    requires forall k | 0 <= k < |blanks| :: AllWhitespace(blanks[k])
    ensures FilterLines([marker] + blanks + [tag] + rest, skip) == blanks + [tag] + FilterLines(rest, false)
  {
    ConcatAssoc([marker] + blanks, [tag], rest);
    ConcatAssoc([marker], blanks, [tag] + rest);
    FilterCons(marker, blanks + ([tag] + rest), skip);
    FilterBlanks(blanks, [tag] + rest, true);
    FilterCons(tag, rest, true);
    ConcatAssoc(blanks, [tag], FilterLines(rest, false));
  }

  /** The lines the filter never drops: non-marker tag lines and blank lines. */
  predicate IsProtected(line: string) {
    !IsAdMarker(line) && (IsTagLine(line) || Trim(line) == "")
  }

  function ProtectedLines(lines: seq<string>): seq<string> {
    if lines == [] then []
    else if IsProtected(lines[0]) then [lines[0]] + ProtectedLines(lines[1..])
    else ProtectedLines(lines[1..])
  }

  /** Every non-marker tag line and every blank line is kept, in order. */
  lemma {:induction false} FilterKeepsProtected(lines: seq<string>, skip: bool)
    ensures ProtectedLines(FilterLines(lines, skip)) == ProtectedLines(lines)
  {
    if lines != [] {
      var line := lines[0];
      if IsAdMarker(line) {
        FilterKeepsProtected(lines[1..], true);
      } else if skip && IsUriLine(line) {
        FilterKeepsProtected(lines[1..], false);
      } else {
        var next := skip && !IsTagLine(line);
        FilterKeepsProtected(lines[1..], next);
        assert ([line] + FilterLines(lines[1..], next))[1..] == FilterLines(lines[1..], next);
      }
    }
  }

  predicate NoMarkers(lines: seq<string>) {
    forall k | 0 <= k < |lines| :: !IsAdMarker(lines[k])
  }

  /** Without ad markers and with no skip pending, every line is kept. */
  lemma {:induction false} FilterCleanLines(lines: seq<string>)
    requires NoMarkers(lines)
    ensures FilterLines(lines, false) == lines
  {
    if lines != [] {
      FilterCleanLines(lines[1..]);
    }
  }

  /** A playlist without ad markers comes back byte for byte. */
  lemma FilteredCleanPlaylist(content: string)
    requires NoMarkers(Split(content))
    ensures Filtered(content) == content
  {
    FilterCleanLines(Split(content));
    JoinSplit(content);
  }

  /** Filtering a filtered playlist changes nothing. */
  lemma FilteredIdempotent(content: string)
    ensures Filtered(Filtered(content)) == Filtered(content)
  {
    var kept := FilterLines(Split(content), false);
    FilterRemovesMarkers(Split(content), false);
    if kept == [] {
      assert Filtered(content) == "";
      assert Split("") == [""];
      BlankIsNotMarker("");
    } else {
      FilterKeepsOnlyInputLines(Split(content), false);
      forall k | 0 <= k < |kept| ensures NoNewline(kept[k]) {
        assert kept[k] in kept;
        var j :| 0 <= j < |Split(content)| && Split(content)[j] == kept[k];
      }
      SplitJoin(kept);
      FilterCleanLines(kept);
    }
  }

  function MarkerCount(lines: seq<string>): nat {
    if lines == [] then 0
    else (if IsAdMarker(lines[0]) then 1 else 0) + MarkerCount(lines[1..])
  }

  /** Each marker accounts for itself and at most one segment, plus a pending skip. */
  lemma {:induction false} FilterRemovalBoundFrom(lines: seq<string>, skip: bool)
    ensures |FilterLines(lines, skip)| <= |lines|
    ensures |lines| - |FilterLines(lines, skip)| <= 2 * MarkerCount(lines) + (if skip then 1 else 0)
  {
    if lines != [] {
      var line := lines[0];
      if IsAdMarker(line) {
        FilterRemovalBoundFrom(lines[1..], true);
      } else if skip && IsUriLine(line) {
        FilterRemovalBoundFrom(lines[1..], false);
      } else {
        FilterRemovalBoundFrom(lines[1..], skip && !IsTagLine(line));
      }
    }
  }

  /** The filter removes at most two lines per ad marker. */
  lemma FilterRemovalBound(lines: seq<string>)
    ensures |lines| - |FilterLines(lines, false)| <= 2 * MarkerCount(lines)
  {
    FilterRemovalBoundFrom(lines, false);
  }
}
