/** The HLS playlist rewriters of the transcoder, line by line. */
module PlaylistSpec {
  import opened Strings

  // ----- The variant playlist with detected segments -----

  /** What a playlist line becomes: init segments and data segments get the names of the detected files. */
  function MapLine(line: string): string {
    if Contains(line, "init.mp4") then line[..LastIndex(line, "init.mp4")] + "segment_init.mp4\""
    else if Contains(line, "seg_") then
      line[..LastIndex(line, "seg_")] + "segment_" + line[LastIndex(line, "seg_") + 4..]
    else line
  }

  function Rewrite(): string -> string {
    (line: string) => MapLine(line)
  }

  /**
    What a line becomes, by what stands around the file name: after the last "init.mp4" nothing is
    kept but a closing quote, so the line keeps its form exactly when that is what followed; a line
    with "seg_" and no "init.mp4" changes at its last "seg_" only; any other line stays.
   */
  ghost predicate LineRewritten(line: string, out: string) {
    && (forall u, v :: line == u + "init.mp4" + v && LastIndex(line, "init.mp4") == |u| ==>
          out == u + "segment_init.mp4\"" && (out == u + "segment_init.mp4" + v <==> v == "\""))
    && (forall u, v :: line == u + "seg_" + v && LastIndex(line, "seg_") == |u| && !Contains(line, "init.mp4") ==>
          out == u + "segment_" + v)
    && (!Contains(line, "init.mp4") && !Contains(line, "seg_") ==> out == line)
  }

  predicate IsTarget(line: string, name: string) {
    !Contains(line, "init.mp4") && Contains(line, name)
  }

  /** The first line that names the segment; the number of lines if there is none. */
  function FirstTarget(lines: seq<string>, name: string): (t: nat)
    ensures t <= |lines|
    ensures forall i | 0 <= i < t :: !IsTarget(lines[i], name)
    ensures t < |lines| ==> IsTarget(lines[t], name)
  {
    if lines == [] then 0
    else if IsTarget(lines[0], name) then 0
    else 1 + FirstTarget(lines[1..], name)
  }

  function BaseName(path: string): string {
    path[LastIndex(path, "/") + 1..]
  }

  /** The name under which executeDetectionJob stores a detected segment. */
  function RenamedSegment(path: string): string
    requires Contains(path, "seg_") && Contains(path, "_")
    requires LastIndex(path, "seg_") <= LastIndex(path, "_")
  {
    path[..LastIndex(path, "seg_")] + "segment_" + path[LastIndex(path, "_") + 1..]
  }

  // ----- The master playlist without the detection rendition -----

  const STREAM_INF := "EXT-X-STREAM-INF"

  predicate IsStreamInf(line: string) {
    Contains(line, STREAM_INF)
  }

  function Unlines(lines: seq<string>): string {
    if lines == [] then "" else lines[0] + "\n" + Unlines(lines[1..])
  }

  /** Position of the first newline, the length if there is none. */
  function LineEnd(s: string): (i: nat)
    ensures i <= |s| && (forall k | 0 <= k < i :: s[k] != '\n') && (i < |s| ==> s[i] == '\n')
  {
    if s == "" then 0 else if s[0] == '\n' then 0 else 1 + LineEnd(s[1..])
  }

  function DropCR(line: string): string {
    if line != "" && line[|line| - 1] == '\r' then line[..|line| - 1] else line
  }

  /** The lines of a file as bufio.ScanLines splits them. */
  function ScanLines(s: string): seq<string>
    decreases |s|
  {
    if s == "" then []
    else
      var i := LineEnd(s);
      [DropCR(s[..i])] + (if i < |s| then ScanLines(s[i + 1..]) else [])
  }

  /**
    The bytes the code writes for the remaining lines. prev is its prev_line, which keeps a tag
    line after the tag's URI and grows by a newline each time it is written.
   */
  function Emit(lines: seq<string>, prev: string, bitrate: string): string {
    if lines == [] then ""
    else if IsStreamInf(lines[0]) then Emit(lines[1..], lines[0], bitrate)
    else if IsStreamInf(prev) then
      if Contains(lines[0], bitrate) then Emit(lines[1..], prev, bitrate)
      else prev + "\n" + lines[0] + "\n" + Emit(lines[1..], prev + "\n", bitrate)
    else lines[0] + "\n" + Emit(lines[1..], lines[0] + "\n", bitrate)
  }

  /** The lines start with a tag and its URI, which section 4.3.4.2 of RFC 8216 puts on the next line. */
  predicate StartsWithPair(lines: seq<string>) {
    |lines| >= 2 && IsStreamInf(lines[0]) && !IsStreamInf(lines[1])
  }

  /** The playlist without exactly the pairs whose URI contains the bitrate. */
  function Filtered(lines: seq<string>, bitrate: string): seq<string>
    decreases |lines|
  {
    if lines == [] then []
    else if StartsWithPair(lines) then
      (if Contains(lines[1], bitrate) then [] else [lines[0], lines[1]]) + Filtered(lines[2..], bitrate)
    else [lines[0]] + Filtered(lines[1..], bitrate)
  }

  predicate OnlyPairs(lines: seq<string>)
    decreases |lines|
  {
    lines == [] || (StartsWithPair(lines) && OnlyPairs(lines[2..]))
  }

  /** Header lines, then nothing but tags and their URIs. */
  predicate HeaderThenPairs(lines: seq<string>) {
    lines == [] || if IsStreamInf(lines[0]) then OnlyPairs(lines) else HeaderThenPairs(lines[1..])
  }

  /**
    A tag t without a URI of its own comes before these lines, which are pairs that are removed
    and then a line that stays. The code writes that line after the last removed tag, and so
    gets it right when that tag is a copy of t.
   */
  predicate Rejoined(t: string, lines: seq<string>, bitrate: string)
    decreases |lines|
  {
    && |lines| >= 3 && StartsWithPair(lines) && Contains(lines[1], bitrate)
    && if IsStreamInf(lines[2]) then Rejoined(t, lines[2..], bitrate)
       else lines[0] == t && !Contains(lines[2], bitrate) && PairsOrRejoined(lines[3..], bitrate)
  }

  predicate PairsOrRejoined(lines: seq<string>, bitrate: string)
    decreases |lines|
  {
    || lines == []
    || (StartsWithPair(lines) && PairsOrRejoined(lines[2..], bitrate))
    || (|lines| >= 2 && IsStreamInf(lines[0]) && IsStreamInf(lines[1]) && Rejoined(lines[0], lines[1..], bitrate))
  }

  /** The playlists the code filters correctly. */
  predicate Filterable(lines: seq<string>, bitrate: string) {
    lines == [] || if IsStreamInf(lines[0]) then PairsOrRejoined(lines, bitrate) else Filterable(lines[1..], bitrate)
  }
}

module PlaylistApp {
  import opened Sequences
  import opened Strings
  import opened PlaylistSpec
  import PlaylistProofs

  /**
    updatePlaylistNewDetectedSegment over the scanned lines. The code slices the line that names
    the segment at its last "seg_", so that line must contain one, as it does when the name does.
   */
  method UpdatePlaylistNewDetectedSegment(lines: seq<string>, originalPath: string)
    returns (found: bool, out: seq<string>)
    requires var t := FirstTarget(lines, BaseName(originalPath)); t < |lines| ==> Contains(lines[t], "seg_")
    ensures var t := FirstTarget(lines, BaseName(originalPath));
            found == (t < |lines|) && out == Map(lines[..if found then t + 1 else t], Rewrite())
    ensures found <==> exists i | 0 <= i < |lines| ::
              !Contains(lines[i], "init.mp4") && Contains(lines[i], BaseName(originalPath))
    ensures |out| <= |lines| && (!found ==> |out| == |lines|)
    ensures found ==> out != [] && Contains(lines[|out| - 1], BaseName(originalPath))
    ensures forall i | 0 <= i < |out| :: LineRewritten(lines[i], out[i])
  {
    var name := originalPath[LastIndex(originalPath, "/") + 1..];
    found, out := RewriteLines(lines, name);
    MapRewrites(lines, |out|, out);
    TargetFacts(lines, name);
  }

  /** The loop over the lines, name being the file name of the segment. */
  method RewriteLines(lines: seq<string>, name: string) returns (found: bool, out: seq<string>)
    requires var t := FirstTarget(lines, name); t < |lines| ==> Contains(lines[t], "seg_")
    ensures var t := FirstTarget(lines, name);
            found == (t < |lines|) && out == Map(lines[..if found then t + 1 else t], Rewrite())
  {
    found, out := false, [];
    var i := 0;
    while i < |lines|
      invariant i <= |lines| && !found
      invariant forall k | 0 <= k < i :: !IsTarget(lines[k], name)
      invariant out == Map(lines[..i], Rewrite())
    {
      var line := lines[i];
      PrefixPush(lines, i);
      if Contains(line, "init.mp4") {
        line := NameDetectedInit(line);
        out := out + [line];
        i := i + 1;
        continue;
      }
      if Contains(line, name) {
        assert i == FirstTarget(lines, name);
        found := true;
        line := NameDetectedSegment(line);
        out := out + [line];
        break;
      }
      if Contains(line, "seg_") {
        line := NameDetectedSegment(line);
      }
      out := out + [line];
      i := i + 1;
    }
    assert i == FirstTarget(lines, name);
  }

  method NameDetectedInit(line: string) returns (r: string)
    requires Contains(line, "init.mp4")
    ensures r == MapLine(line)
  {
    r := line[..LastIndex(line, "init.mp4")] + "segment_init.mp4\"";
  }

  lemma TargetFacts(lines: seq<string>, name: string)
    ensures var t := FirstTarget(lines, name);
            && (t < |lines| <==>
                  exists i | 0 <= i < |lines| :: !Contains(lines[i], "init.mp4") && Contains(lines[i], name))
            && (t < |lines| ==> Contains(lines[t], name))
  {
    if i :| 0 <= i < |lines| && !Contains(lines[i], "init.mp4") && Contains(lines[i], name) {
      assert IsTarget(lines[i], name);
    }
  }

  lemma MapRewrites(lines: seq<string>, n: nat, out: seq<string>)
    requires n <= |lines| && out == Map(lines[..n], Rewrite())
    ensures forall k | 0 <= k < n :: LineRewritten(lines[k], out[k])
  {
    forall k | 0 <= k < n ensures LineRewritten(lines[k], out[k]) {
      MapLineRewrites(lines[k]);
      assert out[k] == MapLine(lines[k]);
    }
  }

  lemma MapLineRewrites(line: string)
    ensures LineRewritten(line, MapLine(line))
  {
    var out := MapLine(line);
    forall u, v | line == u + "init.mp4" + v && LastIndex(line, "init.mp4") == |u|
      ensures out == u + "segment_init.mp4\"" && (out == u + "segment_init.mp4" + v <==> v == "\"")
    {
      InitLine(u, v, out);
    }
    forall u, v | line == u + "seg_" + v && LastIndex(line, "seg_") == |u| && !Contains(line, "init.mp4")
      ensures out == u + "segment_" + v
    {
      assert line[..|u|] == u && line[|u| + 4..] == v;
    }
  }

  lemma InitLine(u: string, v: string, out: string)
    requires LastIndex(u + "init.mp4" + v, "init.mp4") == |u| && out == MapLine(u + "init.mp4" + v)
    ensures out == u + "segment_init.mp4\"" && (out == u + "segment_init.mp4" + v <==> v == "\"")
  {
    var line := u + "init.mp4" + v;
    assert line[..|u|] == u;
    if out == u + "segment_init.mp4" + v {
      assert (u + "segment_init.mp4" + v)[|u| + 16..] == v && (u + "segment_init.mp4\"")[|u| + 16..] == "\"";
    }
  }

  method NameDetectedSegment(line: string) returns (r: string)
    requires Contains(line, "seg_") && !Contains(line, "init.mp4")
    ensures r == MapLine(line)
  {
    var pos := LastIndex(line, "seg_");
    r := line[..pos] + "segment_" + line[pos + 4..];
  }

  lemma PrefixPush(lines: seq<string>, i: nat)
    requires i < |lines|
    ensures Map(lines[..i + 1], Rewrite()) == Map(lines[..i], Rewrite()) + [MapLine(lines[i])]
  {
    assert lines[..i + 1] == lines[..i] + [lines[i]];
    MapPush(lines[..i], lines[i], Rewrite());
  }

  /** removeDetectionTargetRendition from the bytes of the playlist file to the bytes written back. */
  method RemoveDetectionTargetRendition(file: string, bitrate: string) returns (out: string)
    ensures out == Emit(ScanLines(file), "", bitrate)
    ensures HeaderThenPairs(ScanLines(file)) ==> out == Unlines(Filtered(ScanLines(file), bitrate))
    ensures out == Unlines(Filtered(ScanLines(file), bitrate)) <==> Filterable(ScanLines(file), bitrate)
  {
    var lines := ScanLines(file);
    out := "";
    var prevLine := "";
    for i := 0 to |lines|
      invariant out + Emit(lines[i..], prevLine, bitrate) == Emit(lines, "", bitrate)
    {
      var line := lines[i];
      assert lines[i..][0] == line && lines[i..][1..] == lines[i + 1..];
      ghost var before, rest := out, Emit(lines[i..], prevLine, bitrate);
      if Contains(line, STREAM_INF) {
        prevLine := line;
        continue;
      }
      if Contains(prevLine, STREAM_INF) {
        if !Contains(line, bitrate) {
          prevLine := prevLine + "\n";
          line := line + "\n";
          out := out + prevLine;
          out := out + line;
          assert out + Emit(lines[i + 1..], prevLine, bitrate) == before + rest;
        }
        continue;
      }
      line := line + "\n";
      out := out + line;
      prevLine := line;
      assert out + Emit(lines[i + 1..], prevLine, bitrate) == before + rest;
    }
    assert lines[|lines|..] == [];
    PlaylistProofs.ScannedHaveNoNewline(file);
    PlaylistProofs.RemovalFilters(lines, "", bitrate);
    PlaylistProofs.HeaderThenPairsFilterable(lines, bitrate);
  }
}
