/** Rewritten playlists only grow, name the files that are stored, and lose exactly one rendition. */
module PlaylistProofs {
  import opened Sequences
  import opened Strings
  import opened Paths
  import opened PlaylistSpec

  // ----- Later targets only append lines -----

  lemma ContainsTransitive(a: string, b: string, c: string)
    requires Contains(a, b) && Contains(b, c)
    ensures Contains(a, c)
  {
    var i :| 0 <= i <= |a| && MatchAt(a, b, i);
    var j :| 0 <= j <= |b| && MatchAt(b, c, j);
    forall k | 0 <= k < |c| ensures a[i + j + k] == c[k] {
      MatchAtIndex(a, b, i, j + k);
      MatchAtIndex(b, c, j, k);
    }
    MatchFromChars(a, c, i + j);
  }

  /** A line that names a segment with "seg_" in its name can be sliced there. */
  lemma TargetCanBeSliced(lines: seq<string>, path: string)
    requires Contains(BaseName(path), "seg_")
    ensures var t := FirstTarget(lines, BaseName(path)); t < |lines| ==> Contains(lines[t], "seg_")
  {
    var t := FirstTarget(lines, BaseName(path));
    if t < |lines| {
      ContainsTransitive(lines[t], BaseName(path), "seg_");
    }
  }

  lemma {:induction false} TargetStays(lines: seq<string>, more: seq<string>, name: string)
    requires FirstTarget(lines, name) < |lines|
    ensures FirstTarget(lines + more, name) == FirstTarget(lines, name)
  {
    if IsTarget(lines[0], name) {
    } else {
      assert (lines + more)[1..] == lines[1..] + more;
      TargetStays(lines[1..], more, name);
    }
  }

  /** However many lines the packager has appended, rewriting for the same segment gives the same playlist. */
  lemma SameTargetSamePlaylist(lines: seq<string>, more: seq<string>, name: string)
    requires FirstTarget(lines, name) < |lines|
    ensures FirstTarget(lines + more, name) < |lines + more|
    ensures Map((lines + more)[..FirstTarget(lines + more, name) + 1], Rewrite())
         == Map(lines[..FirstTarget(lines, name) + 1], Rewrite())
  {
    TargetStays(lines, more, name);
    assert (lines + more)[..FirstTarget(lines, name) + 1] == lines[..FirstTarget(lines, name) + 1];
  }

  /**
    When the packager has appended lines and a segment at or after the last one is detected, the
    new playlist is the old one with lines appended, as section 6.2.1 of RFC 8216 allows.
   */
  lemma LaterTargetAppends(lines: seq<string>, more: seq<string>, first: string, later: string)
    requires FirstTarget(lines, first) < |lines| && FirstTarget(lines + more, later) < |lines + more|
    requires FirstTarget(lines, first) <= FirstTarget(lines + more, later)
    ensures Map(lines[..FirstTarget(lines, first) + 1], Rewrite())
         <= Map((lines + more)[..FirstTarget(lines + more, later) + 1], Rewrite())
  {
    var a, b := FirstTarget(lines, first) + 1, FirstTarget(lines + more, later) + 1;
    assert (lines + more)[..b] == lines[..a] + (lines + more)[a..b];
    MapConcat(lines[..a], (lines + more)[a..b], Rewrite());
  }

  // ----- The playlist names the stored file -----

  lemma LastIndexAfter(u: string, s: string, sub: string)
    requires sub != "" && Contains(s, sub)
    ensures LastIndex(u + s, sub) == |u| + LastIndex(s, sub)
  {
    var i := LastIndex(s, sub);
    MatchInSuffix(u, s, sub, i);
    forall k: int | k > |u| + i
      ensures !MatchAt(u + s, sub, k)
    {
      MatchInSuffix(u, s, sub, k - |u|);
    }
  }

  /** Cutting a path after its last slash. */
  lemma BaseNameSplits(path: string)
    ensures var dir := path[..LastIndex(path, "/") + 1];
            path == dir + BaseName(path) && (dir == "" || dir[|dir| - 1] == '/')
    ensures '/' !in BaseName(path)
  {
    var i := LastIndex(path, "/");
    LastSlash(path);
    CutAfter(path, i);
    assert BaseName(path) == path[i + 1..];
  }

  lemma CutAfter(path: string, i: int)
    requires -1 <= i < |path| && (i >= 0 ==> path[i] == '/') && forall k | i < k < |path| :: path[k] != '/'
    ensures var dir := path[..i + 1]; path == dir + path[i + 1..] && (dir == "" || dir[|dir| - 1] == '/')
    ensures '/' !in path[i + 1..]
  {
  }

  lemma BaseNameIs(dir: string, name: string)
    requires (dir == "" || dir[|dir| - 1] == '/') && '/' !in name
    ensures BaseName(dir + name) == name
  {
    LastSlashIs(dir + name, |dir| - 1);
  }

  /** The underscore that ends the last "seg_". */
  lemma UnderscoreOfSeg(s: string)
    requires Contains(s, "seg_")
    ensures Contains(s, "_") && LastIndex(s, "_") >= LastIndex(s, "seg_") + 3
  {
    var i := LastIndex(s, "seg_");
    MatchAtIndex(s, "seg_", i, 3);
    assert s[i + 3..i + 4] == "_";
    assert MatchAt(s, "_", i + 3);
  }

  /** Finding the last "seg_" and the last underscore of a path is finding those of its name. */
  lemma FoundInName(path: string)
    requires Contains(BaseName(path), "seg_")
    ensures var base, dir := BaseName(path), LastIndex(path, "/") + 1;
            && Contains(base, "_") && LastIndex(base, "seg_") + 3 <= LastIndex(base, "_") < |base|
            && Contains(path, "seg_") && LastIndex(path, "seg_") == dir + LastIndex(base, "seg_")
            && Contains(path, "_") && LastIndex(path, "_") == dir + LastIndex(base, "_")
  {
    var base, dir := BaseName(path), path[..LastIndex(path, "/") + 1];
    BaseNameSplits(path);
    UnderscoreOfSeg(base);
    LastIndexAfter(dir, base, "seg_");
    LastIndexAfter(dir, base, "_");
  }

  lemma RenamedSlices(dir: string, base: string, p: nat, q: nat)
    requires p <= |base| && q < |base|
    ensures var path := dir + base;
            path[..|dir| + p] + "segment_" + path[|dir| + q + 1..] == dir + (base[..p] + "segment_" + base[q + 1..])
  {
    assert (dir + base)[..|dir| + p] == dir + base[..p];
    assert (dir + base)[|dir| + q + 1..] == base[q + 1..];
  }

  lemma RenamedAfter(dir: string, base: string)
    requires Contains(base, "seg_")
    ensures var path := dir + base;
            && Contains(path, "seg_") && Contains(path, "_") && LastIndex(path, "seg_") <= LastIndex(path, "_")
            && Contains(base, "_") && LastIndex(base, "seg_") <= LastIndex(base, "_")
            && RenamedSegment(path) == dir + RenamedSegment(base)
  {
    UnderscoreOfSeg(base);
    LastIndexAfter(dir, base, "seg_");
    LastIndexAfter(dir, base, "_");
    RenamedSlices(dir, base, LastIndex(base, "seg_"), LastIndex(base, "_"));
  }

  lemma RenamedHasNoSlash(base: string)
    requires Contains(base, "seg_") && Contains(base, "_") && LastIndex(base, "seg_") <= LastIndex(base, "_")
    requires '/' !in base
    ensures '/' !in RenamedSegment(base)
  {
  }

  /** Renaming a path renames the file in its directory. */
  lemma RenamedInPlace(path: string)
    requires Contains(BaseName(path), "seg_")
    ensures Contains(path, "seg_") && Contains(path, "_") && LastIndex(path, "seg_") <= LastIndex(path, "_")
    ensures Contains(BaseName(path), "_") && LastIndex(BaseName(path), "seg_") <= LastIndex(BaseName(path), "_")
    ensures BaseName(RenamedSegment(path)) == RenamedSegment(BaseName(path))
  {
    BaseNameSplits(path);
    RenamedAfter(path[..LastIndex(path, "/") + 1], BaseName(path));
    RenamedHasNoSlash(BaseName(path));
    BaseNameIs(path[..LastIndex(path, "/") + 1], RenamedSegment(BaseName(path)));
  }

  /** The last "seg_" of a line that contains the name is that of the name or a later one. */
  lemma LastSegOfLine(u: string, base: string, v: string)
    requires Contains(base, "seg_")
    ensures Contains(u + base + v, "seg_") && LastIndex(u + base + v, "seg_") >= |u| + LastIndex(base, "seg_")
  {
    var p, line := LastIndex(base, "seg_"), u + base + v;
    MatchInSuffix(u, base, "seg_", p);
    MatchInPart(u + base, v, "seg_", |u| + p);
    assert MatchAt(line, "seg_", |u| + p);
  }

  /** Two occurrences of "seg_" do not overlap. */
  lemma SegsApart(line: string, i: nat, last: nat)
    requires MatchAt(line, "seg_", i) && MatchAt(line, "seg_", last) && i < last
    ensures i + 4 <= last && line[i + 3] == '_'
  {
    MatchAtIndex(line, "seg_", i, 1);
    MatchAtIndex(line, "seg_", i, 2);
    MatchAtIndex(line, "seg_", i, 3);
    MatchAtIndex(line, "seg_", last, 0);
  }

  /** The line with the stored name, and the line cut at its last "seg_", compared by position. */
  lemma CutLines(u: string, base: string, v: string, p: nat, q: nat, last: nat)
    requires p + 3 <= q < |base| && |u| + p <= last && last + 4 <= |u + base + v|
    requires last > |u| + p ==> last >= |u| + p + 4 && base[p + 3] == '_'
    ensures var line := u + base + v;
            line[..last] + "segment_" + line[last + 4..] == u + (base[..p] + "segment_" + base[q + 1..]) + v
            <==> q == p + 3 && last == |u| + p
  {
    var line := u + base + v;
    var cut, named := line[..last] + "segment_" + line[last + 4..], u + (base[..p] + "segment_" + base[q + 1..]) + v;
    if q != p + 3 {
      assert |cut| != |named|;
    } else if last == |u| + p {
      assert line[..last] == u + base[..p] && line[last + 4..] == base[p + 4..] + v;
    } else {
      assert cut[|u| + p + 3] == line[|u| + p + 3] == base[p + 3];
      assert named[|u| + p + 3] == "segment_"[3];
    }
  }

  /**
    A line that names the segment, with u before and v after the name, gets the name of the stored
    file exactly when no underscore follows the segment prefix in the name and no "seg_" follows it
    in the line.
   */
  lemma PlaylistNamesStoredFile(path: string, u: string, v: string)
    requires Contains(BaseName(path), "seg_") && !Contains(u + BaseName(path) + v, "init.mp4")
    ensures Contains(path, "seg_") && Contains(path, "_") && LastIndex(path, "seg_") <= LastIndex(path, "_")
    ensures MapLine(u + BaseName(path) + v) == u + BaseName(RenamedSegment(path)) + v
            <==> && LastIndex(path, "_") == LastIndex(path, "seg_") + 3
                 && LastIndex(u + BaseName(path) + v, "seg_") == |u| + LastIndex(BaseName(path), "seg_")
  {
    var base := BaseName(path);
    var line, p, q := u + base + v, LastIndex(base, "seg_"), LastIndex(base, "_");
    FoundInName(path);
    RenamedInPlace(path);
    LastSegOfLine(u, base, v);
    NamedLine(u, base, v, p, q);
  }

  lemma NamedLine(u: string, base: string, v: string, p: nat, q: nat)
    requires MatchAt(base, "seg_", p) && p + 3 <= q < |base|
    requires Contains(u + base + v, "seg_") && |u| + p <= LastIndex(u + base + v, "seg_")
    ensures var line := u + base + v;
            var last := LastIndex(line, "seg_");
            line[..last] + "segment_" + line[last + 4..] == u + (base[..p] + "segment_" + base[q + 1..]) + v
            <==> q == p + 3 && last == |u| + p
  {
    var line, last := u + base + v, LastIndex(u + base + v, "seg_");
    MatchInSuffix(u, base, "seg_", p);
    MatchInPart(u + base, v, "seg_", |u| + p);
    if last > |u| + p {
      SegsApart(line, |u| + p, last);
      assert line[|u| + p + 3] == base[p + 3];
    }
    CutLines(u, base, v, p, q, last);
  }

  lemma OneMatch(s: string, sub: string, i: nat)
    requires sub != "" && MatchAt(s, sub, i) && forall k | i < k <= |s| - |sub| :: s[k] != sub[0]
    ensures Contains(s, sub) && LastIndex(s, sub) == i
  {
    forall k: int | k > i
      ensures !MatchAt(s, sub, k)
    {
      if MatchAt(s, sub, k) {
        MatchAtIndex(s, sub, k, 0);
      }
    }
  }

  /** A name with a second underscore: the file is stored as segment_2.m4s, the playlist says segment_1_2.m4s. */
  lemma LaterUnderscoreExample()
    ensures Contains("seg_1_2.m4s", "seg_") && Contains("seg_1_2.m4s", "_")
    ensures LastIndex("seg_1_2.m4s", "seg_") <= LastIndex("seg_1_2.m4s", "_")
    ensures RenamedSegment("seg_1_2.m4s") == "segment_2.m4s"
    ensures MapLine("seg_1_2.m4s") == "segment_1_2.m4s"
  {
    SegAndUnderscore("seg_1_2.m4s");
    StoredExample("seg_1_2.m4s");
    LineExample("seg_1_2.m4s");
  }

  lemma StoredExample(name: string)
    requires name == "seg_1_2.m4s" && Contains(name, "seg_") && LastIndex(name, "seg_") == 0
    requires Contains(name, "_") && LastIndex(name, "_") == 5
    ensures RenamedSegment(name) == "segment_2.m4s"
  {
    assert name[..0] == "" && name[6..] == "2.m4s";
  }

  lemma LineExample(name: string)
    requires name == "seg_1_2.m4s" && Contains(name, "seg_") && LastIndex(name, "seg_") == 0
    ensures MapLine(name) == "segment_1_2.m4s"
  {
    NoInit(name);
    assert name[..0] == "" && name[4..] == "1_2.m4s";
  }

  lemma SegAndUnderscore(name: string)
    requires name == "seg_1_2.m4s"
    ensures Contains(name, "seg_") && LastIndex(name, "seg_") == 0 && Contains(name, "_") && LastIndex(name, "_") == 5
  {
    assert name[0..4] == "seg_" && name[5..6] == "_";
    OneMatch(name, "seg_", 0);
    OneMatch(name, "_", 5);
  }

  lemma NoInit(name: string)
    requires 'i' !in name
    ensures !Contains(name, "init.mp4")
  {
    if Contains(name, "init.mp4") {
      var i :| 0 <= i <= |name| && MatchAt(name, "init.mp4", i);
      MatchAtIndex(name, "init.mp4", i, 0);
    }
  }

  // ----- Detection does not feed on its own output -----

  /** A detected segment's path contains "seg_" exactly when its directory does. */
  lemma DetectedNameHasNoSeg(dir: string, n: string)
    requires dir == "" || dir[|dir| - 1] == '/'
    requires '_' !in n
    ensures Contains(dir + "segment_" + n, "seg_") <==> Contains(dir, "seg_")
  {
    var s := dir + "segment_" + n;
    assert s == dir + ("segment_" + n);
    if Contains(dir, "seg_") {
      var i :| 0 <= i <= |dir| && MatchAt(dir, "seg_", i);
      MatchInPart(dir, "segment_" + n, "seg_", i);
    }
    if Contains(s, "seg_") {
      var i :| 0 <= i <= |s| && MatchAt(s, "seg_", i);
      MatchAtIndex(s, "seg_", i, 0);
      MatchAtIndex(s, "seg_", i, 1);
      MatchAtIndex(s, "seg_", i, 2);
      MatchAtIndex(s, "seg_", i, 3);
      if i + 4 > |dir| {
        assert false;
      }
      MatchInPart(dir, "segment_" + n, "seg_", i);
    }
  }

  /** A stored detected segment is taken for detector input exactly when its directory looks like one. */
  lemma DetectionIgnoresItsSegments(dir: string, n: string, bitrate: string)
    requires dir == "" || dir[|dir| - 1] == '/'
    requires '_' !in n
    ensures var s := dir + "segment_" + n;
            IsDetectionTargetDataSegment(s, bitrate)
            <==> Contains(s, bitrate) && IsMediaDataSegment(s) && Contains(dir, "seg_")
  {
    DetectedNameHasNoSeg(dir, n);
  }

  /** The detected init segment is never taken for detector input, nor, in a plain directory, for a data segment. */
  lemma DetectionIgnoresItsInit(dir: string, bitrate: string)
    requires dir == "" || dir[|dir| - 1] == '/'
    ensures !IsDetectionTargetInitSegment(dir + "segment_init.mp4", bitrate)
    ensures !Contains(dir, "seg_") ==> !IsDetectionTargetDataSegment(dir + "segment_init.mp4", bitrate)
  {
    var s := dir + "segment_init.mp4";
    assert MatchAt(s, "segment_init.mp4", |dir|);
    assert Contains(s, "segment_init.mp4");
    assert s == dir + "segment_" + "init.mp4";
    DetectedNameHasNoSeg(dir, "init.mp4");
  }

  // ----- Removing one rendition from the master playlist -----

  /** The tag that pairs start with, by its name in section 4.3.4.2 of RFC 8216. */
  lemma StreamInfIs(line: string)
    ensures IsStreamInf(line) <==> exists u, v :: line == u + "EXT-X-STREAM-INF" + v
  {
    ContainsIs(line, "EXT-X-STREAM-INF");
  }

  function FirstLine(s: string): string {
    s[..LineEnd(s)]
  }

  lemma LineEndIs(s: string, i: nat)
    requires i <= |s| && (forall k | 0 <= k < i :: s[k] != '\n') && (i < |s| ==> s[i] == '\n')
    ensures LineEnd(s) == i
  {
  }

  lemma FirstLineOfWritten(line: string, rest: string)
    ensures FirstLine(line + "\n" + rest) == FirstLine(line)
  {
    var i := LineEnd(line);
    var s := line + "\n" + rest;
    assert forall k | 0 <= k < i :: s[k] == line[k];
    LineEndIs(s, i);
  }

  predicate NoNewline(line: string) {
    '\n' !in line
  }

  ghost predicate NoNewlines(lines: seq<string>) {
    forall i | 0 <= i < |lines| :: NoNewline(lines[i])
  }

  lemma FirstLineOfLine(line: string)
    requires NoNewline(line)
    ensures FirstLine(line) == line && FirstLine(line + "\n") == line
  {
    LineEndIs(line, |line|);
    assert line + "\n" == line + "\n" + "";
    FirstLineOfWritten(line, "");
  }

  /** The tag contains no newline, so one at the end makes no difference. */
  lemma TagDespiteNewline(line: string)
    ensures IsStreamInf(line + "\n") <==> IsStreamInf(line)
  {
    if IsStreamInf(line) {
      var i :| 0 <= i <= |line| && MatchAt(line, STREAM_INF, i);
      MatchInPart(line, "\n", STREAM_INF, i);
    }
    if IsStreamInf(line + "\n") {
      var i :| 0 <= i <= |line + "\n"| && MatchAt(line + "\n", STREAM_INF, i);
      MatchAtIndex(line + "\n", STREAM_INF, i, |STREAM_INF| - 1);
      MatchInPart(line, "\n", STREAM_INF, i);
    }
  }

  /** Once a tag has been seen, everything the code writes starts with a tag line. */
  lemma {:induction false} WritesStartWithTag(lines: seq<string>, prev: string, bitrate: string)
    requires NoNewlines(lines) && IsStreamInf(prev) && IsStreamInf(FirstLine(prev))
    ensures var out := Emit(lines, prev, bitrate); out != "" ==> IsStreamInf(FirstLine(out))
    decreases |lines|
  {
    if lines == [] {
    } else {
      assert NoNewline(lines[0]);
      if IsStreamInf(lines[0]) {
        FirstLineOfLine(lines[0]);
        WritesStartWithTag(lines[1..], lines[0], bitrate);
      } else if Contains(lines[0], bitrate) {
        WritesStartWithTag(lines[1..], prev, bitrate);
      } else {
        var rest := lines[0] + "\n" + Emit(lines[1..], prev + "\n", bitrate);
        assert Emit(lines, prev, bitrate) == prev + "\n" + rest;
        FirstLineOfWritten(prev, rest);
      }
    }
  }

  lemma LinesCancel(a: string, x: string, b: string, y: string)
    requires NoNewline(a) && NoNewline(b)
    ensures a + "\n" + x == b + "\n" + y <==> a == b && x == y
  {
    if a + "\n" + x == b + "\n" + y {
      FirstLineOfWritten(a, x);
      FirstLineOfWritten(b, y);
      FirstLineOfLine(a);
      FirstLineOfLine(b);
      CancelHead(a + "\n", x, y);
    }
  }

  /** What is written right after a tag was read is that or a later tag, and then a line that stays. */
  lemma {:induction false} WritesPair(lines: seq<string>, prev: string, bitrate: string)
    returns (t: string, u: string, x: string)
    requires NoNewlines(lines) && NoNewline(prev) && IsStreamInf(prev)
    ensures Emit(lines, prev, bitrate) != "" ==>
              NoNewline(t) && NoNewline(u) && !IsStreamInf(u) && !Contains(u, bitrate)
              && Emit(lines, prev, bitrate) == t + "\n" + (u + "\n" + x)
    decreases |lines|
  {
    if lines == [] {
      t, u, x := "", "", "";
    } else {
      assert NoNewline(lines[0]);
      if IsStreamInf(lines[0]) {
        t, u, x := WritesPair(lines[1..], lines[0], bitrate);
      } else if Contains(lines[0], bitrate) {
        t, u, x := WritesPair(lines[1..], prev, bitrate);
      } else {
        t, u, x := prev, lines[0], Emit(lines[1..], prev + "\n", bitrate);
      }
    }
  }

  /** So it does not start with two given lines of which the second is a tag or contains the bitrate. */
  lemma SecondLineStays(lines: seq<string>, prev: string, bitrate: string, a: string, b: string, y: string)
    requires NoNewlines(lines) && NoNewline(prev) && IsStreamInf(prev)
    requires NoNewline(a) && NoNewline(b) && (IsStreamInf(b) || Contains(b, bitrate))
    ensures Emit(lines, prev, bitrate) != a + "\n" + (b + "\n" + y)
  {
    var t, u, x := WritesPair(lines, prev, bitrate);
    if Emit(lines, prev, bitrate) != "" {
      LinesCancel(t, u + "\n" + x, a, b + "\n" + y);
      LinesCancel(u, x, b, y);
    }
  }

  /** After a tag the code agrees with the filter exactly when pairs follow, or a URI is rejoined. */
  lemma {:induction false} PairsFiltered(lines: seq<string>, prev: string, bitrate: string)
    requires NoNewlines(lines) && IsStreamInf(prev) && IsStreamInf(FirstLine(prev))
    ensures Emit(lines, prev, bitrate) == Unlines(Filtered(lines, bitrate)) <==> PairsOrRejoined(lines, bitrate)
    decreases |lines|, 1
  {
    if lines == [] {
    } else {
      assert NoNewline(lines[0]);
      FirstLineOfLine(lines[0]);
      if IsStreamInf(lines[0]) {
        TagThenFiltered(lines, bitrate);
      } else {
        WritesStartWithTag(lines, prev, bitrate);
        assert Filtered(lines, bitrate)[1..] == Filtered(lines[1..], bitrate);
        FirstLineOfWritten(lines[0], Unlines(Filtered(lines[1..], bitrate)));
      }
    }
  }

  lemma {:induction false} TagThenFiltered(lines: seq<string>, bitrate: string)
    requires NoNewlines(lines) && lines != [] && IsStreamInf(lines[0])
    ensures Emit(lines[1..], lines[0], bitrate) == Unlines(Filtered(lines, bitrate))
            <==> PairsOrRejoined(lines, bitrate)
    decreases |lines|, 0
  {
    var tag, rest := lines[0], lines[1..];
    assert NoNewline(tag);
    if rest == [] {
      assert Filtered(lines, bitrate) == [tag];
    } else if IsStreamInf(rest[0]) {
      UnlinesFirst(tag, Filtered(rest, bitrate));
      OrphanTag(tag, rest, bitrate);
    } else {
      PairFiltered(lines, bitrate);
    }
  }

  lemma {:induction false} PairFiltered(lines: seq<string>, bitrate: string)
    requires NoNewlines(lines) && StartsWithPair(lines)
    ensures Emit(lines[1..], lines[0], bitrate) == Unlines(Filtered(lines, bitrate))
            <==> PairsOrRejoined(lines[2..], bitrate)
    decreases |lines| - 1, 2
  {
    var tag, uri, rest := lines[0], lines[1], lines[2..];
    assert lines[1..][1..] == rest && lines[1..][0] == uri;
    assert NoNewline(uri) && NoNewline(tag);
    FirstLineOfLine(tag);
    if Contains(uri, bitrate) {
      assert Filtered(lines, bitrate) == Filtered(rest, bitrate);
      PairsFiltered(rest, tag, bitrate);
    } else {
      TagDespiteNewline(tag);
      PairsFiltered(rest, tag + "\n", bitrate);
      UnlinesPair(tag, uri, Filtered(rest, bitrate));
      CancelHead(tag + "\n" + uri + "\n", Emit(rest, tag + "\n", bitrate), Unlines(Filtered(rest, bitrate)));
    }
  }

  /** A tag without a URI is missing from the output, unless the URI comes after removed pairs. */
  lemma {:induction false} OrphanTag(tag: string, lines: seq<string>, bitrate: string)
    requires NoNewlines(lines) && NoNewline(tag) && lines != [] && IsStreamInf(lines[0])
    ensures Emit(lines[1..], lines[0], bitrate) == tag + "\n" + Unlines(Filtered(lines, bitrate))
            <==> Rejoined(tag, lines, bitrate)
    decreases |lines|, 0
  {
    var next := lines[0];
    assert NoNewline(next);
    if |lines| == 1 {
    } else if IsStreamInf(lines[1]) {
      UnlinesFirst(next, Filtered(lines[1..], bitrate));
      SecondLineStays(lines[1..], next, bitrate, tag, next, Unlines(Filtered(lines[1..], bitrate)));
    } else if !Contains(lines[1], bitrate) {
      assert Filtered(lines, bitrate) == [next, lines[1]] + Filtered(lines[2..], bitrate);
      UnlinesFirst(next, [lines[1]] + Filtered(lines[2..], bitrate));
      assert [next] + ([lines[1]] + Filtered(lines[2..], bitrate)) == Filtered(lines, bitrate);
      SecondLineStays(lines[1..], next, bitrate, tag, next, Unlines([lines[1]] + Filtered(lines[2..], bitrate)));
    } else {
      OrphanBeforeRemoved(tag, lines, bitrate);
    }
  }

  lemma {:induction false} OrphanBeforeRemoved(tag: string, lines: seq<string>, bitrate: string)
    requires NoNewlines(lines) && NoNewline(tag) && StartsWithPair(lines) && Contains(lines[1], bitrate)
    ensures Emit(lines[1..], lines[0], bitrate) == tag + "\n" + Unlines(Filtered(lines, bitrate))
            <==> Rejoined(tag, lines, bitrate)
    decreases |lines| - 1, 0
  {
    var next, rest := lines[0], lines[2..];
    assert lines[1..][1..] == rest && lines[1..][0] == lines[1];
    assert Emit(lines[1..], next, bitrate) == Emit(rest, next, bitrate);
    assert Filtered(lines, bitrate) == Filtered(rest, bitrate);
    assert NoNewline(next);
    if rest == [] {
    } else if IsStreamInf(rest[0]) {
      OrphanTag(tag, rest, bitrate);
    } else {
      var stray := rest[0];
      assert stray == lines[2] && NoNewline(stray);
      UnlinesFirst(stray, Filtered(rest[1..], bitrate));
      if Contains(stray, bitrate) {
        SecondLineStays(rest, next, bitrate, tag, stray, Unlines(Filtered(rest[1..], bitrate)));
      } else {
        StrayAfterRemoved(tag, next, stray, rest[1..], bitrate);
        assert rest[1..] == lines[3..];
      }
    }
  }

  lemma {:induction false} StrayAfterRemoved(tag: string, next: string, stray: string,
                                             rest: seq<string>, bitrate: string)
    requires NoNewlines(rest) && NoNewline(tag) && NoNewline(next) && NoNewline(stray) && IsStreamInf(next)
    ensures next + "\n" + stray + "\n" + Emit(rest, next + "\n", bitrate)
            == tag + "\n" + (stray + "\n" + Unlines(Filtered(rest, bitrate)))
            <==> next == tag && PairsOrRejoined(rest, bitrate)
    decreases |rest|, 2
  {
    var x, y := Emit(rest, next + "\n", bitrate), Unlines(Filtered(rest, bitrate));
    FirstLineOfLine(next);
    TagDespiteNewline(next);
    PairsFiltered(rest, next + "\n", bitrate);
    assert next + "\n" + stray + "\n" + x == next + "\n" + (stray + "\n" + x);
    LinesCancel(next, stray + "\n" + x, tag, stray + "\n" + y);
    CancelHead(stray + "\n", x, y);
  }

  lemma UnlinesFirst(a: string, rest: seq<string>)
    ensures Unlines([a] + rest) == a + "\n" + Unlines(rest)
  {
    assert ([a] + rest)[1..] == rest;
  }

  lemma UnlinesPair(a: string, b: string, rest: seq<string>)
    ensures Unlines([a, b] + rest) == a + "\n" + b + "\n" + Unlines(rest)
  {
    assert ([a, b] + rest)[1..] == [b] + rest;
    assert ([b] + rest)[1..] == rest;
  }

  lemma CancelHead(head: string, a: string, b: string)
    ensures head + a == head + b <==> a == b
  {
    assert (head + a)[|head|..] == a;
    assert (head + b)[|head|..] == b;
  }

  /** The rewritten playlist is the filtered one exactly when the playlist is filterable. */
  lemma {:induction false} RemovalFilters(lines: seq<string>, prev: string, bitrate: string)
    requires NoNewlines(lines) && !IsStreamInf(prev)
    ensures Emit(lines, prev, bitrate) == Unlines(Filtered(lines, bitrate)) <==> Filterable(lines, bitrate)
    decreases |lines|
  {
    if lines == [] {
    } else {
      assert NoNewline(lines[0]);
      if IsStreamInf(lines[0]) {
        TagThenFiltered(lines, bitrate);
      } else {
        TagDespiteNewline(lines[0]);
        RemovalFilters(lines[1..], lines[0] + "\n", bitrate);
        assert Filtered(lines, bitrate)[1..] == Filtered(lines[1..], bitrate);
        CancelHead(lines[0] + "\n", Emit(lines[1..], lines[0] + "\n", bitrate), Unlines(Filtered(lines[1..], bitrate)));
      }
    }
  }

  lemma {:induction false} OnlyPairsFilterable(lines: seq<string>, bitrate: string)
    requires OnlyPairs(lines)
    ensures PairsOrRejoined(lines, bitrate)
    decreases |lines|
  {
    if lines == [] {
    } else {
      OnlyPairsFilterable(lines[2..], bitrate);
    }
  }

  /** Every header followed by pairs is filterable. */
  lemma {:induction false} HeaderThenPairsFilterable(lines: seq<string>, bitrate: string)
    ensures HeaderThenPairs(lines) ==> Filterable(lines, bitrate)
  {
    if lines == [] {
    } else if IsStreamInf(lines[0]) {
      if OnlyPairs(lines) {
        OnlyPairsFilterable(lines, bitrate);
      }
    } else {
      HeaderThenPairsFilterable(lines[1..], bitrate);
    }
  }

  predicate NoTagAfterTag(lines: seq<string>) {
    forall i | 0 <= i < |lines| - 1 :: IsStreamInf(lines[i]) ==> !IsStreamInf(lines[i + 1])
  }

  lemma {:induction false} PairsWithoutTwoTags(lines: seq<string>, bitrate: string)
    requires NoTagAfterTag(lines)
    ensures PairsOrRejoined(lines, bitrate) <==> OnlyPairs(lines)
    decreases |lines|
  {
    if lines == [] {
    } else if StartsWithPair(lines) {
      assert forall i | 0 <= i < |lines[2..]| :: lines[2..][i] == lines[i + 2];
      PairsWithoutTwoTags(lines[2..], bitrate);
    }
  }

  /** When no tag stands directly after another, nothing but a header followed by pairs is filterable. */
  lemma {:induction false} FilterableWithoutTwoTags(lines: seq<string>, bitrate: string)
    requires NoTagAfterTag(lines)
    ensures Filterable(lines, bitrate) <==> HeaderThenPairs(lines)
  {
    if lines == [] {
    } else if IsStreamInf(lines[0]) {
      PairsWithoutTwoTags(lines, bitrate);
    } else {
      assert forall i | 0 <= i < |lines[1..]| :: lines[1..][i] == lines[i + 1];
      FilterableWithoutTwoTags(lines[1..], bitrate);
    }
  }

  /** A tag, a removed pair with the same tag, and a line that stays: not of the shape, and filtered correctly. */
  lemma RejoinedExample(tag: string, uri: string, other: string, bitrate: string)
    requires NoNewline(tag) && NoNewline(uri) && NoNewline(other)
    requires IsStreamInf(tag) && !IsStreamInf(uri) && !IsStreamInf(other)
    requires Contains(uri, bitrate) && !Contains(other, bitrate)
    ensures !HeaderThenPairs([tag, tag, uri, other]) && Filterable([tag, tag, uri, other], bitrate)
    ensures Emit([tag, tag, uri, other], "", bitrate) == tag + "\n" + other + "\n"
  {
    var lines := [tag, tag, uri, other];
    assert lines[1..] == [tag, uri, other] && lines[1..][1..] == [uri, other];
    assert [uri, other][1..] == [other] && [other][1..] == [] && lines[1..][3..] == [];
    assert Rejoined(tag, lines[1..], bitrate);
    assert Emit([other], tag, bitrate) == tag + "\n" + other + "\n";
    assert Emit([uri, other], tag, bitrate) == Emit([other], tag, bitrate);
    assert Emit(lines, "", bitrate) == Emit(lines[1..], tag, bitrate);
  }

  // ----- A second run changes nothing -----

  lemma {:induction false} FilteredMembers(lines: seq<string>, bitrate: string)
    ensures forall x :: x in Filtered(lines, bitrate) ==> x in lines
    decreases |lines|
  {
    if lines == [] {
    } else if StartsWithPair(lines) {
      FilteredMembers(lines[2..], bitrate);
    } else {
      FilteredMembers(lines[1..], bitrate);
    }
  }

  lemma {:induction false} FilteredAgain(lines: seq<string>, bitrate: string)
    requires OnlyPairs(lines)
    ensures OnlyPairs(Filtered(lines, bitrate))
    ensures Filtered(Filtered(lines, bitrate), bitrate) == Filtered(lines, bitrate)
    decreases |lines|
  {
    if lines == [] {
    } else {
      FilteredAgain(lines[2..], bitrate);
      var f := Filtered(lines[2..], bitrate);
      if Contains(lines[1], bitrate) {
        assert Filtered(lines, bitrate) == f;
      } else {
        assert Filtered(lines, bitrate) == [lines[0], lines[1]] + f;
        assert ([lines[0], lines[1]] + f)[2..] == f;
      }
    }
  }

  lemma {:induction false} FilteredHeaderAgain(lines: seq<string>, bitrate: string)
    requires HeaderThenPairs(lines)
    ensures HeaderThenPairs(Filtered(lines, bitrate))
    ensures Filtered(Filtered(lines, bitrate), bitrate) == Filtered(lines, bitrate)
    decreases |lines|
  {
    if lines == [] {
    } else if IsStreamInf(lines[0]) {
      FilteredAgain(lines, bitrate);
      PairsAreHeaderThenPairs(Filtered(lines, bitrate));
    } else {
      FilteredHeaderAgain(lines[1..], bitrate);
      assert Filtered(lines, bitrate)[1..] == Filtered(lines[1..], bitrate);
    }
  }

  lemma PairsAreHeaderThenPairs(lines: seq<string>)
    requires OnlyPairs(lines)
    ensures HeaderThenPairs(lines)
  {
  }

  function WithoutCR(): string -> string {
    (line: string) => DropCR(line)
  }

  /** Scanning gives back the lines that were written, each without a carriage return at its end. */
  lemma {:induction false} ScanWritten(lines: seq<string>)
    requires NoNewlines(lines)
    ensures ScanLines(Unlines(lines)) == Map(lines, WithoutCR())
  {
    if lines == [] {
    } else {
      var s := Unlines(lines);
      assert NoNewline(lines[0]);
      LineEndIs(s, |lines[0]|);
      assert s[..|lines[0]|] == lines[0];
      assert s[|lines[0]| + 1..] == Unlines(lines[1..]);
      ScanWritten(lines[1..]);
    }
  }

  /** The tag contains no carriage return, and taking one away cannot make a pattern appear. */
  lemma DropCRKeeps(line: string, pattern: string)
    ensures IsStreamInf(DropCR(line)) <==> IsStreamInf(line)
    ensures Contains(DropCR(line), pattern) ==> Contains(line, pattern)
  {
    var short := DropCR(line);
    if short != line {
      assert line == short + "\r";
      forall i: nat, sub: string | i + |sub| <= |short| ensures MatchAt(line, sub, i) <==> MatchAt(short, sub, i) {
        MatchInPart(short, "\r", sub, i);
      }
      if IsStreamInf(line) {
        var i :| 0 <= i <= |line| && MatchAt(line, STREAM_INF, i);
        MatchAtIndex(line, STREAM_INF, i, |STREAM_INF| - 1);
        assert MatchAt(short, STREAM_INF, i);
      }
    }
  }

  /** A playlist the filter leaves alone is left alone without its carriage returns, too. */
  lemma {:induction false} FilteredWithoutCR(lines: seq<string>, bitrate: string)
    requires Filtered(lines, bitrate) == lines
    ensures Filtered(Map(lines, WithoutCR()), bitrate) == Map(lines, WithoutCR())
    ensures HeaderThenPairs(lines) ==> HeaderThenPairs(Map(lines, WithoutCR()))
    ensures OnlyPairs(lines) ==> OnlyPairs(Map(lines, WithoutCR()))
    decreases |lines|
  {
    if lines == [] {
    } else {
      var m := Map(lines, WithoutCR());
      DropCRKeeps(lines[0], bitrate);
      FilteredShrinks(lines, bitrate);
      if StartsWithPair(lines) {
        DropCRKeeps(lines[1], bitrate);
        FilteredShrinks(lines[2..], bitrate);
        assert Filtered(lines, bitrate)[2..] == Filtered(lines[2..], bitrate);
        assert m[2..] == Map(lines[2..], WithoutCR());
        FilteredWithoutCR(lines[2..], bitrate);
      } else {
        if |lines| > 1 {
          DropCRKeeps(lines[1], bitrate);
        }
        assert Filtered(lines, bitrate)[1..] == Filtered(lines[1..], bitrate);
        assert m[1..] == Map(lines[1..], WithoutCR());
        FilteredWithoutCR(lines[1..], bitrate);
      }
    }
  }

  lemma {:induction false} FilteredShrinks(lines: seq<string>, bitrate: string)
    ensures |Filtered(lines, bitrate)| <= |lines|
    decreases |lines|
  {
    if lines == [] {
    } else if StartsWithPair(lines) {
      FilteredShrinks(lines[2..], bitrate);
    } else {
      FilteredShrinks(lines[1..], bitrate);
    }
  }

  /** Taking carriage returns away shortens the file unless there is none at the end of a line. */
  lemma {:induction false} UnlinesWithoutCR(lines: seq<string>)
    ensures |Unlines(Map(lines, WithoutCR()))| <= |Unlines(lines)|
    ensures Unlines(Map(lines, WithoutCR())) == Unlines(lines)
            <==> forall i | 0 <= i < |lines| :: DropCR(lines[i]) == lines[i]
  {
    if lines == [] {
    } else {
      var m := Map(lines, WithoutCR());
      assert m[0] == DropCR(lines[0]) && m[1..] == Map(lines[1..], WithoutCR());
      UnlinesWithoutCR(lines[1..]);
      if DropCR(lines[0]) == lines[0] {
        CancelHead(lines[0] + "\n", Unlines(m[1..]), Unlines(lines[1..]));
        assert forall i | 0 <= i < |lines[1..]| :: lines[1..][i] == lines[i + 1];
        assert forall i | 0 < i < |lines| :: lines[i] == lines[1..][i - 1];
      } else {
        assert |Unlines(m)| < |Unlines(lines)|;
      }
    }
  }

  lemma {:induction false} ScannedHaveNoNewline(s: string)
    ensures NoNewlines(ScanLines(s))
    decreases |s|
  {
    if s == "" {
    } else {
      var i := LineEnd(s);
      assert NoNewline(DropCR(s[..i]));
      if i < |s| {
        ScannedHaveNoNewline(s[i + 1..]);
      }
    }
  }

  /** The whole rewrite of one file, as bytes. */
  function Removed(file: string, bitrate: string): string {
    Emit(ScanLines(file), "", bitrate)
  }

  /**
    On a header followed by pairs, removing the rendition a second time changes nothing, exactly
    when no line that is kept still ends in a carriage return.
   */
  lemma RemovalIdempotent(file: string, bitrate: string)
    requires HeaderThenPairs(ScanLines(file))
    ensures var kept := Filtered(ScanLines(file), bitrate);
            Removed(Removed(file, bitrate), bitrate) == Removed(file, bitrate)
            <==> forall i | 0 <= i < |kept| :: DropCR(kept[i]) == kept[i]
  {
    var kept := Filtered(ScanLines(file), bitrate);
    RemovedOnce(file, bitrate);
    RemovedTwice(kept, bitrate);
    UnlinesWithoutCR(kept);
  }

  lemma RemovedOnce(file: string, bitrate: string)
    requires HeaderThenPairs(ScanLines(file))
    ensures var kept := Filtered(ScanLines(file), bitrate);
            Removed(file, bitrate) == Unlines(kept) && NoNewlines(kept)
            && HeaderThenPairs(kept) && Filtered(kept, bitrate) == kept
  {
    var lines := ScanLines(file);
    var kept := Filtered(lines, bitrate);
    ScannedHaveNoNewline(file);
    HeaderThenPairsFilterable(lines, bitrate);
    RemovalFilters(lines, "", bitrate);
    FilteredHeaderAgain(lines, bitrate);
    FilteredMembers(lines, bitrate);
    assert forall i | 0 <= i < |kept| :: kept[i] in lines;
  }

  lemma RemovedTwice(kept: seq<string>, bitrate: string)
    requires NoNewlines(kept) && HeaderThenPairs(kept) && Filtered(kept, bitrate) == kept
    ensures Removed(Unlines(kept), bitrate) == Unlines(Map(kept, WithoutCR()))
  {
    var again := Map(kept, WithoutCR());
    ScanWritten(kept);
    FilteredWithoutCR(kept, bitrate);
    assert NoNewlines(again) by {
      assert forall i | 0 <= i < |again| :: again[i] == DropCR(kept[i]) && NoNewline(kept[i]);
    }
    HeaderThenPairsFilterable(again, bitrate);
    RemovalFilters(again, "", bitrate);
  }

  /** A kept line with two carriage returns at its end loses one of them in each run. */
  lemma SecondRemovalExample(bitrate: string)
    ensures Removed("x\r\r\n", bitrate) == "x\r\n" && Removed("x\r\n", bitrate) == "x\n"
  {
    OneLine("x\r", bitrate);
    OneLine("x", bitrate);
    assert "x\r" + "\r\n" == "x\r\r\n" && "x\r" + "\n" == "x\r\n";
    assert "x" + "\r\n" == "x\r\n" && "x" + "\n" == "x\n";
  }

  lemma OneLine(line: string, bitrate: string)
    requires NoNewline(line) && |line| < |STREAM_INF|
    ensures Removed(line + "\r\n", bitrate) == line + "\n"
  {
    var file := line + "\r\n";
    LineEndIs(file, |line| + 1);
    assert file[..|line| + 1] == line + "\r" && file[|line| + 2..] == "";
    assert DropCR(file[..|line| + 1]) == line;
    assert ScanLines(file) == [line];
    assert !IsStreamInf(line) && !IsStreamInf("");
    assert [line][1..] == [];
    assert Emit([line], "", bitrate) == line + "\n" + Emit([line][1..], line + "\n", bitrate);
  }

  /** After a pair, a line that is neither tag nor URI makes the code write the tag a second time. */
  lemma StrayLineRepeatsTag(tag: string, uri: string, stray: string, bitrate: string)
    requires IsStreamInf(tag) && !IsStreamInf(uri) && !IsStreamInf(stray)
    requires !Contains(uri, bitrate) && !Contains(stray, bitrate)
    ensures Emit([tag, uri, stray], "", bitrate) == tag + "\n" + uri + "\n" + (tag + "\n\n" + stray + "\n")
  {
    TagDespiteNewline(tag);
    assert [tag, uri, stray][1..] == [uri, stray] && [uri, stray][1..] == [stray];
    assert Emit([stray], tag + "\n", bitrate) == tag + "\n" + "\n" + stray + "\n";
  }
}
