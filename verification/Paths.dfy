/** How the transcoder reads file names: kinds of stream files and rendition names. */
module Paths {
  import opened Strings

  predicate IsMediaDataSegment(name: string) {
    (Contains(name, ".ts") || Contains(name, ".m4s")) && !Contains(name, ".tmp")
  }

  predicate IsFmp4InitSegment(name: string) {
    Contains(name, ".mp4") && !Contains(name, ".tmp")
  }

  predicate IsFirstDataSegment(name: string) {
    && IsMediaDataSegment(name)
    && (Contains(name, "seg_00000.") || Contains(name, "seg_1.") || Contains(name, "segment_1."))
  }

  predicate IsDetectionTargetDataSegment(name: string, bitrate: string) {
    Contains(name, bitrate) && IsMediaDataSegment(name) && Contains(name, "seg_")
  }

  predicate IsDetectionTargetInitSegment(name: string, bitrate: string) {
    Contains(name, bitrate) && Contains(name, "init.mp4") && !Contains(name, "segment_init.mp4")
  }

  /** getRenditionNameFromPath: the name of the directory the file is in, "" when there is none. */
  function RenditionOfPath(path: string): string {
    var last := LastIndex(path, "/");
    if last == -1 then ""
    else
      var dir := path[..last];
      var second := LastIndex(dir, "/");
      if second == -1 then "" else dir[second + 1..]
  }

  /** The code slices the path one character before its last slash, so that must not be the first character. */
  predicate Sliceable(path: string) {
    LastIndex(path, "/") >= 1
  }

  /** The rendition uploadOneFile cuts out. It looks for the second slash one character further to the left. */
  function RenditionForUpload(path: string): string
    requires Sliceable(path)
  {
    var last := LastIndex(path, "/");
    var second := LastIndex(path[..last - 1], "/");
    path[second + 1..last]
  }

  lemma SlashAt(s: string, i: int)
    ensures MatchAt(s, "/", i) <==> 0 <= i < |s| && s[i] == '/'
  {
    if 0 <= i < |s| {
      assert s[i..i + 1] == [s[i]];
    }
  }

  lemma LastSlashIs(s: string, i: int)
    requires -1 <= i < |s| && (i >= 0 ==> s[i] == '/') && forall k | i < k < |s| :: s[k] != '/'
    ensures LastIndex(s, "/") == i
  {
    var j := LastIndex(s, "/");
    SlashAt(s, j);
    SlashAt(s, i);
  }

  lemma LastSlash(s: string)
    ensures var i := LastIndex(s, "/");
            -1 <= i < |s| && (i >= 0 ==> s[i] == '/') && forall k | i < k < |s| :: s[k] != '/'
  {
    var i := LastIndex(s, "/");
    SlashAt(s, i);
    forall k | i < k < |s| ensures s[k] != '/' {
      SlashAt(s, k);
    }
  }

  /** Starting one character further to the left finds the same slash, unless that character is one. */
  lemma SecondSlash(path: string, last: nat)
    requires 1 <= last <= |path|
    ensures var second, forUpload := LastIndex(path[..last], "/"), LastIndex(path[..last - 1], "/");
            if second == last - 1 then forUpload < second else forUpload == second < last - 1
  {
    var dir, shorter := path[..last], path[..last - 1];
    LastSlash(dir);
    LastSlash(shorter);
    if LastIndex(dir, "/") != last - 1 {
      LastSlashIs(shorter, LastIndex(dir, "/"));
    }
  }

  /** The two ways to find the rendition agree exactly on paths with a non-empty rendition directory. */
  lemma RenditionsAgree(path: string)
    requires Sliceable(path)
    ensures RenditionForUpload(path) == RenditionOfPath(path) <==> RenditionOfPath(path) != ""
  {
    var last := LastIndex(path, "/");
    SecondSlash(path, last);
    var second, forUpload := LastIndex(path[..last], "/"), LastIndex(path[..last - 1], "/");
    SlicesAgree(path, last, second, forUpload);
    assert RenditionOfPath(path) == if second == -1 then "" else path[..last][second + 1..];
    assert RenditionForUpload(path) == path[forUpload + 1..last];
  }

  lemma SlicesAgree(path: string, last: nat, second: int, forUpload: int)
    requires 1 <= last <= |path| && -1 <= second < last && -1 <= forUpload
    requires if second == last - 1 then forUpload < second else forUpload == second
    ensures var rendition := if second == -1 then "" else path[..last][second + 1..];
            path[forUpload + 1..last] == rendition <==> rendition != ""
  {
    assert path[..last][second + 1..] == path[second + 1..last];
  }

  /** With an empty directory name one way finds no rendition and the other finds the directory above it. */
  lemma RenditionsDifferExample()
    ensures Sliceable("out//seg_1.m4s")
    ensures RenditionOfPath("out//seg_1.m4s") == "" && RenditionForUpload("out//seg_1.m4s") == "out/"
  {
    var path := "out//seg_1.m4s";
    LastSlashIs(path, 4);
    assert path[..4] == "out/" && path[..3] == "out";
    LastSlashIs("out/", 3);
    LastSlashIs("out", -1);
    assert "out/"[4..] == "" && path[0..4] == "out/";
  }

  // ----- Names as the encoders give them -----

  lemma ContainsPart(u: string, sub: string, v: string)
    ensures Contains(u + sub + v, sub)
  {
    assert (u + sub + v)[|u|..|u| + |sub|] == sub;
    assert MatchAt(u + sub + v, sub, |u|);
  }

  predicate StartsWith(name: string, prefix: string) {
    prefix <= name
  }

  /** The name of a first segment: of the packager, of ffmpeg, or of the detector. */
  predicate FirstName(name: string) {
    StartsWith(name, "seg_1.") || StartsWith(name, "seg_00000.") || StartsWith(name, "segment_1.")
  }

  /** The path of a finished first segment in some directory. */
  ghost predicate FirstOfRendition(path: string) {
    && (exists dir, name :: path == dir + "/" + name && FirstName(name))
    && (Contains(path, ".m4s") || Contains(path, ".ts")) && !Contains(path, ".tmp")
  }

  lemma FirstIsRecognised(path: string)
    requires FirstOfRendition(path)
    ensures IsFirstDataSegment(path)
  {
    var dir, name :| path == dir + "/" + name && FirstName(name);
    var prefix := if StartsWith(name, "seg_1.") then "seg_1."
                  else if StartsWith(name, "seg_00000.") then "seg_00000." else "segment_1.";
    assert path == (dir + "/") + prefix + name[|prefix|..];
    ContainsPart(dir + "/", prefix, name[|prefix|..]);
  }

  /** A path below a rendition directory has that directory's name as its rendition. */
  lemma RenditionIs(dir: string, rendition: string, name: string)
    requires '/' !in rendition && '/' !in name
    ensures RenditionOfPath(dir + "/" + rendition + "/" + name) == rendition
  {
    var path, above := dir + "/" + rendition + "/" + name, dir + "/" + rendition;
    assert path == above + "/" + name;
    LastSlashIs(path, |above|);
    assert path[..|above|] == above;
    LastSlashIs(above, |dir|);
    assert above[|dir| + 1..] == rendition;
  }

  /** A packager segment in the directory of the detection rendition, and its init segment, are detector input. */
  lemma DetectorInputIsTaken(u: string, bitrate: string, v: string, n: string)
    requires !Contains(u + bitrate + v + "/seg_" + n + ".m4s", ".tmp")
    ensures IsDetectionTargetDataSegment(u + bitrate + v + "/seg_" + n + ".m4s", bitrate)
  {
    var path := u + bitrate + v + "/seg_" + n + ".m4s";
    assert path == u + bitrate + (v + "/seg_" + n + ".m4s");
    ContainsPart(u, bitrate, v + "/seg_" + n + ".m4s");
    assert path == (u + bitrate + v + "/") + "seg_" + (n + ".m4s");
    ContainsPart(u + bitrate + v + "/", "seg_", n + ".m4s");
    assert path == (u + bitrate + v + "/seg_" + n) + ".m4s" + "";
    ContainsPart(u + bitrate + v + "/seg_" + n, ".m4s", "");
  }

  lemma DetectorInitIsTaken(u: string, bitrate: string, v: string)
    requires !Contains(u + bitrate + v + "/init.mp4", "segment_init.mp4")
    ensures IsDetectionTargetInitSegment(u + bitrate + v + "/init.mp4", bitrate)
  {
    var path := u + bitrate + v + "/init.mp4";
    assert path == u + bitrate + (v + "/init.mp4");
    ContainsPart(u, bitrate, v + "/init.mp4");
    assert path == (u + bitrate + v + "/") + "init.mp4" + "";
    ContainsPart(u + bitrate + v + "/", "init.mp4", "");
  }

  /** Files of other renditions are not. */
  lemma OtherRenditionIsNotTaken(path: string, bitrate: string)
    requires !Contains(path, bitrate)
    ensures !IsDetectionTargetDataSegment(path, bitrate) && !IsDetectionTargetInitSegment(path, bitrate)
  {
  }
}
