/** The validator of job specs: it fills in defaults in place and rejects what it cannot repair. */
module ValidatorSpec {
  import opened Sequences
  import opened JobModel

  const STREAM_TYPES := ["hls", "dash"]
  const SEGMENT_FORMATS := ["fmp4"]
  const VIDEO_CODECS := ["h264", "h265", "av1"]
  const DETECTION_CODECS := ["h264", "h265"]
  const AUDIO_CODECS := ["aac", "mp3"]
  const BITRATE_UNITS := ["k", "K"]
  const H26X_PRESETS := ["placebo", "veryslow", "slower", "slow", "medium",
                         "fast", "faster", "veryfast", "superfast", "ultrafast"]
  const PROTECTION_SYSTEMS := ["FairPlay", "Fairplay", "fairplay"]
  const PROTECTION_SCHEMES := ["cbcs", "CBCS", "Cbcs"]

  const MAX_SEGMENT_DURATION := 30
  const MAX_FRAGMENT_DURATION := 10
  const MAX_TIME_SHIFT_BUFFER_DEPTH := 14400
  const MAX_VIDEO_OUTPUTS := 10
  const MAX_AUDIO_OUTPUTS := 5
  const MAX_VIDEO_FRAMERATE := 60.0
  const MAX_WIDTH := 1920
  const MAX_HEIGHT := 1080
  const MAX_VIDEO_BITRATE := 10000.0
  const PRACTICAL_MIN_H26X_CRF := 23
  const MAX_H26X_CRF := 51
  const MAX_AV1_CRF := 63

  /** What strconv.ParseFloat can return; it accepts "inf" and "nan". */
  datatype Number = Finite(value: real) | PosInf | NegInf | NaN

  /** Comparisons as in IEEE 754: nothing is below or above NaN. */
  predicate Below(n: Number, bound: real) {
    n == NegInf || (n.Finite? && n.value < bound)
  }

  predicate Above(n: Number, bound: real) {
    n == PosInf || (n.Finite? && n.value > bound)
  }

  /** strconv.ParseFloat and strconv.ParseInt, as whatever they accept. */
  datatype Parsers = Parsers(float: string -> Option<Number>, integer: string -> Option<int>)

  // ----- What is filled in -----

  function WithDurations(j: LiveJobSpec): LiveJobSpec {
    var format := if j.segmentFormat in SEGMENT_FORMATS then j.segmentFormat else "fmp4";
    var segment := if 0 < j.segmentDuration <= MAX_SEGMENT_DURATION then j.segmentDuration else 4;
    var fragment := if 0 < j.fragmentDuration <= MAX_FRAGMENT_DURATION then j.fragmentDuration else 1;
    j.(segmentFormat := format,
       segmentDuration := segment,
       fragmentDuration := if fragment > segment then segment else fragment,
       timeShiftBufferDepth := if j.timeShiftBufferDepth > MAX_TIME_SHIFT_BUFFER_DEPTH then MAX_TIME_SHIFT_BUFFER_DEPTH
                               else j.timeShiftBufferDepth)
  }

  function WithCrf(d: Detection): Detection {
    if d.crf != 0 && d.crf < PRACTICAL_MIN_H26X_CRF then d.(crf := PRACTICAL_MIN_H26X_CRF) else d
  }

  function Normalised(j: LiveJobSpec): LiveJobSpec {
    var n := WithDurations(j);
    if NeedObjectDetection(n) then n.(detection := WithCrf(n.detection)) else n
  }

  // ----- What is accepted -----

  predicate DrmOk(d: Drm) {
    || (d.protectionSystem == "" && d.protectionScheme == "")
    || (d.disableClearKey == 0 && d.protectionSystem in PROTECTION_SYSTEMS && d.protectionScheme in PROTECTION_SCHEMES)
  }

  predicate DetectionOk(d: Detection) {
    && 0.0 <= d.frameRate <= MAX_VIDEO_FRAMERATE
    && d.codec in DETECTION_CODECS && d.preset in H26X_PRESETS && 0 < d.crf <= MAX_H26X_CRF
  }

  /** A number followed by k or K; None when it is not. */
  function Kbps(rate: string, p: Parsers): Option<Number> {
    if rate != "" && rate[|rate| - 1..] in BITRATE_UNITS then p.float(rate[..|rate| - 1]) else None
  }

  predicate NotNegative(r: Option<Number>) {
    r.Some? && !Below(r.value, 0.0)
  }

  /** What is checked of a video output before its maximal bitrate is read. */
  predicate VideoFits(v: VideoOutput, p: Parsers) {
    && v.codec in VIDEO_CODECS
    && 0.0 <= v.framerate <= MAX_VIDEO_FRAMERATE
    && 0 < v.width <= MAX_WIDTH && 0 < v.height <= MAX_HEIGHT
    && NotNegative(Kbps(v.bitrate, p)) && !Above(Kbps(v.bitrate, p).value, MAX_VIDEO_BITRATE)
  }

  predicate VideoOk(v: VideoOutput, p: Parsers) {
    && VideoFits(v, p)
    && NotNegative(Kbps(v.maxBitrate, p)) && NotNegative(Kbps(v.bufSize, p))
    && (if v.codec == "av1" then p.integer(v.preset).Some? && 0 <= v.crf <= MAX_AV1_CRF
        else v.preset in H26X_PRESETS && 0 <= v.crf <= MAX_H26X_CRF)
  }

  predicate AudioOk(a: AudioOutput, p: Parsers) {
    a.codec in AUDIO_CODECS && NotNegative(Kbps(a.bitrate, p))
  }

  /** What is checked before the outputs are. */
  predicate FrontOk(j: LiveJobSpec) {
    && j.streamType in STREAM_TYPES && DrmOk(j.drm)
    && (NeedObjectDetection(j) ==> DetectionOk(j.detection)) && j.bucket != ""
    && (j.videoOutputs != [] || NeedObjectDetection(j)) && |j.videoOutputs| <= MAX_VIDEO_OUTPUTS
  }

  predicate VideosOk(videos: seq<VideoOutput>, p: Parsers) {
    FirstVideosOk(videos, |videos|, p)
  }

  predicate FirstVideosOk(videos: seq<VideoOutput>, n: nat, p: Parsers)
    requires n <= |videos|
  {
    forall i | 0 <= i < n :: VideoOk(videos[i], p)
  }

  predicate AudiosOk(audios: seq<AudioOutput>, p: Parsers) {
    FirstAudiosOk(audios, |audios|, p)
  }

  predicate FirstAudiosOk(audios: seq<AudioOutput>, n: nat, p: Parsers)
    requires n <= |audios|
  {
    forall i | 0 <= i < n :: AudioOk(audios[i], p)
  }

  predicate Acceptable(j: LiveJobSpec, p: Parsers) {
    FrontOk(j) && VideosOk(j.videoOutputs, p) && |j.audioOutputs| <= MAX_AUDIO_OUTPUTS && AudiosOk(j.audioOutputs, p)
  }

  // ----- What crashes -----

  /** The code reads the last character of a rate unchecked; this is when it gets to an empty one. */
  predicate VideoCrashes(v: VideoOutput, p: Parsers) {
    && v.codec in VIDEO_CODECS && 0.0 <= v.framerate <= MAX_VIDEO_FRAMERATE
    && (v.bitrate == ""
        || (VideoFits(v, p) && (v.maxBitrate == "" || (NotNegative(Kbps(v.maxBitrate, p)) && v.bufSize == ""))))
  }

  predicate AudioCrashes(a: AudioOutput) {
    a.codec in AUDIO_CODECS && a.bitrate == ""
  }

  predicate SomeVideoCrashes(videos: seq<VideoOutput>, p: Parsers) {
    exists i | 0 <= i < |videos| :: VideoCrashes(videos[i], p) && FirstVideosOk(videos, i, p)
  }

  predicate SomeAudioCrashes(audios: seq<AudioOutput>, p: Parsers) {
    exists i | 0 <= i < |audios| :: AudioCrashes(audios[i]) && FirstAudiosOk(audios, i, p)
  }

  predicate OutputsCrash(j: LiveJobSpec, p: Parsers) {
    || SomeVideoCrashes(j.videoOutputs, p)
    || (VideosOk(j.videoOutputs, p) && |j.audioOutputs| <= MAX_AUDIO_OUTPUTS && SomeAudioCrashes(j.audioOutputs, p))
  }

  predicate Crashes(j: LiveJobSpec, p: Parsers) {
    FrontOk(j) && OutputsCrash(j, p)
  }
}

module ValidatorApp {
  import opened Sequences
  import opened JobModel
  import opened ValidatorSpec

  /** How the check of a spec or of a part of it ends. */
  datatype Verdict = Accepted | Rejected(reason: string) | Crashed

  method ContainsString(a: seq<string>, v: string) returns (r: bool)
    ensures r <==> v in a
  {
    r := false;
    for i := 0 to |a|
      invariant r <==> v in a[..i]
    {
      if v == a[i] {
        r := true;
      }
    }
    assert a[..|a|] == a;
  }

  function TimesThousand(n: Number): Number {
    if n.Finite? then Finite(n.value * 1000.0) else n
  }

  method BitrateString2Float64(bs: string, p: Parsers) returns (r: Option<Number>)
    requires bs != ""
    ensures r.Some? <==> Kbps(bs, p).Some?
    ensures r.Some? ==> r.value == TimesThousand(Kbps(bs, p).value)
    ensures r.Some? && Kbps(bs, p).value.Finite? ==> r == Some(Finite(1000.0 * Kbps(bs, p).value.value))
  {
    if !(bs[|bs| - 1] == 'k' || bs[|bs| - 1] == 'K') {
      return None;
    }
    assert bs[|bs| - 1..] == [bs[|bs| - 1]];
    var b := p.float(bs[..|bs| - 1]);
    if b == None {
      return None;
    }
    return Some(TimesThousand(b.value));
  }

  /** Reads a rate as Validate does: the number first, then the unit. */
  method CheckRate(rate: string, p: Parsers, badNumber: string, badUnit: string)
    returns (verdict: Verdict, value: Number)
    ensures verdict.Crashed? <==> rate == ""
    ensures verdict.Accepted? <==> Kbps(rate, p).Some?
    ensures verdict.Accepted? ==> value == Kbps(rate, p).value
  {
    value := Finite(0.0);
    if |rate| == 0 {
      return Crashed, value;
    }
    var b := p.float(rate[..|rate| - 1]);
    if b == None {
      return Rejected(badNumber), value;
    }
    var unitOk := ContainsString(BITRATE_UNITS, rate[|rate| - 1..]);
    if !unitOk {
      return Rejected(badUnit), value;
    }
    return Accepted, b.value;
  }

  method CheckPresetAndCrf(v: VideoOutput, p: Parsers) returns (verdict: Verdict)
    requires v.codec in VIDEO_CODECS
    ensures !verdict.Crashed?
    ensures verdict.Accepted? <==> if v.codec == "av1" then p.integer(v.preset).Some? && 0 <= v.crf <= MAX_AV1_CRF
                                   else v.preset in H26X_PRESETS && 0 <= v.crf <= MAX_H26X_CRF
  {
    if v.codec == "av1" {
      if p.integer(v.preset) == None {
        return Rejected("bad_libsvtav1_preset");
      }
      if v.crf < 0 || v.crf > MAX_AV1_CRF {
        return Rejected("libsvtav1_crf_out_of_range");
      }
    } else if v.codec == "h264" || v.codec == "h265" {
      var presetIndex := -1;
      for i := 0 to |H26X_PRESETS|
        invariant presetIndex == -1 && v.preset !in H26X_PRESETS[..i]
      {
        if v.preset == H26X_PRESETS[i] {
          presetIndex := i;
          break;
        }
      }
      if presetIndex == -1 {
        assert H26X_PRESETS[..|H26X_PRESETS|] == H26X_PRESETS;
        return Rejected("invalid_h264_encoder_preset");
      }
      if v.crf < 0 || v.crf > MAX_H26X_CRF {
        return Rejected("libsvtav1_crf_out_of_range");
      }
    }
    return Accepted;
  }

  method ValidateVideo(v: VideoOutput, p: Parsers) returns (verdict: Verdict)
    ensures verdict.Accepted? <==> VideoOk(v, p)
    ensures verdict.Crashed? <==> VideoCrashes(v, p)
  {
    var codecOk := ContainsString(VIDEO_CODECS, v.codec);
    if v.codec == "" || !codecOk {
      return Rejected("bad_video_codec");
    }
    if v.framerate < 0.0 || v.framerate > MAX_VIDEO_FRAMERATE {
      return Rejected("video_framerate_out_of_range");
    }
    if |v.bitrate| == 0 {
      return Crashed;
    }
    var rate := BitrateString2Float64(v.bitrate, p);
    if rate == None {
      return Rejected("bad_video_output_bitrate");
    }
    if v.width <= 0 || v.width > MAX_WIDTH {
      return Rejected("bad_video_resolution_width");
    }
    if v.height <= 0 || v.height > MAX_HEIGHT {
      return Rejected("bad_video_resolution_height");
    }
    var bi, mbi, bufI;
    verdict, bi := CheckRate(v.bitrate, p, "bad_video_bitrate", "bad_video_bitrate_unit");
    if !verdict.Accepted? {
      return;
    }
    if Below(bi, 0.0) || Above(bi, MAX_VIDEO_BITRATE) {
      return Rejected("video_bitrate_out_of_range");
    }
    verdict, mbi := CheckRate(v.maxBitrate, p, "bad_video_max_bitrate", "bad_video_bitrate_unit");
    if !verdict.Accepted? {
      return;
    }
    if Below(mbi, 0.0) {
      return Rejected("negative_video_max_bitrate");
    }
    verdict, bufI := CheckRate(v.bufSize, p, "bad_video_buffer_size", "bad_video_buffer_size_unit");
    if !verdict.Accepted? {
      return;
    }
    if Below(bufI, 0.0) {
      return Rejected("negative_video_buffer_size");
    }
    verdict := CheckPresetAndCrf(v, p);
  }

  method ValidateAudio(a: AudioOutput, p: Parsers) returns (verdict: Verdict)
    ensures verdict.Accepted? <==> AudioOk(a, p)
    ensures verdict.Crashed? <==> AudioCrashes(a)
  {
    var codecOk := ContainsString(AUDIO_CODECS, a.codec);
    if a.codec == "" || !codecOk {
      return Rejected("bad_audio_codec");
    }
    var bi;
    verdict, bi := CheckRate(a.bitrate, p, "bad_audio_bitrate", "bad_audio_bitrate_unit");
    if !verdict.Accepted? {
      return;
    }
    if Below(bi, 0.0) {
      return Rejected("audio_bitrate_out_of_range");
    }
  }

  method ValidateDrm(d: Drm) returns (verdict: Verdict)
    ensures !verdict.Crashed? && (verdict.Accepted? <==> DrmOk(d))
    ensures verdict.Accepted? <==>
              || (d.protectionSystem == "" && d.protectionScheme == "")
              || (d.disableClearKey == 0 && d.protectionSystem in {"FairPlay", "Fairplay", "fairplay"}
                  && d.protectionScheme in {"cbcs", "CBCS", "Cbcs"})
  {
    if !(d.protectionSystem == "" && d.protectionScheme == "") {
      if d.disableClearKey != 0 {
        return Rejected("Disable_clear_key_must_be_false");
      }
      if !(d.protectionSystem != "" && d.protectionScheme != "") {
        return Rejected("protection_system_and_scheme_must_both_be_set");
      }
      if !(d.protectionSystem == "FairPlay" || d.protectionSystem == "Fairplay" || d.protectionSystem == "fairplay") {
        return Rejected("protection_system_must_be_FairPlay");
      }
      if !(d.protectionScheme == "cbcs" || d.protectionScheme == "CBCS" || d.protectionScheme == "Cbcs") {
        return Rejected("protection_scheme_must_be_cbcs");
      }
    }
    return Accepted;
  }

  /** A job spec that is checked and repaired in place. */
  class SpecUnderReview {
    var j: LiveJobSpec

    constructor (j: LiveJobSpec)
      ensures this.j == j
    {
      this.j := j;
    }

    method FillInDurations()
      modifies this
      ensures j == WithDurations(old(j))
      ensures var segment, fragment := old(j).segmentDuration, old(j).fragmentDuration;
              && j.segmentDuration == (if 0 < segment <= 30 then segment else 4)
              && j.fragmentDuration ==
                   (if fragment <= 0 || fragment > 10 then 1
                    else if fragment <= j.segmentDuration then fragment else j.segmentDuration)
              && j.timeShiftBufferDepth ==
                   (if old(j).timeShiftBufferDepth <= 14400 then old(j).timeShiftBufferDepth else 14400)
              && j.segmentFormat == "fmp4" && j.drm == old(j).drm && j.detection == old(j).detection
              && j.videoOutputs == old(j).videoOutputs && j.audioOutputs == old(j).audioOutputs
    {
      var formatOk := ContainsString(SEGMENT_FORMATS, j.segmentFormat);
      if j.segmentFormat == "" || !formatOk {
        j := j.(segmentFormat := "fmp4");
      }
      if j.segmentDuration <= 0 || j.segmentDuration > MAX_SEGMENT_DURATION {
        j := j.(segmentDuration := 4);
      }
      if j.fragmentDuration <= 0 || j.fragmentDuration > MAX_FRAGMENT_DURATION {
        j := j.(fragmentDuration := 1);
      }
      if j.fragmentDuration > j.segmentDuration {
        j := j.(fragmentDuration := j.segmentDuration);
      }
      if j.timeShiftBufferDepth > MAX_TIME_SHIFT_BUFFER_DEPTH {
        j := j.(timeShiftBufferDepth := MAX_TIME_SHIFT_BUFFER_DEPTH);
      }
    }

    method ValidateDetection() returns (verdict: Verdict)
      modifies this
      ensures !verdict.Crashed?
      ensures verdict.Accepted? <==> (NeedObjectDetection(old(j)) ==> DetectionOk(old(j).detection))
      ensures j == if verdict.Accepted? && NeedObjectDetection(old(j))
                   then old(j).(detection := WithCrf(old(j).detection)) else old(j)
      ensures verdict.Accepted? && NeedObjectDetection(old(j)) ==>
                j.detection == old(j).detection.(crf := if old(j).detection.crf < 23 then 23 else old(j).detection.crf)
    {
      if j.detection != NO_DETECTION {
        if j.detection.frameRate < 0.0 || j.detection.frameRate > MAX_VIDEO_FRAMERATE {
          return Rejected("detection_framerate_out_of_range");
        }
        var codecOk := ContainsString(DETECTION_CODECS, j.detection.codec);
        if j.detection.codec == "" || !codecOk {
          return Rejected("bad_detection_video_codec");
        }
        var presetOk := ContainsString(H26X_PRESETS, j.detection.preset);
        if j.detection.preset == "" || !presetOk {
          return Rejected("bad_detection_video_preset");
        }
        if j.detection.crf == 0 || (j.detection.crf < 0 || j.detection.crf > MAX_H26X_CRF) {
          return Rejected("bad_detection_video_crf");
        } else if j.detection.crf < PRACTICAL_MIN_H26X_CRF {
          j := j.(detection := j.detection.(crf := PRACTICAL_MIN_H26X_CRF));
        }
      }
      return Accepted;
    }

    method ValidateVideos(p: Parsers) returns (verdict: Verdict)
      ensures verdict.Accepted? <==> VideosOk(j.videoOutputs, p)
      ensures verdict.Crashed? <==> SomeVideoCrashes(j.videoOutputs, p)
    {
      for i := 0 to |j.videoOutputs|
        invariant FirstVideosOk(j.videoOutputs, i, p)
      {
        verdict := ValidateVideo(j.videoOutputs[i], p);
        if !verdict.Accepted? {
          return;
        }
      }
      return Accepted;
    }

    method ValidateAudios(p: Parsers) returns (verdict: Verdict)
      ensures verdict.Accepted? <==> AudiosOk(j.audioOutputs, p)
      ensures verdict.Crashed? <==> SomeAudioCrashes(j.audioOutputs, p)
    {
      for i := 0 to |j.audioOutputs|
        invariant FirstAudiosOk(j.audioOutputs, i, p)
      {
        verdict := ValidateAudio(j.audioOutputs[i], p);
        if !verdict.Accepted? {
          return;
        }
      }
      return Accepted;
    }

    method ValidateOutputs(p: Parsers) returns (verdict: Verdict)
      ensures verdict.Accepted? <==>
                && (j.videoOutputs != [] || NeedObjectDetection(j)) && |j.videoOutputs| <= MAX_VIDEO_OUTPUTS
                && VideosOk(j.videoOutputs, p) && |j.audioOutputs| <= MAX_AUDIO_OUTPUTS && AudiosOk(j.audioOutputs, p)
      ensures verdict.Crashed? <==>
                && (j.videoOutputs != [] || NeedObjectDetection(j)) && |j.videoOutputs| <= MAX_VIDEO_OUTPUTS
                && OutputsCrash(j, p)
    {
      if |j.videoOutputs| == 0 && !NeedObjectDetection(j) {
        return Rejected("no_video_output");
      }
      if |j.videoOutputs| > MAX_VIDEO_OUTPUTS {
        return Rejected("too_many_video_outputs");
      }
      verdict := ValidateVideos(p);
      if !verdict.Accepted? {
        return;
      }
      if |j.audioOutputs| == 0 {
        return Accepted;
      }
      if |j.audioOutputs| > MAX_AUDIO_OUTPUTS {
        return Rejected("too_many_audio_outputs");
      }
      verdict := ValidateAudios(p);
    }

    method Validate(p: Parsers) returns (verdict: Verdict)
      modifies this
      ensures verdict.Accepted? <==> Acceptable(old(j), p)
      ensures verdict.Crashed? <==> Crashes(old(j), p)
      ensures verdict.Accepted? ==> j == Normalised(old(j))
      ensures !verdict.Accepted? ==> j == old(j) || j == WithDurations(old(j)) || j == Normalised(old(j))
    {
      var typeOk := ContainsString(STREAM_TYPES, j.streamType);
      if j.streamType == "" || !typeOk {
        return Rejected("bad_stream_type");
      }
      FillInDurations();
      verdict := ValidateDrm(j.drm);
      if !verdict.Accepted? {
        return;
      }
      verdict := ValidateDetection();
      if !verdict.Accepted? {
        return;
      }
      if j.bucket == "" {
        return Rejected("missing_output_bucket");
      }
      verdict := ValidateOutputs(p);
    }
  }
}

module ValidatorProofs {
  import opened Sequences
  import opened JobModel
  import opened ValidatorSpec

  /** What acceptance promises about the repaired spec. */
  lemma AcceptedWithinBounds(j: LiveJobSpec, p: Parsers)
    requires Acceptable(j, p)
    ensures var n := Normalised(j);
            && 0 < n.fragmentDuration <= n.segmentDuration <= MAX_SEGMENT_DURATION
            && n.fragmentDuration <= MAX_FRAGMENT_DURATION && n.timeShiftBufferDepth <= MAX_TIME_SHIFT_BUFFER_DEPTH
            && n.segmentFormat == "fmp4"
            && (NeedObjectDetection(n) ==> PRACTICAL_MIN_H26X_CRF <= n.detection.crf <= MAX_H26X_CRF)
            && |n.videoOutputs| <= MAX_VIDEO_OUTPUTS && |n.audioOutputs| <= MAX_AUDIO_OUTPUTS
            && (n.videoOutputs == [] ==> NeedObjectDetection(n))
    ensures forall i | 0 <= i < |j.videoOutputs| ::
              var v := Normalised(j).videoOutputs[i];
              && v.codec in VIDEO_CODECS && 0.0 <= v.framerate <= MAX_VIDEO_FRAMERATE
              && 0 < v.width <= MAX_WIDTH && 0 < v.height <= MAX_HEIGHT
              && (v.codec == "av1" ==> p.integer(v.preset).Some? && 0 <= v.crf <= MAX_AV1_CRF)
              && (v.codec != "av1" ==> v.preset in H26X_PRESETS && 0 <= v.crf <= MAX_H26X_CRF)
    ensures forall i | 0 <= i < |j.audioOutputs| :: Normalised(j).audioOutputs[i].codec in AUDIO_CODECS
    ensures NeedObjectDetection(j) ==>
              && Normalised(j).detection.codec in DETECTION_CODECS && Normalised(j).detection.preset in H26X_PRESETS
              && 0.0 <= Normalised(j).detection.frameRate <= MAX_VIDEO_FRAMERATE
  {
    assert forall i | 0 <= i < |j.videoOutputs| :: VideoOk(j.videoOutputs[i], p);
    assert forall i | 0 <= i < |j.audioOutputs| :: AudioOk(j.audioOutputs[i], p);
  }

  /** The limit on the video bitrate is enforced exactly on numbers: "nank" is accepted. */
  lemma BitrateInRange(j: LiveJobSpec, p: Parsers, i: nat)
    requires Acceptable(j, p) && i < |j.videoOutputs|
    ensures Kbps(j.videoOutputs[i].bitrate, p).Some?
    ensures var n := Kbps(j.videoOutputs[i].bitrate, p).value;
            n.Finite? && 0.0 <= n.value <= MAX_VIDEO_BITRATE <==> n != NaN
  {
    assert VideoOk(j.videoOutputs[i], p);
  }

  lemma NaNAccepted(v: VideoOutput, p: Parsers, text: string)
    requires VideoOk(v, p) && p.float(text) == Some(NaN)
    ensures VideoOk(v.(bitrate := text + "k"), p)
  {
    var rate := text + "k";
    assert rate[|rate| - 1..] == "k" && rate[..|rate| - 1] == text;
  }

  /** Each limit of an accepted output can be used to the full and not be passed, whatever its other fields. */
  lemma VideoLimits(v: VideoOutput, p: Parsers)
    requires VideoOk(v, p)
    ensures forall n :: VideoOk(v.(width := n), p) <==> 0 < n <= 1920
    ensures forall n :: VideoOk(v.(height := n), p) <==> 0 < n <= 1080
    ensures forall x :: VideoOk(v.(framerate := x), p) <==> 0.0 <= x <= 60.0
    ensures forall n :: VideoOk(v.(crf := n), p) <==> 0 <= n <= (if v.codec == "av1" then 63 else 51)
    ensures v.codec != "av1" ==>
              forall name :: VideoOk(v.(codec := name), p) && name != "av1" <==> name == "h264" || name == "h265"
    ensures v.codec == "av1" ==> forall text :: VideoOk(v.(preset := text), p) <==> p.integer(text).Some?
    ensures v.codec != "av1" ==>
              forall text :: VideoOk(v.(preset := text), p) <==>
                text in {"placebo", "veryslow", "slower", "slow", "medium",
                         "fast", "faster", "veryfast", "superfast", "ultrafast"}
  {
  }

  /** A number followed by k or K is taken as a rate: up to 10000 as the bitrate, and any as the other two. */
  lemma RateLimits(v: VideoOutput, p: Parsers, text: string, x: real)
    requires VideoOk(v, p) && p.float(text) == Some(Finite(x))
    ensures VideoOk(v.(bitrate := text + "k"), p) <==> 0.0 <= x <= 10000.0
    ensures VideoOk(v.(bitrate := text + "K"), p) <==> 0.0 <= x <= 10000.0
    ensures VideoOk(v.(maxBitrate := text + "k"), p) <==> 0.0 <= x
    ensures VideoOk(v.(bufSize := text + "k"), p) <==> 0.0 <= x
    ensures !VideoOk(v.(bitrate := text + "M"), p)
  {
    UnitIs(text, "k");
    UnitIs(text, "K");
    UnitIs(text, "M");
  }

  lemma UnitIs(text: string, unit: string)
    requires |unit| == 1
    ensures (text + unit)[|text + unit| - 1..] == unit && (text + unit)[..|text + unit| - 1] == text
  {
  }

  lemma AudioLimits(a: AudioOutput, p: Parsers, text: string, x: real)
    requires AudioOk(a, p) && p.float(text) == Some(Finite(x))
    ensures forall name :: AudioOk(a.(codec := name), p) <==> name == "aac" || name == "mp3"
    ensures AudioOk(a.(bitrate := text + "k"), p) <==> 0.0 <= x
  {
    UnitIs(text, "k");
  }

  /** The limits on a whole spec, which hold of the spec as it was given; durations are repaired and never refused. */
  lemma SpecLimits(j: LiveJobSpec, p: Parsers, name: string, n: int, m: int, d: int)
    requires Acceptable(j, p)
    ensures Acceptable(j.(streamType := name), p) <==> name == "hls" || name == "dash"
    ensures Acceptable(j.(bucket := name), p) <==> name != ""
    ensures Acceptable(j.(segmentDuration := n, fragmentDuration := m, timeShiftBufferDepth := d), p)
  {
  }

  lemma VideoCountLimit(j: LiveJobSpec, p: Parsers, videos: seq<VideoOutput>)
    requires Acceptable(j, p) && VideosOk(videos, p) && videos != []
    ensures Acceptable(j.(videoOutputs := videos), p) <==> |videos| <= 10
  {
  }

  lemma AudioCountLimit(j: LiveJobSpec, p: Parsers, audios: seq<AudioOutput>)
    requires Acceptable(j, p) && AudiosOk(audios, p)
    ensures Acceptable(j.(audioOutputs := audios), p) <==> |audios| <= 5
  {
  }

  lemma DetectionLimits(j: LiveJobSpec, p: Parsers, d: Detection)
    requires Acceptable(j, p) && NeedObjectDetection(j) && d != NO_DETECTION
    ensures Acceptable(j.(detection := d), p) <==>
              && 0.0 <= d.frameRate <= 60.0 && 0 < d.crf <= 51 && (d.codec == "h264" || d.codec == "h265")
              && d.preset in {"placebo", "veryslow", "slower", "slow", "medium",
                              "fast", "faster", "veryfast", "superfast", "ultrafast"}
  {
  }

  predicate HasEmptyRate(j: LiveJobSpec) {
    || (exists i | 0 <= i < |j.videoOutputs| ::
          var v := j.videoOutputs[i]; v.bitrate == "" || v.maxBitrate == "" || v.bufSize == "")
    || (exists i | 0 <= i < |j.audioOutputs| :: j.audioOutputs[i].bitrate == "")
  }

  /** A spec that is accepted has no empty rate, and one that crashes the code has. */
  lemma EmptyRates(j: LiveJobSpec, p: Parsers)
    ensures Acceptable(j, p) ==> !HasEmptyRate(j)
    ensures Crashes(j, p) ==> HasEmptyRate(j)
  {
    if Acceptable(j, p) {
      assert forall i | 0 <= i < |j.videoOutputs| :: VideoOk(j.videoOutputs[i], p);
      assert forall i | 0 <= i < |j.audioOutputs| :: AudioOk(j.audioOutputs[i], p);
    } else if Crashes(j, p) {
      if SomeVideoCrashes(j.videoOutputs, p) {
        var i :| 0 <= i < |j.videoOutputs| && VideoCrashes(j.videoOutputs[i], p) && FirstVideosOk(j.videoOutputs, i, p);
        assert var v := j.videoOutputs[i]; v.bitrate == "" || v.maxBitrate == "" || v.bufSize == "";
      }
    }
  }

  /** Every acceptable output makes the code crash when any of its rates is left empty. */
  lemma EmptyRateCrashes(v: VideoOutput, a: AudioOutput, p: Parsers)
    requires VideoOk(v, p) && AudioOk(a, p)
    ensures VideoCrashes(v.(bitrate := ""), p) && VideoCrashes(v.(maxBitrate := ""), p)
    ensures VideoCrashes(v.(bufSize := ""), p) && AudioCrashes(a.(bitrate := ""))
  {
  }

  /** An accepted spec is accepted again, and not changed a second time. */
  lemma ValidateIdempotent(j: LiveJobSpec, p: Parsers)
    requires Acceptable(j, p)
    ensures Acceptable(Normalised(j), p) && !Crashes(j, p)
    ensures Normalised(Normalised(j)) == Normalised(j)
  {
  }
}
