/** The Instagram compatibility checker: rules over ffprobe metadata that
    collect issues and recommendations, and the fixed ffmpeg command that
    re-encodes a video into a compatible one.

    Probe output is an input (ffprobe itself is not run). Numbers keep the
    meaning JavaScript gives them: `duration` and `size` are `None` when
    `parseFloat`/`parseInt` yield NaN, which fails every comparison; the
    frame rate is the fraction ffprobe prints, compared without dividing. */
module CheckVideo {
  import opened Wrappers
  import opened Strings

  /** `r_frame_rate`, printed by ffprobe as "num/den". */
  datatype Fraction = Fraction(num: int, den: int)

  datatype Stream = Stream(codecType: string, codecName: string, width: int, height: int, rFrameRate: Fraction)

  /** `format_name`, `parseFloat(duration)` in seconds and `parseInt(size)` in bytes. */
  datatype Format = Format(formatName: string, duration: Option<real>, size: Option<int>)

  datatype ProbeInfo = ProbeInfo(format: Format, streams: seq<Stream>)

  /** One entry of `issues`, one constructor per rule; the message text is not modelled. */
  datatype Issue =
    | BadContainer | BadDuration | TooLarge | BadVideoCodec
    | LowResolution | BadAspectRatio | BadFrameRate | BadAudioCodec

  /** One entry of `recommendations`. */
  datatype Recommendation =
    | ConvertToMp4 | TrimTo90Seconds | ReduceQuality | ReencodeH264 | IncreaseResolution
    | CropToAspectRatio | ConvertFrameRate | ReencodeAudioAac | ConsiderAddingAudio

  /** 300 MB, the size limit, in bytes. */
  const MaxBytes: int := 300 * 1024 * 1024

  /** Position of each rule in `analyzeVideo`. */
  function IssueRank(i: Issue): nat
  {
    match i
    case BadContainer => 0
    case BadDuration => 1
    case TooLarge => 2
    case BadVideoCodec => 3
    case LowResolution => 4
    case BadAspectRatio => 5
    case BadFrameRate => 6
    case BadAudioCodec => 7
  }

  function RecommendationRank(r: Recommendation): nat
  {
    match r
    case ConvertToMp4 => 0
    case TrimTo90Seconds => 1
    case ReduceQuality => 2
    case ReencodeH264 => 3
    case IncreaseResolution => 4
    case CropToAspectRatio => 5
    case ConvertFrameRate => 6
    case ReencodeAudioAac => 7
    case ConsiderAddingAudio => 8
  }

  /** Entries appear in rule order, each at most once. */
  predicate IssuesInRuleOrder(s: seq<Issue>)
  {
    forall a, b :: 0 <= a < b < |s| ==> IssueRank(s[a]) < IssueRank(s[b])
  }

  predicate RecommendationsInRuleOrder(s: seq<Recommendation>)
  {
    forall a, b :: 0 <= a < b < |s| ==> RecommendationRank(s[a]) < RecommendationRank(s[b])
  }

  // ------------------------------------------------------ stream selection

  /** Index of the first stream with the given `codec_type`. */
  function FindIndex(streams: seq<Stream>, codecType: string): (r: Option<nat>)
    ensures r.Some? ==> r.value < |streams| && streams[r.value].codecType == codecType
    ensures r.Some? ==> forall j :: 0 <= j < r.value ==> streams[j].codecType != codecType
    ensures r.None? ==> forall j :: 0 <= j < |streams| ==> streams[j].codecType != codecType
  {
    if |streams| == 0 then None
    else if streams[0].codecType == codecType then Some(0)
    else
      match FindIndex(streams[1..], codecType)
      case None => None
      case Some(j) => Some(j + 1)
  }

  /** `streams.find(s => s.codec_type === codecType)`. */
  function FindStream(streams: seq<Stream>, codecType: string): (r: Option<Stream>)
    ensures r.None? <==> forall j :: 0 <= j < |streams| ==> streams[j].codecType != codecType
    ensures r.Some? ==> exists j :: 0 <= j < |streams| && streams[j] == r.value
                          && r.value.codecType == codecType
                          && forall k :: 0 <= k < j ==> streams[k].codecType != codecType
  {
    match FindIndex(streams, codecType)
    case None => None
    case Some(j) => Some(streams[j])
  }

  // ---------------------------------------------------------------- rules

  /** `w / h < 9/16 || w / h > 16/9` in IEEE arithmetic, decided by
      cross-multiplication: for h = 0 the quotient is an infinity (out of
      range) unless w = 0, when it is NaN (never out of range). */
  predicate AspectOutsideRange(w: int, h: int)
  {
    if h > 0 then 16 * w < 9 * h || 9 * w > 16 * h
    else if h < 0 then 16 * w > 9 * h || 9 * w < 16 * h
    else w != 0
  }

  /** `eval(r_frame_rate) < 23 || > 60`, decided the same way. */
  predicate FrameRateOutsideRange(f: Fraction)
  {
    if f.den > 0 then f.num < 23 * f.den || f.num > 60 * f.den
    else if f.den < 0 then f.num > 23 * f.den || f.num < 60 * f.den
    else f.num != 0
  }

  /** Multiplying both sides by a positive number keeps a strict order. */
  lemma ScalePositive(a: real, b: real, m: real)
    requires m > 0.0
    ensures a < b <==> a * m < b * m
  {
    assert (b - a) * m == b * m - a * m;
    if a < b {
      assert (b - a) * m > 0.0;
    } else {
      assert (a - b) * m >= 0.0;
    }
  }

  /** Multiplying both sides by a negative number reverses a strict order. */
  lemma ScaleNegative(a: real, b: real, m: real)
    requires m < 0.0
    ensures a < b <==> a * m > b * m
  {
    ScalePositive(a, b, -m);
    assert a * -m == -(a * m) && b * -m == -(b * m);
  }

  /** A quotient below a bound, without the division. */
  lemma QuotientBelow(n: real, d: real, c: real)
    requires d != 0.0
    ensures n / d < c <==> (if d > 0.0 then n < c * d else n > c * d)
  {
    var q := n / d;
    assert q * d == n;
    if d > 0.0 {
      ScalePositive(q, c, d);
    } else {
      ScaleNegative(q, c, d);
    }
  }

  /** A quotient above a bound, without the division. */
  lemma QuotientAbove(n: real, d: real, c: real)
    requires d != 0.0
    ensures n / d > c <==> (if d > 0.0 then n > c * d else n < c * d)
  {
    var q := n / d;
    assert q * d == n;
    if d > 0.0 {
      ScalePositive(c, q, d);
    } else {
      ScaleNegative(c, q, d);
    }
  }

  /** For a non-zero height the cross-multiplied test is the quotient test. */
  lemma AspectMatchesQuotient(w: int, h: int)
    requires h != 0
    ensures AspectOutsideRange(w, h) <==> (w as real / h as real < 9.0 / 16.0 || w as real / h as real > 16.0 / 9.0)
  {
    QuotientBelow(w as real, h as real, 9.0 / 16.0);
    QuotientAbove(w as real, h as real, 16.0 / 9.0);
  }

  /** For a non-zero denominator the cross-multiplied test is the quotient test. */
  lemma FrameRateMatchesQuotient(f: Fraction)
    requires f.den != 0
    ensures FrameRateOutsideRange(f) <==> (f.num as real / f.den as real < 23.0 || f.num as real / f.den as real > 60.0)
  {
    QuotientBelow(f.num as real, f.den as real, 23.0);
    QuotientAbove(f.num as real, f.den as real, 60.0);
  }

  /** The size rule, `size / (1024 * 1024) > 300`, is a byte comparison. */
  lemma SizeRuleInBytes(size: int)
    ensures size as real / (1024.0 * 1024.0) > 300.0 <==> size > MaxBytes
  {
  }

  // ------------------------------------------------------------ analysis

  /** What the rules look at: whether `format_name` mentions mp4, the
      parsed duration and size, and the first video and audio streams. */
  datatype Observed = Observed(
    mp4: bool, duration: Option<real>, size: Option<int>,
    video: Option<Stream>, audio: Option<Stream>)

  function Observe(info: ProbeInfo): (o: Observed)
    ensures o.mp4 <==> exists i :: OccursAt(info.format.formatName, "mp4", i)
    ensures o.duration == info.format.duration && o.size == info.format.size
    ensures o.video.Some? ==> exists j :: 0 <= j < |info.streams| && info.streams[j] == o.video.value
                                && o.video.value.codecType == "video"
                                && forall k :: 0 <= k < j ==> info.streams[k].codecType != "video"
    ensures o.audio.Some? ==> exists j :: 0 <= j < |info.streams| && info.streams[j] == o.audio.value
                                && o.audio.value.codecType == "audio"
                                && forall k :: 0 <= k < j ==> info.streams[k].codecType != "audio"
    ensures o.video.None? <==> forall j :: 0 <= j < |info.streams| ==> info.streams[j].codecType != "video"
    ensures o.audio.None? <==> forall j :: 0 <= j < |info.streams| ==> info.streams[j].codecType != "audio"
  {
    Observed(Includes(info.format.formatName, "mp4"), info.format.duration, info.format.size,
             FindStream(info.streams, "video"), FindStream(info.streams, "audio"))
  }

  /** `s.push(x)` when `c` holds. */
  function PushIf<T>(s: seq<T>, c: bool, x: T): seq<T>
  {
    if c then s + [x] else s
  }

  /** Whether the rule behind an issue fires, rule by rule. */
  predicate IssueFires(o: Observed, x: Issue)
  {
    match x
    case BadContainer => !o.mp4
    case BadDuration => o.duration.Some? && (o.duration.value < 3.0 || o.duration.value > 90.0)
    case TooLarge => o.size.Some? && o.size.value > MaxBytes
    case BadVideoCodec => o.video.Some? && o.video.value.codecName != "h264"
    case LowResolution => o.video.Some? && (o.video.value.height < 540 || o.video.value.width < 540)
    case BadAspectRatio => o.video.Some? && AspectOutsideRange(o.video.value.width, o.video.value.height)
    case BadFrameRate => o.video.Some? && FrameRateOutsideRange(o.video.value.rFrameRate)
    case BadAudioCodec => o.audio.Some? && o.audio.value.codecName != "aac"
  }

  /** Whether a recommendation is due: beside every issue, except that a
      video under three seconds gets none, and a suggestion to add audio
      when there is no audio stream. */
  predicate RecommendationDue(o: Observed, x: Recommendation)
  {
    match x
    case ConvertToMp4 => IssueFires(o, BadContainer)
    case TrimTo90Seconds => o.duration.Some? && o.duration.value > 90.0
    case ReduceQuality => IssueFires(o, TooLarge)
    case ReencodeH264 => IssueFires(o, BadVideoCodec)
    case IncreaseResolution => IssueFires(o, LowResolution)
    case CropToAspectRatio => IssueFires(o, BadAspectRatio)
    case ConvertFrameRate => IssueFires(o, BadFrameRate)
    case ReencodeAudioAac => IssueFires(o, BadAudioCodec)
    case ConsiderAddingAudio => o.audio.None?
  }

  /** The issues pushed by the rules on the video stream, in their order. */
  function VideoIssues(s: seq<Issue>, vs: Stream): seq<Issue>
  {
    var s := PushIf(s, vs.codecName != "h264", BadVideoCodec);
    var s := PushIf(s, vs.height < 540 || vs.width < 540, LowResolution);
    var s := PushIf(s, AspectOutsideRange(vs.width, vs.height), BadAspectRatio);
    PushIf(s, FrameRateOutsideRange(vs.rFrameRate), BadFrameRate)
  }

  /** The recommendations pushed by the rules on the video stream. */
  function VideoRecommendations(s: seq<Recommendation>, vs: Stream): seq<Recommendation>
  {
    var s := PushIf(s, vs.codecName != "h264", ReencodeH264);
    var s := PushIf(s, vs.height < 540 || vs.width < 540, IncreaseResolution);
    var s := PushIf(s, AspectOutsideRange(vs.width, vs.height), CropToAspectRatio);
    PushIf(s, FrameRateOutsideRange(vs.rFrameRate), ConvertFrameRate)
  }

  /** The issues pushed by the container, duration and size rules. */
  function FormatIssues(o: Observed): seq<Issue>
  {
    var s := PushIf([], !o.mp4, BadContainer);
    var s := PushIf(s, o.duration.Some? && (o.duration.value < 3.0 || o.duration.value > 90.0), BadDuration);
    PushIf(s, o.size.Some? && o.size.value as real / (1024.0 * 1024.0) > 300.0, TooLarge)
  }

  function FormatRecommendations(o: Observed): seq<Recommendation>
  {
    var s := PushIf([], !o.mp4, ConvertToMp4);
    var s := PushIf(s, o.duration.Some? && (o.duration.value < 3.0 || o.duration.value > 90.0) && o.duration.value > 90.0, TrimTo90Seconds);
    PushIf(s, o.size.Some? && o.size.value as real / (1024.0 * 1024.0) > 300.0, ReduceQuality)
  }

  /** The issues `analyzeVideo` pushes, in its order. */
  function IssuesPushed(o: Observed): seq<Issue>
  {
    var s := FormatIssues(o);
    var s := if o.video.Some? then VideoIssues(s, o.video.value) else s;
    if o.audio.Some? then PushIf(s, o.audio.value.codecName != "aac", BadAudioCodec) else s
  }

  /** The recommendations `analyzeVideo` pushes, in its order. */
  function RecommendationsPushed(o: Observed): seq<Recommendation>
  {
    var s := FormatRecommendations(o);
    var s := if o.video.Some? then VideoRecommendations(s, o.video.value) else s;
    if o.audio.Some? then PushIf(s, o.audio.value.codecName != "aac", ReencodeAudioAac) else s + [ConsiderAddingAudio]
  }

  /** `s` holds, in rule order, exactly the fired issues of the rules
      before rule `k`. */
  predicate IssuesUpTo(o: Observed, s: seq<Issue>, k: nat)
  {
    IssuesInRuleOrder(s) && forall y :: y in s <==> IssueFires(o, y) && IssueRank(y) < k
  }

  predicate RecommendationsUpTo(o: Observed, s: seq<Recommendation>, k: nat)
  {
    RecommendationsInRuleOrder(s) && forall y :: y in s <==> RecommendationDue(o, y) && RecommendationRank(y) < k
  }

  /** One push of the issue list moves the invariant one rule further on. */
  lemma PushIssue(o: Observed, s: seq<Issue>, c: bool, x: Issue)
    requires IssuesUpTo(o, s, IssueRank(x)) && c == IssueFires(o, x)
    ensures IssuesUpTo(o, PushIf(s, c, x), IssueRank(x) + 1)
  {
    if c {
      var t := s + [x];
      forall a, b | 0 <= a < b < |t| ensures IssueRank(t[a]) < IssueRank(t[b]) {
        if b == |s| {
          assert t[a] in s;
        }
      }
    }
  }

  lemma PushRecommendation(o: Observed, s: seq<Recommendation>, c: bool, x: Recommendation)
    requires RecommendationsUpTo(o, s, RecommendationRank(x)) && c == RecommendationDue(o, x)
    ensures RecommendationsUpTo(o, PushIf(s, c, x), RecommendationRank(x) + 1)
  {
    if c {
      var t := s + [x];
      forall a, b | 0 <= a < b < |t| ensures RecommendationRank(t[a]) < RecommendationRank(t[b]) {
        if b == |s| {
          assert t[a] in s;
        }
      }
    }
  }

  lemma FormatIssuesFollowRules(o: Observed)
    ensures IssuesUpTo(o, FormatIssues(o), 3)
  {
    if o.size.Some? {
      SizeRuleInBytes(o.size.value);
    }
    var s0: seq<Issue> := [];
    PushIssue(o, s0, IssueFires(o, BadContainer), BadContainer);
    var s1 := PushIf(s0, IssueFires(o, BadContainer), BadContainer);
    PushIssue(o, s1, IssueFires(o, BadDuration), BadDuration);
    var s2 := PushIf(s1, IssueFires(o, BadDuration), BadDuration);
    PushIssue(o, s2, IssueFires(o, TooLarge), TooLarge);
  }

  /** Two pushes in a row move the invariant two rules further on. */
  lemma PushTwoIssues(o: Observed, s: seq<Issue>, x1: Issue, x2: Issue)
    requires IssuesUpTo(o, s, IssueRank(x1)) && IssueRank(x2) == IssueRank(x1) + 1
    ensures IssuesUpTo(o, PushIf(PushIf(s, IssueFires(o, x1), x1), IssueFires(o, x2), x2), IssueRank(x2) + 1)
  {
    PushIssue(o, s, IssueFires(o, x1), x1);
    PushIssue(o, PushIf(s, IssueFires(o, x1), x1), IssueFires(o, x2), x2);
  }

  lemma VideoIssuesFollowRules(o: Observed, s: seq<Issue>)
    requires IssuesUpTo(o, s, 3)
    ensures IssuesUpTo(o, if o.video.Some? then VideoIssues(s, o.video.value) else s, 7)
  {
    if o.video.Some? {
      var vs := o.video.value;
      assert IssueFires(o, BadVideoCodec) == (vs.codecName != "h264");
      assert IssueFires(o, LowResolution) == (vs.height < 540 || vs.width < 540);
      assert IssueFires(o, BadAspectRatio) == AspectOutsideRange(vs.width, vs.height);
      assert IssueFires(o, BadFrameRate) == FrameRateOutsideRange(vs.rFrameRate);
      PushTwoIssues(o, s, BadVideoCodec, LowResolution);
      var s5 := PushIf(PushIf(s, IssueFires(o, BadVideoCodec), BadVideoCodec), IssueFires(o, LowResolution), LowResolution);
      PushTwoIssues(o, s5, BadAspectRatio, BadFrameRate);
    }
  }

  lemma FormatRecommendationsFollowRules(o: Observed)
    ensures RecommendationsUpTo(o, FormatRecommendations(o), 3)
  {
    if o.size.Some? {
      SizeRuleInBytes(o.size.value);
    }
    var s0: seq<Recommendation> := [];
    PushRecommendation(o, s0, RecommendationDue(o, ConvertToMp4), ConvertToMp4);
    var s1 := PushIf(s0, RecommendationDue(o, ConvertToMp4), ConvertToMp4);
    PushRecommendation(o, s1, RecommendationDue(o, TrimTo90Seconds), TrimTo90Seconds);
    var s2 := PushIf(s1, RecommendationDue(o, TrimTo90Seconds), TrimTo90Seconds);
    PushRecommendation(o, s2, RecommendationDue(o, ReduceQuality), ReduceQuality);
  }

  lemma PushTwoRecommendations(o: Observed, s: seq<Recommendation>, x1: Recommendation, x2: Recommendation)
    requires RecommendationsUpTo(o, s, RecommendationRank(x1)) && RecommendationRank(x2) == RecommendationRank(x1) + 1
    ensures RecommendationsUpTo(o, PushIf(PushIf(s, RecommendationDue(o, x1), x1), RecommendationDue(o, x2), x2),
                                RecommendationRank(x2) + 1)
  {
    PushRecommendation(o, s, RecommendationDue(o, x1), x1);
    PushRecommendation(o, PushIf(s, RecommendationDue(o, x1), x1), RecommendationDue(o, x2), x2);
  }

  lemma VideoRecommendationsFollowRules(o: Observed, s: seq<Recommendation>)
    requires RecommendationsUpTo(o, s, 3)
    ensures RecommendationsUpTo(o, if o.video.Some? then VideoRecommendations(s, o.video.value) else s, 7)
  {
    if o.video.Some? {
      var vs := o.video.value;
      assert RecommendationDue(o, ReencodeH264) == (vs.codecName != "h264");
      assert RecommendationDue(o, IncreaseResolution) == (vs.height < 540 || vs.width < 540);
      assert RecommendationDue(o, CropToAspectRatio) == AspectOutsideRange(vs.width, vs.height);
      assert RecommendationDue(o, ConvertFrameRate) == FrameRateOutsideRange(vs.rFrameRate);
      PushTwoRecommendations(o, s, ReencodeH264, IncreaseResolution);
      var s5 := PushIf(PushIf(s, RecommendationDue(o, ReencodeH264), ReencodeH264),
                       RecommendationDue(o, IncreaseResolution), IncreaseResolution);
      PushTwoRecommendations(o, s5, CropToAspectRatio, ConvertFrameRate);
    }
  }

  /** `analyzeVideo` reports exactly the issues whose rule fires, in rule
      order, none twice. */
  lemma IssuesFollowRules(o: Observed)
    ensures forall x :: x in IssuesPushed(o) <==> IssueFires(o, x)
    ensures IssuesInRuleOrder(IssuesPushed(o))
  {
    FormatIssuesFollowRules(o);
    var s3 := FormatIssues(o);
    VideoIssuesFollowRules(o, s3);
    var s7 := if o.video.Some? then VideoIssues(s3, o.video.value) else s3;
    PushIssue(o, s7, IssueFires(o, BadAudioCodec), BadAudioCodec);
    assert IssueFires(o, BadAudioCodec) == (o.audio.Some? && o.audio.value.codecName != "aac");
    assert IssuesPushed(o) == PushIf(s7, IssueFires(o, BadAudioCodec), BadAudioCodec);
  }

  /** `analyzeVideo` makes exactly the recommendations that are due, in
      rule order, none twice. */
  lemma RecommendationsFollowRules(o: Observed)
    ensures forall x :: x in RecommendationsPushed(o) <==> RecommendationDue(o, x)
    ensures RecommendationsInRuleOrder(RecommendationsPushed(o))
  {
    FormatRecommendationsFollowRules(o);
    var s3 := FormatRecommendations(o);
    VideoRecommendationsFollowRules(o, s3);
    var s7 := if o.video.Some? then VideoRecommendations(s3, o.video.value) else s3;
    PushRecommendation(o, s7, RecommendationDue(o, ReencodeAudioAac), ReencodeAudioAac);
    var s8 := PushIf(s7, RecommendationDue(o, ReencodeAudioAac), ReencodeAudioAac);
    PushRecommendation(o, s8, RecommendationDue(o, ConsiderAddingAudio), ConsiderAddingAudio);
    var s9 := PushIf(s8, RecommendationDue(o, ConsiderAddingAudio), ConsiderAddingAudio);
    if o.audio.Some? {
      assert RecommendationDue(o, ReencodeAudioAac) == (o.audio.value.codecName != "aac");
      assert s9 == s8;
    } else {
      assert s8 == s7;
    }
    assert RecommendationsPushed(o) == s9;
    assert forall y :: RecommendationRank(y) < 9;
  }

  /** The `if (videoStream)` block of `analyzeVideo`: the codec,
      resolution, aspect-ratio and frame-rate rules push in turn. */
  method CheckVideoStream(vs: Stream, issues0: seq<Issue>, recommendations0: seq<Recommendation>)
    returns (issues: seq<Issue>, recommendations: seq<Recommendation>)
    ensures issues == VideoIssues(issues0, vs)
    ensures recommendations == VideoRecommendations(recommendations0, vs)
  {
    issues, recommendations := issues0, recommendations0;
    if vs.codecName != "h264" {
      issues := issues + [BadVideoCodec];
      recommendations := recommendations + [ReencodeH264];
    }
    if vs.height < 540 || vs.width < 540 {
      issues := issues + [LowResolution];
      recommendations := recommendations + [IncreaseResolution];
    }
    if AspectOutsideRange(vs.width, vs.height) {
      issues := issues + [BadAspectRatio];
      recommendations := recommendations + [CropToAspectRatio];
    }
    if FrameRateOutsideRange(vs.rFrameRate) {
      issues := issues + [BadFrameRate];
      recommendations := recommendations + [ConvertFrameRate];
    }
  }

  /** `analyzeVideo`: every rule pushes its issue and its recommendation in
      turn, on the first video and the first audio stream. */
  method AnalyzeVideo(info: ProbeInfo) returns (issues: seq<Issue>, recommendations: seq<Recommendation>)
    ensures issues == IssuesPushed(Observe(info))
    ensures recommendations == RecommendationsPushed(Observe(info))
  {
    var format := info.format;
    var videoStream := FindStream(info.streams, "video");
    var audioStream := FindStream(info.streams, "audio");
    ghost var o := Observe(info);
    issues := [];
    recommendations := [];

    if !Includes(format.formatName, "mp4") {
      issues := issues + [BadContainer];
      recommendations := recommendations + [ConvertToMp4];
    }

    match format.duration {
      case Some(duration) =>
        if duration < 3.0 || duration > 90.0 {
          issues := issues + [BadDuration];
          if duration > 90.0 {
            recommendations := recommendations + [TrimTo90Seconds];
          }
        }
      case None =>
    }

    match format.size {
      case Some(size) =>
        var sizeInMB := size as real / (1024.0 * 1024.0);
        if sizeInMB > 300.0 {
          issues := issues + [TooLarge];
          recommendations := recommendations + [ReduceQuality];
        }
      case None =>
    }
    assert issues == FormatIssues(o) && recommendations == FormatRecommendations(o);

    if videoStream.Some? {
      issues, recommendations := CheckVideoStream(videoStream.value, issues, recommendations);
    }

    if audioStream.Some? {
      if audioStream.value.codecName != "aac" {
        issues := issues + [BadAudioCodec];
        recommendations := recommendations + [ReencodeAudioAac];
      }
    } else {
      recommendations := recommendations + [ConsiderAddingAudio];
    }
  }

  /** The Instagram-compatible encoder settings between input and output. */
  const FixSettings: seq<string> :=
    ["-c:v", "libx264", "-preset", "medium", "-crf", "23", "-pix_fmt", "yuv420p",
     "-c:a", "aac", "-b:a", "128k", "-r", "30", "-f", "mp4", "-movflags", "+faststart"]

  /** `generateFixCommand`: the argument list, built by successive pushes. The
      issues are not consulted. */
  method GenerateFixCommand(issues: seq<Issue>, inputFile: string, outputFile: string) returns (commands: seq<string>)
    ensures |commands| == 22
    ensures commands[..3] == ["ffmpeg", "-i", inputFile] && commands[21] == outputFile
    ensures commands[3..21] == FixSettings
  {
    commands := [];
    commands := commands + ["ffmpeg", "-i", inputFile];
    commands := commands + ["-c:v", "libx264"];
    commands := commands + ["-preset", "medium"];
    commands := commands + ["-crf", "23"];
    commands := commands + ["-pix_fmt", "yuv420p"];
    commands := commands + ["-c:a", "aac"];
    commands := commands + ["-b:a", "128k"];
    commands := commands + ["-r", "30"];
    commands := commands + ["-f", "mp4"];
    commands := commands + ["-movflags", "+faststart"];
    commands := commands + [outputFile];
  }
}
