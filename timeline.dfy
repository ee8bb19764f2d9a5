/** The animation of the job-alert video: per frame, the background fade,
    the slide-in of each text layer, the pulse window and the frame file
    name. Times are seconds as exact reals; the floating-point rounding of
    the original arithmetic is not modelled. */
module Timeline {
  import opened Wrappers
  import opened Strings

  const Fps: nat := 30
  const DurationSeconds: nat := 30
  /** `fps * duration`, the number of frames rendered. */
  const TotalFrames: nat := Fps * DurationSeconds

  const BgFadeStart: real := 0.2
  const BgFadeEnd: real := 1.0
  /** How long a text layer takes to fade and slide in. */
  const AnimDuration: real := 0.6

  /** Time of frame `i`: `frame / fps`. */
  function FrameTime(i: int): real
  {
    i as real / Fps as real
  }

  // --------------------------------------------------------------- easing

  /** `easeOutCubic(t) = 1 - (1 - t)^3`. */
  function EaseOutCubic(t: real): real
  {
    var u := 1.0 - t;
    1.0 - u * u * u
  }

  lemma CubeMonotone(v: real, u: real)
    requires 0.0 <= v <= u
    ensures 0.0 <= v * v * v <= u * u * u
  {
    assert 0.0 <= v * v <= v * u <= u * u;
    assert v * v * v <= u * u * v <= u * u * u;
  }

  /** The easing starts at 0, ends at 1, stays within [0, 1] in between and
      never decreases there. */
  lemma EaseOutCubicShape(s: real, t: real)
    requires 0.0 <= s <= t <= 1.0
    ensures EaseOutCubic(0.0) == 0.0 && EaseOutCubic(1.0) == 1.0
    ensures 0.0 <= EaseOutCubic(s) <= EaseOutCubic(t) <= 1.0
  {
    CubeMonotone(1.0 - t, 1.0 - s);
    CubeMonotone(1.0 - s, 1.0);
  }

  // ----------------------------------------------------------- background

  /** Opacity of the background image at time `t`, `None` when it is not
      drawn. */
  function BackgroundAlpha(t: real): Option<real>
  {
    if t < BgFadeStart then None
    else if t < BgFadeEnd then Some((t - BgFadeStart) / (BgFadeEnd - BgFadeStart))
    else Some(1.0)
  }

  /** The background is absent before 0.2 s, ramps linearly within [0, 1)
      until 1 s and is fully opaque from then on; the ramp never goes
      back. */
  lemma BackgroundFade(s: real, t: real)
    requires s <= t
    ensures BackgroundAlpha(t).None? <==> t < 0.2
    ensures BackgroundAlpha(t).Some? ==> 0.0 <= BackgroundAlpha(t).value <= 1.0
    ensures BackgroundAlpha(t) == Some(1.0) <==> t >= 1.0
    ensures BackgroundAlpha(s).Some? ==> BackgroundAlpha(t).Some? && BackgroundAlpha(s).value <= BackgroundAlpha(t).value
    ensures BackgroundAlpha(0.2) == Some(0.0)
  {
  }

  /** At frame 24 (0.8 s) the background is three quarters opaque. */
  lemma BackgroundAtFrame24()
    ensures BackgroundAlpha(FrameTime(24)) == Some(0.75)
  {
    assert FrameTime(24) == 0.8;
  }

  // ---------------------------------------------------------- text layers

  /** Opacity and slide offset of a drawn text. */
  datatype Pose = Pose(alpha: real, offsetX: real, offsetY: real)

  /** `animateText` at time `t` for a layer starting at `start`: `None` when
      the text is not drawn yet. */
  function LayerPose(start: real, direction: string, t: real): Option<Pose>
  {
    if t < start then None
    else if t < start + AnimDuration then
      var e := EaseOutCubic((t - start) / AnimDuration);
      if direction == "up" then Some(Pose(e, 0.0, (1.0 - e) * 30.0))
      else if direction == "left" then Some(Pose(e, (1.0 - e) * 50.0, 0.0))
      else if direction == "right" then Some(Pose(e, -(1.0 - e) * 50.0, 0.0))
      else Some(Pose(e, 0.0, 0.0))
    else Some(Pose(1.0, 0.0, 0.0))
  }

  /** A layer is drawn from its start time on, with an opacity in [0, 1]; it
      slides in from 30 px below ("up"), 50 px to the right ("left") or 50 px
      to the left ("right"), the remaining distance shrinking as the opacity
      grows; from 0.6 s after its start it rests opaque at its place. */
  lemma LayerPoseSpec(start: real, direction: string, t: real)
    ensures LayerPose(start, direction, t).None? <==> t < start
    ensures LayerPose(start, direction, t).Some? ==>
      var p := LayerPose(start, direction, t).value;
      && 0.0 <= p.alpha <= 1.0
      && (direction == "up" ==> p.offsetX == 0.0 && p.offsetY == (1.0 - p.alpha) * 30.0)
      && (direction == "left" ==> p.offsetY == 0.0 && p.offsetX == (1.0 - p.alpha) * 50.0)
      && (direction == "right" ==> p.offsetY == 0.0 && p.offsetX == -(1.0 - p.alpha) * 50.0)
      && (direction !in {"up", "left", "right"} ==> p.offsetX == 0.0 && p.offsetY == 0.0)
    ensures t >= start + 0.6 ==> LayerPose(start, direction, t) == Some(Pose(1.0, 0.0, 0.0))
    ensures LayerPose(start, direction, start).value.alpha == 0.0
    ensures direction == "up" ==> LayerPose(start, direction, start) == Some(Pose(0.0, 0.0, 30.0))
    ensures direction == "left" ==> LayerPose(start, direction, start) == Some(Pose(0.0, 50.0, 0.0))
    ensures direction == "right" ==> LayerPose(start, direction, start) == Some(Pose(0.0, -50.0, 0.0))
  {
    EaseOutCubicShape(0.0, 0.0);
    if start <= t < start + AnimDuration {
      var q := (t - start) / AnimDuration;
      assert q * AnimDuration == t - start;
      EaseOutCubicShape(q, q);
    }
  }

  /** A layer never fades back out. */
  lemma LayerAlphaMonotone(start: real, direction: string, s: real, t: real)
    requires start <= s <= t
    ensures LayerPose(start, direction, s).value.alpha <= LayerPose(start, direction, t).value.alpha
  {
    var qs := (s - start) / AnimDuration;
    var qt := (t - start) / AnimDuration;
    assert qs * AnimDuration == s - start;
    assert qt * AnimDuration == t - start;
    if t < start + AnimDuration {
      EaseOutCubicShape(qs, qt);
    } else if s < start + AnimDuration {
      EaseOutCubicShape(qs, 1.0);
    }
  }

  /** One `animateText` call site. */
  datatype TextLayer = TextLayer(text: string, x: real, y: real, start: real, font: string, color: string, direction: string)

  /** The texts of the video, in drawing order, for the given date text. */
  function JobLayers(companyName: string, designation: string, location: string, batch: string,
                     applyLink: string, dateText: string): (layers: seq<TextLayer>)
  {
    [ TextLayer(dateText, 100.0, 240.0, 0.3, "bold 24px Arial, sans-serif", "#7C7C7C", "left"),
      TextLayer("Job Alert!", 100.0, 300.0, 0.7, "bold 56px Arial, sans-serif", "#D40B0B", "up"),
      TextLayer(companyName + " is Hiring", 100.0, 400.0, 1.1, "bold 48px Arial, sans-serif", "#2C2C2C", "right"),
      TextLayer(designation, 100.0, 455.0, 1.5, "bold 48px Arial, sans-serif", "#0736FE", "left"),
      TextLayer("Location: " + location, 100.0, 580.0, 2.0, "bold 40px Arial, sans-serif", "#2C2C2C", "up"),
      TextLayer("Batch: " + batch, 100.0, 630.0, 2.0 + 0.3, "bold 40px Arial, sans-serif", "#2C2C2C", "up"),
      TextLayer("Apply: " + applyLink, 100.0, 680.0, 2.0 + 0.6, "bold 40px Arial, sans-serif", "#2C2C2C", "up") ]
  }

  /** A `fillText` call: text, position, opacity, font and colour. */
  datatype DrawnText = DrawnText(text: string, x: real, y: real, alpha: real, font: string, color: string)

  /** The texts drawn at time `t`, in call order. */
  function DrawLayers(layers: seq<TextLayer>, t: real): seq<DrawnText>
  {
    if layers == [] then []
    else
      var l := layers[0];
      var rest := DrawLayers(layers[1..], t);
      match LayerPose(l.start, l.direction, t)
      case None => rest
      case Some(p) => [DrawnText(l.text, l.x + p.offsetX, l.y + p.offsetY, p.alpha, l.font, l.color)] + rest
  }

  /** The layers whose start time has come, in drawing order. */
  function StartedLayers(layers: seq<TextLayer>, t: real): (r: seq<TextLayer>)
    ensures |r| <= |layers|
    ensures forall l :: l in r <==> l in layers && l.start <= t
  {
    if layers == [] then []
    else
      assert forall l :: l in layers <==> l == layers[0] || l in layers[1..];
      (if layers[0].start <= t then [layers[0]] else []) + StartedLayers(layers[1..], t)
  }

  /** Exactly the layers that have started are drawn, in order, each with its
      own text, font and colour. */
  lemma {:induction false} DrawnLayersAreStarted(layers: seq<TextLayer>, t: real)
    ensures |DrawLayers(layers, t)| == |StartedLayers(layers, t)|
    ensures forall i :: 0 <= i < |DrawLayers(layers, t)| ==>
      var d, l := DrawLayers(layers, t)[i], StartedLayers(layers, t)[i];
      d.text == l.text && d.font == l.font && d.color == l.color
  {
    if layers != [] {
      DrawnLayersAreStarted(layers[1..], t);
      DrawFirstLayer(layers, t);
      if t < layers[0].start {
        assert StartedLayers(layers, t) == StartedLayers(layers[1..], t);
      } else {
        assert StartedLayers(layers, t) == [layers[0]] + StartedLayers(layers[1..], t);
      }
    }
  }

  /** One step of `DrawLayers`: the first layer is drawn, with its own text,
      font and colour, exactly when it has started. */
  lemma DrawFirstLayer(layers: seq<TextLayer>, t: real)
    requires layers != []
    ensures t < layers[0].start ==> DrawLayers(layers, t) == DrawLayers(layers[1..], t)
    ensures layers[0].start <= t ==>
      var d := DrawLayers(layers, t);
      && |d| == 1 + |DrawLayers(layers[1..], t)| && d[1..] == DrawLayers(layers[1..], t)
      && d[0].text == layers[0].text && d[0].font == layers[0].font && d[0].color == layers[0].color
  {
  }

  /** A layer drawn once stays drawn, and more are drawn as time goes on. */
  lemma {:induction false} DrawnLayersGrow(layers: seq<TextLayer>, s: real, t: real)
    requires s <= t
    ensures forall l :: l in StartedLayers(layers, s) ==> l in StartedLayers(layers, t)
    ensures |DrawLayers(layers, s)| <= |DrawLayers(layers, t)| <= |layers|
    ensures |DrawLayers(layers, t)| == |layers| <==> forall k :: 0 <= k < |layers| ==> layers[k].start <= t
    ensures DrawLayers(layers, t) == [] <==> forall k :: 0 <= k < |layers| ==> t < layers[k].start
  {
    if layers != [] {
      DrawnLayersGrow(layers[1..], s, t);
      assert forall k :: 1 <= k < |layers| ==> layers[k] == layers[1..][k - 1];
      if forall k :: 0 <= k < |layers| ==> layers[k].start <= t {
        assert forall k :: 0 <= k < |layers[1..]| ==> layers[1..][k].start <= t;
      }
      if forall k :: 0 <= k < |layers| ==> t < layers[k].start {
        assert forall k :: 0 <= k < |layers[1..]| ==> t < layers[1..][k].start;
      }
    }
  }

  /** Once every layer has finished its animation, each is drawn opaque
      exactly at its own position. */
  lemma {:induction false} SettledLayers(layers: seq<TextLayer>, t: real)
    requires forall k :: 0 <= k < |layers| ==> layers[k].start + 0.6 <= t
    ensures DrawLayers(layers, t) ==
      seq(|layers|, k requires 0 <= k < |layers| =>
        DrawnText(layers[k].text, layers[k].x, layers[k].y, 1.0, layers[k].font, layers[k].color))
  {
    if layers != [] {
      assert forall k :: 0 <= k < |layers[1..]| ==> layers[1..][k].start + 0.6 <= t by {
        forall k | 0 <= k < |layers[1..]| ensures layers[1..][k].start + 0.6 <= t {
          assert layers[1..][k] == layers[k + 1];
        }
      }
      SettledLayers(layers[1..], t);
      LayerPoseSpec(layers[0].start, layers[0].direction, t);
    }
  }

  // --------------------------------------------------------------- frames

  /** The pulse, a second translucent "Job Alert!", is drawn strictly
      between 10 s and 25 s. */
  predicate PulseActive(t: real)
  {
    10.0 < t && t < 25.0
  }

  /** What one frame shows. */
  datatype Scene = Scene(background: Option<real>, texts: seq<DrawnText>, pulse: bool)

  function SceneAt(layers: seq<TextLayer>, t: real): Scene
  {
    Scene(BackgroundAlpha(t), DrawLayers(layers, t), PulseActive(t))
  }

  /** The pulse is drawn on frames 301 to 749. */
  lemma PulseFrames(i: int)
    ensures PulseActive(FrameTime(i)) <==> 300 < i < 750
  {
  }

  /** The first frame is plain white; from 3.2 s on the whole card is in
      place: full background, all seven texts opaque at their positions. */
  lemma OpeningAndSettledScenes(companyName: string, designation: string, location: string, batch: string,
                                applyLink: string, dateText: string, t: real)
    requires t >= 3.2
    ensures var layers := JobLayers(companyName, designation, location, batch, applyLink, dateText);
      && SceneAt(layers, FrameTime(0)) == Scene(None, [], false)
      && SceneAt(layers, t).background == Some(1.0)
      && |SceneAt(layers, t).texts| == 7
      && forall k :: 0 <= k < 7 ==>
           SceneAt(layers, t).texts[k] ==
             DrawnText(layers[k].text, layers[k].x, layers[k].y, 1.0, layers[k].font, layers[k].color)
  {
    var layers := JobLayers(companyName, designation, location, batch, applyLink, dateText);
    DrawnLayersGrow(layers, FrameTime(0), FrameTime(0));
    SettledLayers(layers, t);
  }

  // ------------------------------------------------------------ file names

  /** `frame_${String(frame).padStart(6, '0')}.png`. */
  function FrameFileName(i: nat): string
  {
    "frame_" + PadStart(Decimal(i), 6, '0') + ".png"
  }

  /** The frame number written in a frame file name. */
  function FrameIndexOf(name: string): Option<nat>
  {
    if |name| == 16 && name[..6] == "frame_" && name[12..] == ".png" && AllDigits(name[6..12])
    then Some(ParseDecimal(name[6..12]))
    else None
  }

  /** Every frame of the video gets a name of the `frame_%06d.png` shape the
      encoder reads, from which its number is recovered. */
  lemma FrameFileNameRoundTrip(i: nat)
    requires i < TotalFrames
    ensures |FrameFileName(i)| == 16
    ensures FrameIndexOf(FrameFileName(i)) == Some(i)
  {
    var p := PaddedFrameNumber(i);
    var name := FrameFileName(i);
    assert name == "frame_" + p + ".png";
    assert name[6..12] == p;
    assert name[..6] == "frame_";
    assert name[12..] == ".png";
  }

  /** The frame number padded to six digits reads back as the number. */
  lemma PaddedFrameNumber(i: nat) returns (p: string)
    requires i < TotalFrames
    ensures p == PadStart(Decimal(i), 6, '0')
    ensures |p| == 6 && AllDigits(p) && ParseDecimal(p) == i
  {
    var d := Decimal(i);
    assert Pow10(6) == 1000000;
    DecimalLength(i, 6, Pow10(6));
    p := PadStart(d, 6, '0');
    var z := Repeat('0', 6 - |d|);
    assert p == z + d;
    ParseDecimalLeadingZeros(6 - |d|, d);
    ParseDecimalOfDecimal(i);
  }

  /** Different frames are written to different files. */
  lemma FrameFileNamesDistinct(i: nat, j: nat)
    requires i < TotalFrames && j < TotalFrames && i != j
    ensures FrameFileName(i) != FrameFileName(j)
  {
    FrameFileNameRoundTrip(i);
    FrameFileNameRoundTrip(j);
  }
}
