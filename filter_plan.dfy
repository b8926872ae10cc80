/**
 * The pure core of `process_video`: from the probed size, the user's
 * placement and text settings and an optional watermark image, the filter
 * graph and the ffmpeg argument list. The plan is first stated as typed
 * fragments (each with its input and output labels) and then serialized to
 * ffmpeg's textual filter syntax; BuildCommand builds the same argument list
 * by appending, as the source does, and is proved equal to it.
 */
module FilterPlan {
  import opened Wrappers
  import opened Strings
  import opened Positions
  import opened Settings

  // ---------------------------------------------------------------------------
  // Probed dimensions
  // ---------------------------------------------------------------------------

  /** One metadata field: absent, read as an integer, or present but failing int(). */
  datatype ProbeField = Missing | Readable(n: int) | Unreadable

  /** What the metadata parser yields for the downloaded file. */
  datatype Probe = NoMetadata | Metadata(width: ProbeField, height: ProbeField)

  const DefaultWidth := 1280
  const DefaultHeight := 720

  /**
   * Width and height, defaulting to 1280x720. An unreadable width raises
   * before the height is read, so the height keeps its default too.
   */
  function Dimensions(probe: Probe): (int, int)
  {
    match probe
    case NoMetadata => (DefaultWidth, DefaultHeight)
    case Metadata(w, h) =>
      if w.Unreadable? then (DefaultWidth, DefaultHeight)
      else
        var width := if w.Readable? then w.n else DefaultWidth;
        var height := if h.Readable? then h.n else DefaultHeight;
        (width, height)
  }

  /** Without usable metadata the job uses 1280x720. */
  lemma DimensionsDefault(probe: Probe)
    requires probe.NoMetadata? || probe == Metadata(Missing, Missing)
    ensures Dimensions(probe) == (1280, 720)
  {
  }

  // ---------------------------------------------------------------------------
  // Watermark size
  // ---------------------------------------------------------------------------

  /** Python's int(a / b) for b > 0: the quotient truncated toward zero. */
  function TruncDiv(a: int, b: int): int
    requires b > 0
  {
    if a >= 0 then a / b else -((-a) / b)
  }

  /** max(1, int(dim * percent / 100)) */
  function ScaledDim(dim: int, percent: int): int
  {
    var q := TruncDiv(dim * percent, 100);
    if q < 1 then 1 else q
  }

  /**
   * The scaled size is at least one pixel; when the product reaches 100 it is
   * the floor of dim * percent / 100.
   */
  lemma ScaledDimSpec(dim: int, percent: int)
    ensures ScaledDim(dim, percent) >= 1
    ensures dim * percent < 100 ==> ScaledDim(dim, percent) == 1
    ensures dim * percent >= 100 ==>
      ScaledDim(dim, percent) * 100 <= dim * percent < (ScaledDim(dim, percent) + 1) * 100
  {
  }

  /** 1280x720 at 50 percent gives 640x360; 1x1 at 1 percent clamps to 1x1. */
  lemma ScaledDimExamples()
    ensures ScaledDim(1280, 50) == 640 && ScaledDim(720, 50) == 360
    ensures ScaledDim(1, 1) == 1
  {
  }

  // ---------------------------------------------------------------------------
  // Typed filter plan
  // ---------------------------------------------------------------------------

  /** The stream labels of the graph: the two inputs and the three intermediate or final outputs. */
  datatype Label = Video0 | Image1 | BaseLabel | WmLabel | OutLabel

  function LabelText(l: Label): string
  {
    match l
    case Video0 => "[0:v]"
    case Image1 => "[1:v]"
    case BaseLabel => "[base]"
    case WmLabel => "[wm]"
    case OutLabel => "[v]"
  }

  /** One filter of the graph, with its input and output labels. */
  datatype Fragment =
    | DrawText(input: Label, text: string, color: string, fontSize: int, x: string, y: string, output: Label)
    | Scale(input: Label, w: int, h: int, output: Label)
    | Overlay(main: Label, over: Label, position: string, output: Label)

  function Inputs(f: Fragment): seq<Label>
  {
    match f
    case DrawText(i, _, _, _, _, _, _) => [i]
    case Scale(i, _, _, _) => [i]
    case Overlay(m, o, _, _) => [m, o]
  }

  function Output(f: Fragment): Label
  {
    f.output
  }

  /** The ordered fragments and the label mapped to the output video. */
  datatype Plan = Plan(fragments: seq<Fragment>, sink: Label)

  /** Everything `process_video` reads once the store, the probe and the upload are done. */
  datatype Job = Job(
    probe: Probe,
    placement: Placement,
    text: TextSettings,
    watermark: Option<string>,
    inputPath: string,
    outputPath: string,
    preset: string)

  /** `if use_text and text:` */
  predicate TextActive(t: TextSettings)
  {
    t.use && t.text != ""
  }

  /** `if wm_path:` (an empty path counts as none). */
  predicate HasWatermark(wm: Option<string>)
  {
    wm.Some? && wm.value != ""
  }

  /**
   * The filter plan for the given text settings and watermark path, at the
   * given position expression, probed size and scale percentage.
   */
  function FilterGraph(t: TextSettings, wm: Option<string>, position: string, width: int, height: int, percent: int): Plan
  {
    var xy := XY(position);
    var draw :=
      if TextActive(t)
      then [DrawText(Video0, t.text, t.color, t.size, xy.0, xy.1, BaseLabel)]
      else [];
    var main := if TextActive(t) then BaseLabel else Video0;
    if HasWatermark(wm) then
      Plan(draw + [Scale(Image1, ScaledDim(width, percent), ScaledDim(height, percent), WmLabel),
                   Overlay(main, WmLabel, position, OutLabel)],
           OutLabel)
    else Plan(draw, main)
  }

  /** The filter plan of a job: its anchor looked up, its size probed. */
  function BuildPlan(job: Job): Plan
  {
    var dims := Dimensions(job.probe);
    FilterGraph(job.text, job.watermark, Lookup(job.placement.position), dims.0, dims.1, job.placement.size)
  }

  /** The labels the fragments read, in order. */
  function Consumed(fs: seq<Fragment>): seq<Label>
  {
    if fs == [] then [] else Inputs(fs[0]) + Consumed(fs[1..])
  }

  predicate Distinct(ls: seq<Label>)
  {
    forall a, b :: 0 <= a < b < |ls| ==> ls[a] != ls[b]
  }

  /**
   * Each fragment reads only labels in `defined` (the source streams and the
   * outputs of earlier fragments) and defines a label not defined before.
   */
  predicate DefinedBeforeUse(defined: set<Label>, fs: seq<Fragment>)
    decreases |fs|
  {
    fs == [] ||
    (&& (forall l :: l in Inputs(fs[0]) ==> l in defined)
     && Output(fs[0]) !in defined
     && DefinedBeforeUse(defined + {Output(fs[0])}, fs[1..]))
  }

  /**
   * A well-formed graph: labels are defined before they are read, no label
   * is read twice, the sink is the last output (the source video when there
   * are no fragments) and nothing reads the sink.
   */
  predicate WellChained(p: Plan)
  {
    && DefinedBeforeUse({Video0, Image1}, p.fragments)
    && Distinct(Consumed(p.fragments))
    && (if p.fragments == [] then p.sink == Video0 else p.sink == Output(p.fragments[|p.fragments| - 1]))
    && p.sink !in Consumed(p.fragments)
  }

  /** The four shapes of the plan, with the labels each fragment reads and writes. */
  lemma PlanShape(job: Job)
    ensures var p := BuildPlan(job);
      var position := Lookup(job.placement.position);
      var dims := Dimensions(job.probe);
      var w := ScaledDim(dims.0, job.placement.size);
      var h := ScaledDim(dims.1, job.placement.size);
      var draw := DrawText(Video0, job.text.text, job.text.color, job.text.size,
                           XY(position).0, XY(position).1, BaseLabel);
      && (!TextActive(job.text) && !HasWatermark(job.watermark) ==> p == Plan([], Video0))
      && (TextActive(job.text) && !HasWatermark(job.watermark) ==> p == Plan([draw], BaseLabel))
      && (!TextActive(job.text) && HasWatermark(job.watermark) ==>
            p == Plan([Scale(Image1, w, h, WmLabel), Overlay(Video0, WmLabel, position, OutLabel)], OutLabel))
      && (TextActive(job.text) && HasWatermark(job.watermark) ==>
            p == Plan([draw, Scale(Image1, w, h, WmLabel), Overlay(BaseLabel, WmLabel, position, OutLabel)], OutLabel))
  {
    var dims := Dimensions(job.probe);
    FilterGraphShape(job.text, job.watermark, Lookup(job.placement.position), dims.0, dims.1, job.placement.size);
  }

  /** PlanShape for any position expression and size. */
  lemma FilterGraphShape(t: TextSettings, wm: Option<string>, position: string, width: int, height: int, percent: int)
    ensures var p := FilterGraph(t, wm, position, width, height, percent);
      var w := ScaledDim(width, percent);
      var h := ScaledDim(height, percent);
      var draw := DrawText(Video0, t.text, t.color, t.size, XY(position).0, XY(position).1, BaseLabel);
      && (!TextActive(t) && !HasWatermark(wm) ==> p == Plan([], Video0))
      && (TextActive(t) && !HasWatermark(wm) ==> p == Plan([draw], BaseLabel))
      && (!TextActive(t) && HasWatermark(wm) ==>
            p == Plan([Scale(Image1, w, h, WmLabel), Overlay(Video0, WmLabel, position, OutLabel)], OutLabel))
      && (TextActive(t) && HasWatermark(wm) ==>
            p == Plan([draw, Scale(Image1, w, h, WmLabel), Overlay(BaseLabel, WmLabel, position, OutLabel)], OutLabel))
  {
  }

  /** A drawtext fragment is emitted exactly when the overlay is on and the text is non-empty. */
  lemma DrawTextIffActive(job: Job)
    ensures (exists i :: 0 <= i < |BuildPlan(job).fragments| && BuildPlan(job).fragments[i].DrawText?)
            <==> TextActive(job.text)
  {
    var dims := Dimensions(job.probe);
    var position := Lookup(job.placement.position);
    assert BuildPlan(job) == FilterGraph(job.text, job.watermark, position, dims.0, dims.1, job.placement.size);
    FilterGraphDrawText(job.text, job.watermark, position, dims.0, dims.1, job.placement.size);
  }

  /** DrawTextIffActive for any position expression and size. */
  lemma FilterGraphDrawText(t: TextSettings, wm: Option<string>, position: string, width: int, height: int, percent: int)
    ensures var fs := FilterGraph(t, wm, position, width, height, percent).fragments;
      (exists i :: 0 <= i < |fs| && fs[i].DrawText?) <==> TextActive(t)
  {
    FilterGraphShape(t, wm, position, width, height, percent);
    var fs := FilterGraph(t, wm, position, width, height, percent).fragments;
    if TextActive(t) {
      assert fs[0].DrawText?;
    } else {
      forall i | 0 <= i < |fs|
        ensures !fs[i].DrawText?
      {
      }
    }
  }

  /** The sink is [v] with an image, else [base] with text, else the source video. */
  lemma PlanSink(job: Job)
    ensures BuildPlan(job).sink ==
      if HasWatermark(job.watermark) then OutLabel
      else if TextActive(job.text) then BaseLabel
      else Video0
  {
  }

  /** Text and image: drawtext [0:v] -> [base], scale [1:v] -> [wm], overlay [base][wm] -> [v]. */
  lemma ChainTextAndImage(d: Fragment, sc: Fragment, o: Fragment)
    requires d.DrawText? && d.input == Video0 && d.output == BaseLabel
    requires sc.Scale? && sc.input == Image1 && sc.output == WmLabel
    requires o.Overlay? && o.main == BaseLabel && o.over == WmLabel && o.output == OutLabel
    ensures WellChained(Plan([d, sc, o], OutLabel))
  {
    var fs := [d, sc, o];
    assert fs[1..] == [sc, o] && fs[1..][1..] == [o];
    assert DefinedBeforeUse({Video0, Image1, BaseLabel, WmLabel}, [o]);
    assert DefinedBeforeUse({Video0, Image1, BaseLabel}, [sc, o]);
    assert {Video0, Image1} + {BaseLabel} == {Video0, Image1, BaseLabel};
    assert DefinedBeforeUse({Video0, Image1}, fs);
    assert Consumed([o]) == [BaseLabel, WmLabel];
    assert Consumed([sc, o]) == [Image1, BaseLabel, WmLabel];
    assert Consumed(fs) == [Video0, Image1, BaseLabel, WmLabel];
  }

  /** Image only: scale [1:v] -> [wm], overlay [0:v][wm] -> [v]. */
  lemma ChainImage(sc: Fragment, o: Fragment)
    requires sc.Scale? && sc.input == Image1 && sc.output == WmLabel
    requires o.Overlay? && o.main == Video0 && o.over == WmLabel && o.output == OutLabel
    ensures WellChained(Plan([sc, o], OutLabel))
  {
    var fs := [sc, o];
    assert fs[1..] == [o];
    assert DefinedBeforeUse({Video0, Image1, WmLabel}, [o]);
    assert {Video0, Image1} + {WmLabel} == {Video0, Image1, WmLabel};
    assert DefinedBeforeUse({Video0, Image1}, fs);
    assert Consumed([o]) == [Video0, WmLabel];
    assert Consumed(fs) == [Image1, Video0, WmLabel];
  }

  /** Text only: drawtext [0:v] -> [base]. */
  lemma ChainText(d: Fragment)
    requires d.DrawText? && d.input == Video0 && d.output == BaseLabel
    ensures WellChained(Plan([d], BaseLabel))
  {
    assert [d][1..] == [];
    assert Consumed([d]) == [Video0];
  }

  /** Every plan the builder makes is a well-formed linear chain. */
  lemma PlanWellChained(job: Job)
    ensures WellChained(BuildPlan(job))
  {
    PlanShape(job);
    var fs := BuildPlan(job).fragments;
    if TextActive(job.text) && HasWatermark(job.watermark) {
      ChainTextAndImage(fs[0], fs[1], fs[2]);
    } else if HasWatermark(job.watermark) {
      ChainImage(fs[0], fs[1]);
    } else if TextActive(job.text) {
      ChainText(fs[0]);
    }
  }

  // ---------------------------------------------------------------------------
  // Serialization to ffmpeg's filter syntax and the argument list
  // ---------------------------------------------------------------------------

  /** The options of a drawtext filter, in the order the source writes them; the text comes escaped. */
  function DrawTextOptions(safeText: string, color: string, size: int, x: string, y: string): string
  {
    "drawtext=fontfile=/usr/share/fonts/truetype/dejavu/DejaVuSans.ttf:"
    + "text='" + safeText + "':"
    + "fontcolor=" + color + ":"
    + "fontsize=" + IntToString(size) + ":"
    + "x=" + x + ":"
    + "y=" + y
  }

  /** The textual form of one fragment: input labels, filter, output label. */
  function Render(f: Fragment): string
  {
    match f
    case DrawText(i, text, color, size, x, y, o) =>
      LabelText(i) + DrawTextOptions(Escape(text), color, size, x, y) + LabelText(o)
    case Scale(i, w, h, o) =>
      LabelText(i) + "scale=" + IntToString(w) + ":" + IntToString(h) + LabelText(o)
    case Overlay(m, over, position, o) =>
      LabelText(m) + LabelText(over) + "overlay=" + position + LabelText(o)
  }

  /** The filter strings of a fragment list, in order. */
  function RenderAll(fs: seq<Fragment>): (r: seq<string>)
    ensures |r| == |fs|
  {
    if fs == [] then [] else [Render(fs[0])] + RenderAll(fs[1..])
  }

  /** `f"watermarked_{message.message_id}.mp4"` */
  function OutputPath(messageId: int): string
  {
    "watermarked_" + IntToString(messageId) + ".mp4"
  }

  /** The audio mapping, encoding options and output path both branches end with. */
  function EncodeArgs(job: Job): seq<string>
  {
    ["-map", "0:a?", "-c:v", "libx264", "-preset", job.preset, "-c:a", "copy", job.outputPath]
  }

  /** The ffmpeg argument list of a job, from its serialized plan. */
  function Command(job: Job): seq<string>
  {
    Assemble(job, BuildPlan(job))
  }

  /** The argument list around a given plan: inputs, filter graph and mapping, encoding options. */
  function Assemble(job: Job, p: Plan): seq<string>
  {
    var video := ["ffmpeg", "-y", "-i", job.inputPath];
    var inputs := if HasWatermark(job.watermark) then video + ["-i", job.watermark.value] else video;
    var mapping :=
      if p.fragments != []
      then ["-filter_complex", Join(";", RenderAll(p.fragments)), "-map", LabelText(p.sink)]
      else ["-map", "0:v"];
    inputs + mapping + EncodeArgs(job)
  }

  /**
   * The shape of every command: the main input, the watermark input when
   * there is one, then `-filter_complex <graph> -map <sink>` exactly when the
   * plan has fragments (else `-map 0:v`), then the audio mapping, encoding
   * options and the output path.
   */
  lemma CommandShape(job: Job)
    ensures var cmd := Command(job);
      var p := BuildPlan(job);
      var k := if HasWatermark(job.watermark) then 6 else 4;
      && |cmd| == k + (if p.fragments != [] then 4 else 2) + 9
      && cmd[..4] == ["ffmpeg", "-y", "-i", job.inputPath]
      && (HasWatermark(job.watermark) ==> cmd[4..6] == ["-i", job.watermark.value])
      && (cmd[k] == "-filter_complex" <==> p.fragments != [])
      && (p.fragments != [] ==>
            cmd[k..k + 4] == ["-filter_complex", Join(";", RenderAll(p.fragments)), "-map", LabelText(p.sink)])
      && (p.fragments == [] ==> cmd[k..k + 2] == ["-map", "0:v"])
      && cmd[|cmd| - 9..] == ["-map", "0:a?", "-c:v", "libx264", "-preset", job.preset, "-c:a", "copy", job.outputPath]
  {
    AssembleShape(job, BuildPlan(job));
  }

  /** CommandShape for any plan. */
  lemma AssembleShape(job: Job, p: Plan)
    ensures var cmd := Assemble(job, p);
      var k := if HasWatermark(job.watermark) then 6 else 4;
      && |cmd| == k + (if p.fragments != [] then 4 else 2) + 9
      && cmd[..4] == ["ffmpeg", "-y", "-i", job.inputPath]
      && (HasWatermark(job.watermark) ==> cmd[4..6] == ["-i", job.watermark.value])
      && (cmd[k] == "-filter_complex" <==> p.fragments != [])
      && (p.fragments != [] ==>
            cmd[k..k + 4] == ["-filter_complex", Join(";", RenderAll(p.fragments)), "-map", LabelText(p.sink)])
      && (p.fragments == [] ==> cmd[k..k + 2] == ["-map", "0:v"])
      && cmd[|cmd| - 9..] == ["-map", "0:a?", "-c:v", "libx264", "-preset", job.preset, "-c:a", "copy", job.outputPath]
  {
    var cmd := Assemble(job, p);
    var video := ["ffmpeg", "-y", "-i", job.inputPath];
    var mapping :=
      if p.fragments != []
      then ["-filter_complex", Join(";", RenderAll(p.fragments)), "-map", LabelText(p.sink)]
      else ["-map", "0:v"];
    if HasWatermark(job.watermark) {
      var extra := ["-i", job.watermark.value];
      assert cmd == video + extra + mapping + EncodeArgs(job);
      Slices4(video, extra, mapping, EncodeArgs(job));
    } else {
      assert cmd == video + mapping + EncodeArgs(job);
      Slices3(video, mapping, EncodeArgs(job));
    }
  }

  /** Helper for AssembleShape: the three parts of a + b + c are found back at their offsets. */
  lemma Slices3<T>(a: seq<T>, b: seq<T>, c: seq<T>)
    ensures var s := a + b + c;
      && |s| == |a| + |b| + |c|
      && s[..|a|] == a
      && s[|a|..|a| + |b|] == b
      && s[|s| - |c|..] == c
  {
  }

  /** Helper for AssembleShape: the four parts of a + b + c + d are found back at their offsets. */
  lemma Slices4<T>(a: seq<T>, b: seq<T>, c: seq<T>, d: seq<T>)
    ensures var s := a + b + c + d;
      && |s| == |a| + |b| + |c| + |d|
      && s[..|a|] == a
      && s[|a|..|a| + |b|] == b
      && s[|a| + |b|..|a| + |b| + |c|] == c
      && s[|s| - |d|..] == d
  {
  }

  /** With neither overlay active the command maps the source video straight through. */
  lemma PassthroughCommand(job: Job)
    requires !TextActive(job.text) && !HasWatermark(job.watermark)
    ensures Command(job) == ["ffmpeg", "-y", "-i", job.inputPath, "-map", "0:v", "-map", "0:a?", "-c:v", "libx264",
                             "-preset", job.preset, "-c:a", "copy", job.outputPath]
  {
  }

  /**
   * With the overlay on, the first filter is the drawtext filter on [0:v]
   * writing [base]: the quote-escaped text, the colour and size as stored, and
   * the anchor's x and y, which rejoined by a colon give the anchor's
   * expression back.
   */
  lemma DrawTextFilter(job: Job)
    requires TextActive(job.text)
    ensures var fs := BuildPlan(job).fragments;
      var xy := XY(Lookup(job.placement.position));
      && |fs| > 0
      && Render(fs[0]) == "[0:v]" + DrawTextOptions(Escape(job.text.text), job.text.color, job.text.size, xy.0, xy.1) + "[base]"
      && xy.0 + ":" + xy.1 == Lookup(job.placement.position)
      && QuotesEscaped(Escape(job.text.text))
      && Unescape(Escape(job.text.text)) == job.text.text
  {
    var dims := Dimensions(job.probe);
    var position := Lookup(job.placement.position);
    var xy := XY(position);
    FirstFragmentIsDrawText(job.text, job.watermark, position, dims.0, dims.1, job.placement.size);
    DrawTextRendered(job.text.text, job.text.color, job.text.size, xy.0, xy.1);
    LookupXY(job.placement.position);
    EscapeQuotesEscaped(job.text.text);
    UnescapeEscape(job.text.text);
  }

  /** Helper for DrawTextFilter: with text active the plan starts with the drawtext fragment. */
  lemma FirstFragmentIsDrawText(t: TextSettings, wm: Option<string>, position: string, width: int, height: int, percent: int)
    requires TextActive(t)
    ensures var fs := FilterGraph(t, wm, position, width, height, percent).fragments;
      |fs| > 0 && fs[0] == DrawText(Video0, t.text, t.color, t.size, XY(position).0, XY(position).1, BaseLabel)
  {
  }

  /** Helper for BuildFilters: the drawtext filter string as the source templates it is the one the plan renders. */
  lemma DrawTextRendered(text: string, color: string, size: int, x: string, y: string)
    ensures "[0:v]" + DrawTextOptions(Escape(text), color, size, x, y) + "[base]"
         == Render(DrawText(Video0, text, color, size, x, y, BaseLabel))
  {
  }

  /** Helper for BuildFilters: the scale and overlay filter strings as the source templates them are the ones the plan renders. */
  lemma ImageRendered(main: Label, w: int, h: int, position: string)
    ensures "[1:v]" + "scale=" + IntToString(w) + ":" + IntToString(h) + "[wm]" == Render(Scale(Image1, w, h, WmLabel))
    ensures LabelText(main) + "[wm]" + "overlay=" + position + "[v]" == Render(Overlay(main, WmLabel, position, OutLabel))
  {
  }

  lemma {:induction false} RenderAllAppend(fs: seq<Fragment>, f: Fragment)
    ensures RenderAll(fs + [f]) == RenderAll(fs) + [Render(f)]
  {
    if fs != [] {
      assert (fs + [f])[1..] == fs[1..] + [f];
      RenderAllAppend(fs[1..], f);
    } else {
      assert RenderAll([f]) == [Render(f)] + RenderAll([]);
    }
  }

  /**
   * The `filters` list of `process_video` with its final label: built by
   * appending while `main_label` moves from [0:v] to [base].
   */
  method BuildFilters(t: TextSettings, wm: Option<string>, position: string, width: int, height: int, imgSize: int)
    returns (filters: seq<string>, finalLabel: string)
    ensures filters == RenderAll(FilterGraph(t, wm, position, width, height, imgSize).fragments)
    ensures finalLabel == LabelText(FilterGraph(t, wm, position, width, height, imgSize).sink)
  {
    var text := t.text;
    var color := t.color;
    var tSize := t.size;
    var useText := t.use;

    // The plan's draw fragments and main label, as FilterGraph names them.
    ghost var xy := XY(position);
    ghost var draw :=
      if TextActive(t) then [DrawText(Video0, text, color, tSize, xy.0, xy.1, BaseLabel)] else [];
    ghost var main := if TextActive(t) then BaseLabel else Video0;

    filters := [];
    var mainLabel := "[0:v]";

    if useText && text != "" {
      var safeText := Escape(text);
      var (xExpr, yExpr) := XY(position);
      var draw := DrawTextOptions(safeText, color, tSize, xExpr, yExpr);
      DrawTextRendered(text, color, tSize, xExpr, yExpr);
      filters := filters + [mainLabel + draw + "[base]"];
      mainLabel := "[base]";
    }
    assert filters == RenderAll(draw) && mainLabel == LabelText(main);

    finalLabel := mainLabel;
    if HasWatermark(wm) {
      var wmW := ScaledDim(width, imgSize);
      var wmH := ScaledDim(height, imgSize);
      ghost var sc := Scale(Image1, wmW, wmH, WmLabel);
      ghost var ov := Overlay(main, WmLabel, position, OutLabel);
      ImageRendered(main, wmW, wmH, position);
      RenderAllAppend(draw, sc);
      RenderAllAppend(draw + [sc], ov);
      filters := filters + ["[1:v]" + "scale=" + IntToString(wmW) + ":" + IntToString(wmH) + "[wm]"];
      filters := filters + [mainLabel + "[wm]" + "overlay=" + position + "[v]"];
      finalLabel := "[v]";
      assert draw + [sc] + [ov] == draw + [sc, ov];
    }
  }

  /**
   * The `cmd` list of `process_video`: the inputs, then the filter graph and
   * its mapping (or the plain video mapping), then the encoding options; it is
   * the serialized plan.
   */
  method BuildCommand(job: Job) returns (cmd: seq<string>)
    ensures cmd == Command(job)
  {
    var (width, height) := Dimensions(job.probe);
    var position := Lookup(job.placement.position);

    cmd := ["ffmpeg", "-y", "-i", job.inputPath];
    if HasWatermark(job.watermark) {
      cmd := cmd + ["-i", job.watermark.value];
    }

    var filters, finalLabel := BuildFilters(job.text, job.watermark, position, width, height, job.placement.size);
    ghost var plan := FilterGraph(job.text, job.watermark, position, width, height, job.placement.size);
    assert plan == BuildPlan(job);

    if filters != [] {
      var filterComplex := Join(";", filters);
      cmd := cmd + ["-filter_complex", filterComplex, "-map", finalLabel] + EncodeArgs(job);
    } else {
      cmd := cmd + ["-map", "0:v"] + EncodeArgs(job);
    }
  }
}
