/**
 * create_video.py: the ffmpeg command text for one output video.
 *
 * The title clip is `segment_0.mp4` and the cut clips are `segment_1.mp4`
 * onwards. `join_segments` crossfades them in order: it renames every
 * input to the labels `{i}v`/`{i}a`, inserts the 3-second title window
 * `(0, 3)` at the front of the caller's list, and runs one `cross_fade`
 * per adjacent pair, threading the offset accumulator `prev_offset`.
 * Running ffmpeg and deleting files are left out: each operation returns
 * the command text it would run, and `CreateVideo` the files it would delete.
 */
module CreateVideo {
  import opened Wrappers
  import opened Strings
  import opened Segments
  import opened FilterGraph
  import opened Info

  // ---------------------------------------------------------------------------
  // One transition: cross_fade

  /** `cross_fade` as written: four chains, each appended to the command text in turn. */
  function CrossFade(video1: string, audio1: string, video2: string, audio2: string, outName: string,
                     offset: int): string
  {
    var command := Br(audio1) + Br(audio2) + "acrossfade=d=1" + Br(outName + "a") + ";";
    var command := command + (Br(video1) + "setpts=PTS-STARTPTS" + Br(video1 + "_pts") + ";");
    var command := command + (Br(video2) + "fade=in:st=0:d=1:alpha=1,setpts=PTS-STARTPTS+(" + IntToString(offset)
                              + "/TB)" + Br(video2 + "_pts") + ";");
    command + (Br(video1 + "_pts") + Br(video2 + "_pts") + "overlay" + Br(outName + "v"))
  }

  /**
   * The four chains of one transition: the audio crossfade into `{out}a`; the
   * outgoing video restarted at time 0 into `{v1}_pts`; the incoming video
   * faded in and shifted by `offset` seconds into `{v2}_pts`; the overlay of
   * the two `_pts` pads into `{out}v`.
   */
  function CrossFadeChains(v1: Pad, a1: Pad, v2: Pad, a2: Pad, out: nat, offset: int): seq<Chain> {
    [ Chain([a1, a2], ACrossfade, [Label(out, Audio)]),
      Chain([v1], ResetPts, [Pts(v1)]),
      Chain([v2], FadeInShift(offset), [Pts(v2)]),
      Chain([Pts(v1), Pts(v2)], Overlay, [Label(out, Video)]) ]
  }

  /** The text `cross_fade` writes for named pads is the rendering of the four chains. */
  lemma CrossFadeRendersChains(v1: Pad, a1: Pad, v2: Pad, a2: Pad, out: nat, offset: int)
    ensures CrossFade(PadName(v1), PadName(a1), PadName(v2), PadName(a2), NatToString(out), offset)
            == RenderGraph(CrossFadeChains(v1, a1, v2, a2, out, offset))
  {
    var g := CrossFadeChains(v1, a1, v2, a2, out, offset);
    var r0 := AudioCrossfadeText(a1, a2, out);
    var r1 := ResetPtsText(v1);
    var r2 := FadeInText(v2, offset);
    var r3 := OverlayText(v1, v2, out);
    RenderGraphFour(g);
    var c0, c1, c2 := r0 + ";", r1 + ";", r2 + ";";
    AppendAssoc(c0 + c1, c2, r3);
    AppendAssoc(c0, c1, c2 + r3);
  }

  // The text of each chain of a transition, as `cross_fade` spells it.

  lemma AudioCrossfadeText(a1: Pad, a2: Pad, out: nat) returns (r: string)
    ensures r == Br(PadName(a1)) + Br(PadName(a2)) + "acrossfade=d=1" + Br(NatToString(out) + "a")
    ensures RenderChain(Chain([a1, a2], ACrossfade, [Label(out, Audio)])) == r
  {
    r := Br(PadName(a1)) + Br(PadName(a2)) + "acrossfade=d=1" + Br(NatToString(out) + "a");
    BracketedTwo(a1, a2);
    BracketedOne(Label(out, Audio));
  }

  lemma ResetPtsText(v1: Pad) returns (r: string)
    ensures r == Br(PadName(v1)) + "setpts=PTS-STARTPTS" + Br(PadName(v1) + "_pts")
    ensures RenderChain(Chain([v1], ResetPts, [Pts(v1)])) == r
  {
    r := Br(PadName(v1)) + "setpts=PTS-STARTPTS" + Br(PadName(v1) + "_pts");
    BracketedOne(v1);
    BracketedOne(Pts(v1));
  }

  lemma FadeInText(v2: Pad, offset: int) returns (r: string)
    ensures r == Br(PadName(v2)) + "fade=in:st=0:d=1:alpha=1,setpts=PTS-STARTPTS+(" + IntToString(offset)
                 + "/TB)" + Br(PadName(v2) + "_pts")
    ensures RenderChain(Chain([v2], FadeInShift(offset), [Pts(v2)])) == r
  {
    r := Br(PadName(v2)) + "fade=in:st=0:d=1:alpha=1,setpts=PTS-STARTPTS+(" + IntToString(offset)
         + "/TB)" + Br(PadName(v2) + "_pts");
    BracketedOne(v2);
    BracketedOne(Pts(v2));
  }

  lemma OverlayText(v1: Pad, v2: Pad, out: nat) returns (r: string)
    ensures r == Br(PadName(v1) + "_pts") + Br(PadName(v2) + "_pts") + "overlay" + Br(NatToString(out) + "v")
    ensures RenderChain(Chain([Pts(v1), Pts(v2)], Overlay, [Label(out, Video)])) == r
  {
    r := Br(PadName(v1) + "_pts") + Br(PadName(v2) + "_pts") + "overlay" + Br(NatToString(out) + "v");
    BracketedTwo(Pts(v1), Pts(v2));
    BracketedOne(Label(out, Video));
  }

  /**
   * One transition consumes its four input pads and leaves exactly the two
   * output pads `{out}v` and `{out}a`; the `_pts` pads it writes are read by
   * its own overlay and are not live afterwards. `{out}a` and `{out}v` may be
   * among the inputs: they are written only after being read.
   */
  lemma CrossFadeWiring(live: set<Pad>, v1: Pad, a1: Pad, v2: Pad, a2: Pad, out: nat, offset: int)
    requires v1 in live && a1 in live && v2 in live && a2 in live
    requires v1 != a1 && v1 != v2 && v1 != a2 && a1 != v2 && a1 != a2 && v2 != a2
    requires Pts(v1) !in live && Pts(v2) !in live
    requires Label(out, Audio) !in live - {a1, a2}
    requires Label(out, Video) !in live - {v1, a1, v2, a2}
    ensures Run(live, CrossFadeChains(v1, a1, v2, a2, out, offset))
            == Some(live - {v1, a1, v2, a2} + {Label(out, Video), Label(out, Audio)})
  {
    var g := CrossFadeChains(v1, a1, v2, a2, out, offset);
    var l2 := live - {a1, a2, v1} + {Label(out, Audio), Pts(v1)};
    CrossFadeFirstHalf(live, v1, a1, v2, a2, out, offset);
    CrossFadeSecondHalf(l2, v1, a1, v2, a2, out, offset);
    assert l2 - {v2, Pts(v1)} + {Label(out, Video)} == live - {v1, a1, v2, a2} + {Label(out, Video), Label(out, Audio)};
  }

  /** The audio crossfade and the restart of the outgoing video. */
  lemma CrossFadeFirstHalf(live: set<Pad>, v1: Pad, a1: Pad, v2: Pad, a2: Pad, out: nat, offset: int)
    requires v1 in live && a1 in live && a2 in live
    requires v1 != a1 && v1 != a2 && a1 != a2
    requires Pts(v1) !in live
    requires Label(out, Audio) !in live - {a1, a2}
    ensures var g := CrossFadeChains(v1, a1, v2, a2, out, offset);
      Run(live, g) == Run(live - {a1, a2, v1} + {Label(out, Audio), Pts(v1)}, g[2..])
  {
    var g := CrossFadeChains(v1, a1, v2, a2, out, offset);
    var l1 := live - {a1, a2} + {Label(out, Audio)};
    StepTwo(live, a1, a2, ACrossfade, Label(out, Audio));
    RunStep(live, g, l1);
    StepOne(l1, v1, ResetPts, Pts(v1));
    RunStep(l1, g[1..], l1 - {v1} + {Pts(v1)});
    assert g[1..][1..] == g[2..];
    assert l1 - {v1} + {Pts(v1)} == live - {a1, a2, v1} + {Label(out, Audio), Pts(v1)};
  }

  /** The fade-in of the incoming video and the overlay of the two. */
  lemma CrossFadeSecondHalf(l2: set<Pad>, v1: Pad, a1: Pad, v2: Pad, a2: Pad, out: nat, offset: int)
    requires v2 in l2 && Pts(v1) in l2 && v1 != v2 && v2 != Pts(v1)
    requires Pts(v2) !in l2
    requires Label(out, Video) !in l2 - {v2, Pts(v1)}
    ensures Run(l2, CrossFadeChains(v1, a1, v2, a2, out, offset)[2..])
            == Some(l2 - {v2, Pts(v1)} + {Label(out, Video)})
  {
    var g := CrossFadeChains(v1, a1, v2, a2, out, offset)[2..];
    var l3 := l2 - {v2} + {Pts(v2)};
    StepOne(l2, v2, FadeInShift(offset), Pts(v2));
    RunStep(l2, g, l3);
    StepTwo(l3, Pts(v1), Pts(v2), Overlay, Label(out, Video));
    RunStep(l3, g[1..], l3 - {Pts(v1), Pts(v2)} + {Label(out, Video)});
    assert g[1..][1..] == [];
    assert l3 - {Pts(v1), Pts(v2)} + {Label(out, Video)} == l2 - {v2, Pts(v1)} + {Label(out, Video)};
  }

  // ---------------------------------------------------------------------------
  // The title clip: make_text_intro_video, make_text_intro_filter, render_intro

  /** The defaults `render_intro` relies on. */
  const IntroFps: string := "30"
  const IntroDuration: int := 3
  const IntroWidth: int := 1920
  const IntroHeight: int := 1080
  const IntroColor: string := "black"
  const IntroFontColor: string := "white"
  const IntroFontSize: int := 96

  /** One ffmpeg input generated by the `lavfi` device, lasting `duration` seconds, then its options. */
  function LavfiInput(duration: int, options: string): string {
    "-f lavfi -t " + IntToString(duration) + options
  }

  /** `make_text_intro_video`: a solid-colour video input and a silent audio input, space separated. */
  function MakeTextIntroVideo(fps: string, duration: int, width: int, height: int, color: string): string
  {
    var video := "-f lavfi -t " + IntToString(duration) + " -r " + fps + " -i color=" + color + ":"
                 + IntToString(width) + "x" + IntToString(height);
    var audio := "-f lavfi -t " + IntToString(duration) + " -i anullsrc";
    Join(" ", [video, audio])
  }

  /**
   * The generated inputs are the video one, a single space, and the audio
   * one, and both last the same `duration`.
   */
  lemma IntroInputsShareDuration(fps: string, duration: int, width: int, height: int, color: string)
    ensures MakeTextIntroVideo(fps, duration, width, height, color)
            == LavfiInput(duration, " -r " + fps + " -i color=" + color + ":" + IntToString(width) + "x"
                                    + IntToString(height))
               + " " + LavfiInput(duration, " -i anullsrc")
  {
    var d, w, h := IntToString(duration), IntToString(width), IntToString(height);
    var video := "-f lavfi -t " + d + " -r " + fps + " -i color=" + color + ":" + w + "x" + h;
    var audio := "-f lavfi -t " + d + " -i anullsrc";
    assert Join(" ", [video, audio]) == video + " " + audio by {
      assert [video, audio][1..] == [audio];
    }
    assert video == LavfiInput(duration, " -r " + fps + " -i color=" + color + ":" + w + "x" + h);
    assert audio == LavfiInput(duration, " -i anullsrc");
  }

  /** `make_text_intro_filter` as written: two `drawtext` chains and an audio rename. */
  function MakeTextIntroFilter(firstLine: string, secondLine: string, fontColor: string, fontSize: int): string
  {
    var command := "";
    var command := command + (Br("0") + "drawtext=" + Join(":", [
      "text=" + firstLine,
      "x=(w-text_w)/2",
      "y=(h - 4 * text_h)/2",
      "fontcolor=" + fontColor,
      "fontsize=" + IntToString(fontSize)]) + Br("firstline") + ";");
    var command := command + (Br("firstline") + "drawtext=" + Join(":", [
      "text=" + secondLine,
      "x=(w-text_w)/2",
      "y=(h - text_h)/2",
      "fontcolor=" + fontColor,
      "fontsize=" + IntToString(fontSize)]) + Br("introvid") + ";");
    command + (Br("1:a") + "anull" + Br("introaudio"))
  }

  /**
   * The title chains: input 0 gets the first line drawn into `[firstline]`,
   * that gets the second line drawn into `[introvid]`, and the audio of
   * input 1 is renamed `[introaudio]`. The text is inserted verbatim.
   */
  function IntroChains(firstLine: string, secondLine: string, fontColor: string, fontSize: int): seq<Chain> {
    [ Chain([Source(0)], DrawText(firstLine, "(h - 4 * text_h)/2", fontColor, fontSize), [FirstLine]),
      Chain([FirstLine], DrawText(secondLine, "(h - text_h)/2", fontColor, fontSize), [IntroVideo]),
      Chain([Stream(1, Audio)], ANull, [IntroAudio]) ]
  }

  /** The text of a one-input `drawtext` chain. */
  lemma DrawTextChainText(input: Pad, text: string, y: string, yField: string, fontColor: string, fontSize: int,
                          output: Pad)
    returns (r: string)
    requires yField == "y=" + y
    ensures r == Br(PadName(input)) + "drawtext=" + Join(":", ["text=" + text, "x=(w-text_w)/2", yField,
                   "fontcolor=" + fontColor, "fontsize=" + IntToString(fontSize)]) + Br(PadName(output))
    ensures RenderChain(Chain([input], DrawText(text, y, fontColor, fontSize), [output])) == r
  {
    r := Br(PadName(input)) + "drawtext=" + Join(":", ["text=" + text, "x=(w-text_w)/2", yField,
         "fontcolor=" + fontColor, "fontsize=" + IntToString(fontSize)]) + Br(PadName(output));
    BracketedOne(input);
    BracketedOne(output);
  }

  /** The first title chain, as `make_text_intro_filter` spells it. */
  lemma FirstLineText(firstLine: string, fontColor: string, fontSize: int) returns (r: string)
    ensures r == Br("0") + "drawtext=" + Join(":", ["text=" + firstLine, "x=(w-text_w)/2", "y=(h - 4 * text_h)/2",
                                                    "fontcolor=" + fontColor, "fontsize=" + IntToString(fontSize)])
                 + Br("firstline")
    ensures RenderChain(IntroChains(firstLine, "", fontColor, fontSize)[0]) == r
  {
    assert PadName(Source(0)) == "0";
    r := DrawTextChainText(Source(0), firstLine, "(h - 4 * text_h)/2", "y=(h - 4 * text_h)/2", fontColor, fontSize,
                           FirstLine);
  }

  /** The second title chain, as `make_text_intro_filter` spells it. */
  lemma SecondLineText(secondLine: string, fontColor: string, fontSize: int) returns (r: string)
    ensures r == Br("firstline") + "drawtext=" + Join(":", ["text=" + secondLine, "x=(w-text_w)/2", "y=(h - text_h)/2",
                                                           "fontcolor=" + fontColor, "fontsize=" + IntToString(fontSize)])
                 + Br("introvid")
    ensures RenderChain(IntroChains("", secondLine, fontColor, fontSize)[1]) == r
  {
    r := DrawTextChainText(FirstLine, secondLine, "(h - text_h)/2", "y=(h - text_h)/2", fontColor, fontSize,
                           IntroVideo);
  }

  /** The audio rename, as `make_text_intro_filter` spells it. */
  lemma IntroAudioText() returns (r: string)
    ensures r == Br("1:a") + "anull" + Br("introaudio")
    ensures RenderChain(IntroChains("", "", "", 0)[2]) == r
  {
    assert PadName(Stream(1, Audio)) == "1:a";
    BracketedOne(Stream(1, Audio));
    BracketedOne(IntroAudio);
    r := Br("1:a") + "anull" + Br("introaudio");
  }

  /** The text `make_text_intro_filter` writes is the rendering of the title chains. */
  lemma IntroFilterRendersChains(firstLine: string, secondLine: string, fontColor: string, fontSize: int)
    ensures MakeTextIntroFilter(firstLine, secondLine, fontColor, fontSize)
            == RenderGraph(IntroChains(firstLine, secondLine, fontColor, fontSize))
  {
    var g := IntroChains(firstLine, secondLine, fontColor, fontSize);
    var r0 := FirstLineText(firstLine, fontColor, fontSize);
    var r1 := SecondLineText(secondLine, fontColor, fontSize);
    var r2 := IntroAudioText();
    assert RenderGraph(g[1..]) == r1 + ";" + r2 by {
      assert g[1..][1..] == [g[2]];
    }
    var c0, c1 := r0 + ";", r1 + ";";
    assert "" + c0 == c0;
    AppendAssoc(c0, c1, r2);
  }

  /** The title graph reads the colour input and the silent audio and leaves exactly `[introvid]` and `[introaudio]`. */
  lemma IntroWiring(firstLine: string, secondLine: string, fontColor: string, fontSize: int)
    ensures Run({Source(0), Stream(1, Audio)}, IntroChains(firstLine, secondLine, fontColor, fontSize))
            == Some({IntroVideo, IntroAudio})
  {
    var g := IntroChains(firstLine, secondLine, fontColor, fontSize);
    var l0 := {Source(0), Stream(1, Audio)};
    var l1 := {FirstLine, Stream(1, Audio)};
    var l2 := {IntroVideo, Stream(1, Audio)};
    var l3 := {IntroVideo, IntroAudio};
    StepOne(l0, Source(0), g[0].filter, FirstLine);
    assert l0 - {Source(0)} + {FirstLine} == l1;
    RunStep(l0, g, l1);
    StepOne(l1, FirstLine, g[1].filter, IntroVideo);
    assert l1 - {FirstLine} + {IntroVideo} == l2;
    RunStep(l1, g[1..], l2);
    StepOne(l2, Stream(1, Audio), ANull, IntroAudio);
    assert l2 - {Stream(1, Audio)} + {IntroAudio} == l3;
    RunStep(l2, g[1..][1..], l3);
    assert g[1..][1..][1..] == [];
  }

  /** The file written for clip `i`: `segment_{i}.mp4`. */
  function ClipFile(i: nat): string {
    "segment_" + NatToString(i) + ".mp4"
  }

  /** The clip files `segment_0.mp4` .. `segment_{n-1}.mp4`, in index order. */
  function ClipFiles(n: nat): (r: seq<string>)
    ensures |r| == n
    ensures forall k :: 0 <= k < n ==> r[k] == ClipFile(k)
  {
    if n == 0 then [] else ClipFiles(n - 1) + [ClipFile(n - 1)]
  }

  /** Different clips are written to different files. */
  lemma ClipFileInjective(i: nat, j: nat)
    ensures ClipFile(i) == ClipFile(j) ==> i == j
  {
    if ClipFile(i) == ClipFile(j) {
      assert ClipFile(i)[8..|ClipFile(i)| - 4] == NatToString(i);
      assert ClipFile(j)[8..|ClipFile(j)| - 4] == NatToString(j);
      NatToStringInjective(i, j);
    }
  }

  /** `render_intro`: renders the title clip into clip 0. */
  function RenderIntroCommand(firstLine: string, secondLine: string): string {
    IntroCommandHead(firstLine, secondLine) + "\" -map [introvid] -map [introaudio]" + " -y segment_0.mp4"
  }

  /** The inputs and the filter graph of the title command, before the output options. */
  function IntroCommandHead(firstLine: string, secondLine: string): string {
    var command := "ffmpeg " + MakeTextIntroVideo(IntroFps, IntroDuration, IntroWidth, IntroHeight, IntroColor);
    command + " -filter_complex \"" + MakeTextIntroFilter(firstLine, secondLine, IntroFontColor, IntroFontSize)
  }

  /** The title command maps the two title pads and writes clip 0. */
  lemma RenderIntroTarget(firstLine: string, secondLine: string)
    ensures EndsWith(RenderIntroCommand(firstLine, secondLine), " -y " + ClipFile(0))
  {
    TitleClipName();
    EndsWithAppendTwo(IntroCommandHead(firstLine, secondLine), "\" -map [introvid] -map [introaudio]",
                      " -y segment_0.mp4");
  }

  lemma TitleClipName()
    ensures " -y " + ClipFile(0) == " -y segment_0.mp4"
  {
    assert NatToString(0) == "0";
  }

  // ---------------------------------------------------------------------------
  // Cutting the clips: render_segments

  /** The command that copies `segment` of the source into clip `index`: seek to `start`, keep `stop - start` seconds. */
  function CutCommand(videoPath: string, segment: Segment, index: nat): string {
    CutInput(videoPath, segment) + " -y -c copy " + ClipFile(index)
  }

  /** The part of a cut command that names the source and the time window. */
  function CutInput(videoPath: string, segment: Segment): string {
    "ffmpeg -hide_banner -ss " + IntToString(segment.start) + " -i \"" + videoPath + "\" -t "
    + IntToString(segment.stop - segment.start)
  }

  /** A cut command writes its output to clip `index`. */
  lemma CutCommandTarget(videoPath: string, segment: Segment, index: nat)
    ensures EndsWith(CutCommand(videoPath, segment, index), " -y -c copy " + ClipFile(index))
  {
    EndsWithAppendTwo(CutInput(videoPath, segment), " -y -c copy ", ClipFile(index));
  }

  /** The first `count` cut commands, for clips `1..count`. */
  predicate CutsSoFar(commands: seq<string>, videoPath: string, segments: seq<Segment>, count: nat)
    requires count <= |segments|
  {
    |commands| == count && forall k :: 0 <= k < count ==> commands[k] == CutCommand(videoPath, segments[k], k + 1)
  }

  lemma CutsExtend(commands: seq<string>, videoPath: string, segments: seq<Segment>, count: nat)
    requires count < |segments| && CutsSoFar(commands, videoPath, segments, count)
    ensures CutsSoFar(commands + [CutCommand(videoPath, segments[count], count + 1)], videoPath, segments, count + 1)
  {
    var next := commands + [CutCommand(videoPath, segments[count], count + 1)];
    forall k | 0 <= k < count + 1
      ensures next[k] == CutCommand(videoPath, segments[k], k + 1)
    {
      if k < count {
        assert next[k] == commands[k];
      }
    }
  }

  /** `render_segments`: one cut command per segment, numbered from 1 (clip 0 is the title). */
  method RenderSegments(videoPath: string, segments: seq<Segment>) returns (commands: seq<string>)
    ensures |commands| == |segments|
    ensures forall k :: 0 <= k < |segments| ==> commands[k] == CutCommand(videoPath, segments[k], k + 1)
  {
    commands := [];
    var i := 1;
    while i <= |segments|
      invariant 1 <= i <= |segments| + 1
      invariant CutsSoFar(commands, videoPath, segments, i - 1)
    {
      var segment := segments[i - 1];
      var command := CutCommand(videoPath, segment, i);
      CutsExtend(commands, videoPath, segments, i - 1);
      commands := commands + [command];
      i := i + 1;
    }
  }

  // ---------------------------------------------------------------------------
  // The offsets

  /** The window `join_segments` puts in front of the caller's segments for the title clip. */
  const TitleWindow: Segment := Segment(0, 3)

  /**
   * The offset recurrence, as a left fold: the transition out of `segs[0]`
   * starts `Duration(segs[0]) + prev - 1` seconds into the composed video,
   * and that value is carried to the next transition. One offset per
   * adjacent pair.
   */
  function OffsetsFrom(prev: int, segs: seq<Segment>): (offsets: seq<int>)
    ensures |offsets| == if segs == [] then 0 else |segs| - 1
    decreases |segs|
  {
    if |segs| <= 1 then []
    else
      var offset := Duration(segs[0]) + prev - CrossfadeDuration;
      [offset] + OffsetsFrom(offset, segs[1..])
  }

  /** The offsets `join_segments` passes to its transitions: the recurrence from 0 over the title and the segments. */
  function Offsets(segments: seq<Segment>): seq<int> {
    OffsetsFrom(0, [TitleWindow] + segments)
  }

  /** One offset per content segment: one transition per adjacent pair of the extended list. */
  lemma OffsetsLength(segments: seq<Segment>)
    ensures |Offsets(segments)| == |segments|
  {
    var ext := [TitleWindow] + segments;
    assert ext != [] && |ext| - 1 == |segments|;
  }

  /**
   * Closed form: transition `i` starts at the summed durations of segments
   * `0..i` (the one fading out included) less one crossfade per transition so far.
   */
  lemma {:induction false} OffsetsClosedForm(prev: int, segs: seq<Segment>, i: nat)
    requires i + 1 < |segs|
    ensures OffsetsFrom(prev, segs)[i] == prev + TotalDuration(segs[..i + 1]) - (i + 1) * CrossfadeDuration
    decreases i
  {
    var offset := Duration(segs[0]) + prev - CrossfadeDuration;
    assert OffsetsFrom(prev, segs) == [offset] + OffsetsFrom(offset, segs[1..]);
    if i == 0 {
      assert segs[..1][1..] == [];
    } else {
      OffsetsClosedForm(offset, segs[1..], i - 1);
      assert segs[..i + 1][1..] == segs[1..][..i];
    }
  }

  /**
   * The offset of transition `i` of `join_segments`: 3 seconds of title plus
   * the first `i` content segments, less one second per transition up to this one.
   */
  lemma JoinOffset(segments: seq<Segment>, i: nat)
    requires i < |segments|
    ensures |Offsets(segments)| == |segments|
    ensures Offsets(segments)[i] == Duration(TitleWindow) + TotalDuration(segments[..i]) - (i + 1)
  {
    var ext := [TitleWindow] + segments;
    OffsetsClosedForm(0, ext, i);
    assert ext[..i + 1] == [TitleWindow] + segments[..i];
    assert ([TitleWindow] + segments[..i])[1..] == segments[..i];
  }

  /** The first transition starts 2 seconds in, whatever the segments. */
  lemma FirstOffset(segments: seq<Segment>)
    requires segments != []
    ensures Offsets(segments)[0] == 2
  {
    JoinOffset(segments, 0);
  }

  /** Each offset exceeds the previous one by the duration of the segment fading out, less one second. */
  lemma OffsetStep(segments: seq<Segment>, i: nat)
    requires i < |segments|
    ensures var ext := [TitleWindow] + segments;
      |Offsets(segments)| == |segments| &&
      Offsets(segments)[i] == Duration(ext[i]) + (if i == 0 then 0 else Offsets(segments)[i - 1]) - 1
  {
    var ext := [TitleWindow] + segments;
    OffsetsClosedForm(0, ext, i);
    TotalDurationSnoc(ext, i);
    if i > 0 {
      OffsetsClosedForm(0, ext, i - 1);
    }
  }

  /** The offsets for the segments `(0,98), (145,233)` are 2 and then 99. */
  lemma ExampleOffsets()
    ensures Offsets([Segment(0, 98), Segment(145, 233)]) == [2, 99]
  {
    var segments := [Segment(0, 98), Segment(145, 233)];
    OffsetStep(segments, 0);
    OffsetStep(segments, 1);
  }

  /** The offsets keep increasing while every content segment is longer than the crossfade. */
  lemma OffsetsIncrease(segments: seq<Segment>, i: nat)
    requires i + 1 < |segments|
    requires Duration(segments[i]) > CrossfadeDuration
    ensures Offsets(segments)[i] < Offsets(segments)[i + 1]
  {
    OffsetStep(segments, i + 1);
    assert ([TitleWindow] + segments)[i + 1] == segments[i];
  }

  // ---------------------------------------------------------------------------
  // The whole graph

  /** The renaming stage for inputs `0..n-1`: `[i:v]null[iv];[i:a]anull[ia]`. */
  function NullStage(n: nat): seq<Chain> {
    if n == 0 then []
    else NullStage(n - 1) + [ Chain([Stream(n - 1, Video)], Null, [Label(n - 1, Video)]),
                              Chain([Stream(n - 1, Audio)], ANull, [Label(n - 1, Audio)]) ]
  }

  /** Transition `i` crossfades `{i}v`/`{i}a` with `{i+1}v`/`{i+1}a` into `{i+1}v`/`{i+1}a`. */
  function Transition(i: nat, offset: int): seq<Chain> {
    CrossFadeChains(Label(i, Video), Label(i, Audio), Label(i + 1, Video), Label(i + 1, Audio), i + 1, offset)
  }

  /** Transitions `0..|offsets|-1`, in order. */
  function Transitions(offsets: seq<int>): seq<Chain> {
    if offsets == [] then []
    else Transitions(offsets[..|offsets| - 1]) + Transition(|offsets| - 1, offsets[|offsets| - 1])
  }

  /** The filter graph of `join_segments` for the caller's segments (the title not yet inserted). */
  function JoinGraph(segments: seq<Segment>): seq<Chain> {
    NullStage(|segments| + 1) + Transitions(Offsets(segments))
  }

  /** After renaming inputs `0..k-1`, their streams are replaced by their labels. */
  lemma {:induction false} NullStageRun(k: nat, n: nat)
    requires k <= n
    ensures Run(Streams(n), NullStage(k)) == Some(Streams(n) - Streams(k) + Labels(0, k))
    decreases k
  {
    if k > 0 {
      var j := k - 1;
      NullStageRun(j, n);
      var rest := [ Chain([Stream(j, Video)], Null, [Label(j, Video)]),
                    Chain([Stream(j, Audio)], ANull, [Label(j, Audio)]) ];
      RunAppend(Streams(n), NullStage(j), rest);
      var l0 := Streams(n) - Streams(j) + Labels(0, j);
      var l1 := l0 - {Stream(j, Video)} + {Label(j, Video)};
      var l2 := l1 - {Stream(j, Audio)} + {Label(j, Audio)};
      StepOne(l0, Stream(j, Video), Null, Label(j, Video));
      RunStep(l0, rest, l1);
      StepOne(l1, Stream(j, Audio), ANull, Label(j, Audio));
      RunStep(l1, rest[1..], l2);
      assert rest[1..][1..] == [];
      assert NullStage(k) == NullStage(j) + rest;
      assert Run(Streams(n), NullStage(k)) == Some(l2);
      NullStageSets(j, n);
    } else {
      assert Streams(n) - Streams(0) + Labels(0, 0) == Streams(n);
    }
  }

  /** Renaming input `j` trades its two streams for its two labels. */
  lemma NullStageSets(j: nat, n: nat)
    requires j < n
    ensures Streams(n) - Streams(j) + Labels(0, j) - {Stream(j, Video)} + {Label(j, Video)}
            - {Stream(j, Audio)} + {Label(j, Audio)}
            == Streams(n) - Streams(j + 1) + Labels(0, j + 1)
  {
    var l := Streams(n) - Streams(j) + Labels(0, j) - {Stream(j, Video)} + {Label(j, Video)}
             - {Stream(j, Audio)} + {Label(j, Audio)};
    var r := Streams(n) - Streams(j + 1) + Labels(0, j + 1);
    forall p: Pad ensures p in l <==> p in r {
      if p.Label? && p.index == j {
        assert p == Label(j, Video) || p == Label(j, Audio);
      } else if p.Stream? && p.input == j {
        assert p == Stream(j, Video) || p == Stream(j, Audio);
      }
    }
  }

  /** After `t` transitions over `n` labelled segments, the labels of segments `t..n-1` are live. */
  lemma {:induction false} TransitionsRun(offsets: seq<int>, n: nat)
    requires |offsets| < n
    ensures Run(Labels(0, n), Transitions(offsets)) == Some(Labels(|offsets|, n))
    decreases |offsets|
  {
    if offsets != [] {
      var t := |offsets| - 1;
      var prefix := offsets[..t];
      TransitionsRun(prefix, n);
      RunAppend(Labels(0, n), Transitions(prefix), Transition(t, offsets[t]));
      CrossFadeWiring(Labels(t, n), Label(t, Video), Label(t, Audio), Label(t + 1, Video), Label(t + 1, Audio),
                      t + 1, offsets[t]);
      assert Labels(t, n) - {Label(t, Video), Label(t, Audio), Label(t + 1, Video), Label(t + 1, Audio)}
             + {Label(t + 1, Video), Label(t + 1, Audio)} == Labels(t + 1, n);
    }
  }

  /**
   * The whole `join_segments` graph is wired correctly: started from the
   * streams of `segment_0..segment_n`, every chain reads live pads only and
   * never overwrites a live one, and exactly `[{n}v]` and `[{n}a]`, the two
   * pads the command maps to the output, are left.
   */
  lemma JoinWiring(segments: seq<Segment>)
    ensures Run(Streams(|segments| + 1), JoinGraph(segments))
            == Some({Label(|segments|, Video), Label(|segments|, Audio)})
  {
    var n := |segments|;
    NullStageRun(n + 1, n + 1);
    assert Streams(n + 1) - Streams(n + 1) + Labels(0, n + 1) == Labels(0, n + 1);
    RunAppend(Streams(n + 1), NullStage(n + 1), Transitions(Offsets(segments)));
    TransitionsRun(Offsets(segments), n + 1);
    assert Labels(n, n + 1) == {Label(n, Video), Label(n, Audio)};
  }

  lemma {:induction false} NullStageLength(n: nat)
    ensures |NullStage(n)| == 2 * n
    decreases n
  {
    if n > 0 {
      NullStageLength(n - 1);
    }
  }

  /** Transition `i` sits at chains `4i..4i+3` of the transitions. */
  lemma {:induction false} TransitionsAt(offsets: seq<int>, i: nat)
    requires i < |offsets|
    ensures |Transitions(offsets)| == 4 * |offsets|
    ensures Transitions(offsets)[4 * i..4 * i + 4] == Transition(i, offsets[i])
    decreases |offsets|
  {
    var t := |offsets| - 1;
    var prefix := offsets[..t];
    if i < t {
      TransitionsAt(prefix, i);
      assert Transitions(offsets)[4 * i..4 * i + 4] == Transitions(prefix)[4 * i..4 * i + 4];
    } else if t > 0 {
      TransitionsAt(prefix, 0);
    }
  }

  /**
   * With `n` segments the graph holds the `2(n+1)` renaming chains and then
   * exactly `n` transitions; transition `i` reads `{i}v,{i}a,{i+1}v,{i+1}a`,
   * writes `{i+1}v,{i+1}a` and carries offset `i`.
   */
  lemma JoinGraphLayout(segments: seq<Segment>, i: nat)
    requires i < |segments|
    ensures var n := |segments|;
      |JoinGraph(segments)| == 2 * (n + 1) + 4 * n &&
      JoinGraph(segments)[2 * (n + 1) + 4 * i..2 * (n + 1) + 4 * i + 4]
        == CrossFadeChains(Label(i, Video), Label(i, Audio), Label(i + 1, Video), Label(i + 1, Audio),
                           i + 1, Offsets(segments)[i])
  {
    var n := |segments|;
    NullStageLength(n + 1);
    JoinOffset(segments, i);
    TransitionsAt(Offsets(segments), i);
    var g := JoinGraph(segments);
    assert g[2 * (n + 1) + 4 * i..2 * (n + 1) + 4 * i + 4] == Transitions(Offsets(segments))[4 * i..4 * i + 4];
  }

  // ---------------------------------------------------------------------------
  // The join command

  /** The `-i segment_{i}.mp4 ` arguments for clips `0..k-1`. */
  function InputArgs(k: nat): string {
    if k == 0 then "" else InputArgs(k - 1) + InputArg(k - 1)
  }

  function InputArg(i: nat): string {
    "-i " + ClipFile(i) + " "
  }

  /**
   * The command `join_segments` runs: every clip as an input, the graph,
   * and the terminal pads `[{n}v]`/`[{n}a]` mapped into `{outFileName}.mp4`.
   */
  function JoinCommand(outFileName: string, segments: seq<Segment>): string {
    var n := |segments|;
    "ffmpeg -hide_banner " + InputArgs(n + 1) + "-filter_complex \"" + RenderGraph(JoinGraph(segments))
    + OutputMaps(Label(n, Video), Label(n, Audio), outFileName)
  }

  /** The end of the join command: the filter closed, the two pads mapped, the output file. */
  function OutputMaps(video: Pad, audio: Pad, outFileName: string): string {
    "\" -map " + Br(PadName(video)) + " -map " + Br(PadName(audio)) + " -y " + outFileName + ".mp4"
  }

  /** The two renaming chains of input `i`, as `join_segments` spells them. */
  lemma NullStageText(i: nat) returns (r: string)
    ensures r == Br(NatToString(i) + ":v") + "null" + Br(NatToString(i) + "v") + ";"
                 + (Br(NatToString(i) + ":a") + "anull" + Br(NatToString(i) + "a")) + ";"
    ensures |NullStage(i + 1)| == 2 * (i + 1)
    ensures Terminated(NullStage(i + 1)[2 * i..]) == r
  {
    NullStageLength(i);
    var rest := NullStage(i + 1)[2 * i..];
    assert rest == [ Chain([Stream(i, Video)], Null, [Label(i, Video)]),
                     Chain([Stream(i, Audio)], ANull, [Label(i, Audio)]) ];
    StreamLabelNames(i);
    var s := NatToString(i);
    var r0 := Br(s + ":v") + "null" + Br(s + "v");
    var r1 := Br(s + ":a") + "anull" + Br(s + "a");
    assert RenderChain(rest[0]) == r0 by {
      BracketedOne(Stream(i, Video));
      BracketedOne(Label(i, Video));
    }
    assert Terminated(rest[1..]) == r1 + ";" by {
      BracketedOne(Stream(i, Audio));
      BracketedOne(Label(i, Audio));
      assert rest[1..][1..] == [];
    }
    r := r0 + ";" + r1 + ";";
  }

  /** The renaming stage of the title clip alone. */
  lemma TitleOnlyGraph()
    ensures RenderGraph(JoinGraph([])) == "[0:v]null[0v];[0:a]anull[0a]"
  {
    TitleOnlyTerminated();
    RenderedFromTerminated(JoinGraph([]), Br("0:v") + "null" + Br("0v") + ";" + (Br("0:a") + "anull" + Br("0a")));
    TitleOnlyLiteral();
  }

  lemma TitleOnlyTerminated()
    ensures Terminated(JoinGraph([])) == Br("0:v") + "null" + Br("0v") + ";" + (Br("0:a") + "anull" + Br("0a")) + ";"
  {
    assert Offsets([]) == [];
    var g := JoinGraph([]);
    assert g == NullStage(1) by {
      assert Transitions([]) == [];
    }
    var r := NullStageText(0);
    TakeFromZero(g);
    ZeroNames();
  }

  lemma TakeFromZero(g: seq<Chain>)
    ensures g[0..] == g
  {
  }

  lemma RenderedFromTerminated(g: seq<Chain>, text: string)
    requires Terminated(g) == text + ";"
    ensures RenderGraph(g) == text
  {
    TerminatedIsRendered(g);
    var x := RenderGraph(g);
    assert x == (x + ";")[..|x|];
  }

  lemma ZeroNames()
    ensures NatToString(0) + ":v" == "0:v" && NatToString(0) + "v" == "0v"
    ensures NatToString(0) + ":a" == "0:a" && NatToString(0) + "a" == "0a"
  {
    assert NatToString(0) == "0";
  }

  lemma TitleOnlyLiteral()
    ensures Br("0:v") + "null" + Br("0v") + ";" + (Br("0:a") + "anull" + Br("0a"))
            == "[0:v]null[0v];[0:a]anull[0a]"
  {
    NullLiteral();
    ANullLiteral();
  }

  lemma NullLiteral()
    ensures Br("0:v") + "null" + Br("0v") + ";" == "[0:v]null[0v];"
  {
  }

  lemma ANullLiteral()
    ensures Br("0:a") + "anull" + Br("0a") == "[0:a]anull[0a]"
  {
  }

  /**
   * With no content segment there is no transition: the only input is the
   * title clip, renamed to `[0v]`/`[0a]`, and those two pads go straight to
   * the output.
   */
  lemma JoinCommandNoSegments(outFileName: string)
    ensures JoinGraph([]) == [ Chain([Stream(0, Video)], Null, [Label(0, Video)]),
                               Chain([Stream(0, Audio)], ANull, [Label(0, Audio)]) ]
    ensures InputArgs(1) == "-i " + ClipFile(0) + " "
    ensures JoinCommand(outFileName, [])
            == "ffmpeg -hide_banner " + InputArgs(1) + "-filter_complex \"" + "[0:v]null[0v];[0:a]anull[0a]"
               + OutputMaps(Label(0, Video), Label(0, Audio), outFileName)
  {
    TitleOnlyGraph();
    assert Offsets([]) == [];
    assert Transitions([]) == [];
    assert NullStage(0) == [];
  }

  /** One more pair of renaming chains: `chunk` is the text `join_segments` appends for input `i`. */
  lemma NullStageStep(head: string, i: nat, command: string, chunk: string)
    requires command == head + Terminated(NullStage(i))
    requires var s := NatToString(i);
      chunk == Br(s + ":v") + "null" + Br(s + "v") + ";" + (Br(s + ":a") + "anull" + Br(s + "a")) + ";"
    ensures command + chunk == head + Terminated(NullStage(i + 1))
  {
    NullStageChunk(i, chunk);
    AppendAssoc(head, Terminated(NullStage(i)), chunk);
  }

  lemma NullStageChunk(i: nat, chunk: string)
    requires var s := NatToString(i);
      chunk == Br(s + ":v") + "null" + Br(s + "v") + ";" + (Br(s + ":a") + "anull" + Br(s + "a")) + ";"
    ensures Terminated(NullStage(i + 1)) == Terminated(NullStage(i)) + chunk
  {
    var r := NullStageText(i);
    assert NullStage(i + 1) == NullStage(i) + NullStage(i + 1)[2 * i..] by {
      NullStageLength(i);
    }
    TerminatedAppend(NullStage(i), NullStage(i + 1)[2 * i..]);
  }

  /** The text `join_segments` appends for transition `i` renders its four chains. */
  lemma TransitionChunk(i: nat, offset: int, chunk: string)
    requires chunk == CrossFade(NatToString(i) + "v", NatToString(i) + "a", NatToString(i + 1) + "v",
                                NatToString(i + 1) + "a", NatToString(i + 1), offset) + ";"
    ensures chunk == Terminated(Transition(i, offset))
  {
    StreamLabelNames(i);
    StreamLabelNames(i + 1);
    CrossFadeRendersChains(Label(i, Video), Label(i, Audio), Label(i + 1, Video), Label(i + 1, Audio),
                           i + 1, offset);
    TerminatedIsRendered(Transition(i, offset));
  }

  lemma TransitionsPrefix(offsets: seq<int>, i: nat)
    requires i < |offsets|
    ensures Transitions(offsets[..i + 1]) == Transitions(offsets[..i]) + Transition(i, offsets[i])
  {
    assert offsets[..i + 1][..i] == offsets[..i];
  }

  /** One more transition: `chunk` is the text `join_segments` appends for transition `i`. */
  lemma TransitionStep(head: string, offsets: seq<int>, i: nat, offset: int, command: string, chunk: string)
    requires i < |offsets| && offset == offsets[i]
    requires command == head + Terminated(Transitions(offsets[..i]))
    requires chunk == CrossFade(NatToString(i) + "v", NatToString(i) + "a", NatToString(i + 1) + "v",
                                NatToString(i + 1) + "a", NatToString(i + 1), offset) + ";"
    ensures command + chunk == head + Terminated(Transitions(offsets[..i + 1]))
  {
    TransitionChunk(i, offset, chunk);
    TransitionsPrefix(offsets, i);
    TerminatedSnoc(head, Transitions(offsets[..i]), Transition(i, offset), command, chunk);
  }

  lemma TerminatedSnoc(head: string, a: seq<Chain>, t: seq<Chain>, command: string, chunk: string)
    requires command == head + Terminated(a) && chunk == Terminated(t)
    ensures command + chunk == head + Terminated(a + t)
  {
    TerminatedAppend(a, t);
    AppendAssoc(head, Terminated(a), Terminated(t));
  }

  /** The accumulator update of `join_segments` computes the next offset. */
  lemma OffsetNext(segments: seq<Segment>, i: nat, prev: int)
    requires i < |segments|
    requires prev == if i == 0 then 0 else Offsets(segments)[i - 1]
    ensures |Offsets(segments)| == |segments|
    ensures Duration(([TitleWindow] + segments)[i]) + prev - 1 == Offsets(segments)[i]
  {
    OffsetStep(segments, i);
  }

  /** The text after the graph: the last `;` dropped, the pads of segment `n` mapped to the output. */
  lemma JoinFinish(head: string, g: seq<Chain>, n: nat, command: string, maps: string, outFileName: string)
    requires g != [] && command == head + Terminated(g)
    requires var last := NatToString(n);
      maps == "\" -map " + Br(last + "v") + " -map " + Br(last + "a") + " -y " + outFileName + ".mp4"
    ensures |command| >= 1
    ensures command[..|command| - 1] + maps == head + RenderGraph(g) + OutputMaps(Label(n, Video), Label(n, Audio), outFileName)
  {
    TerminatedIsRendered(g);
    DropLast(head, RenderGraph(g), ";", command, maps);
    OutputMapsText(n, outFileName);
  }

  /** The whole command, once every transition has been appended. */
  lemma JoinEnd(head: string, segments: seq<Segment>, command: string, maps: string, outFileName: string)
    requires head == "ffmpeg -hide_banner " + InputArgs(|segments| + 1) + "-filter_complex \""
    requires command == head + Terminated(NullStage(|segments| + 1)) + Terminated(Transitions(Offsets(segments)))
    requires var last := NatToString(|segments|);
      maps == "\" -map " + Br(last + "v") + " -map " + Br(last + "a") + " -y " + outFileName + ".mp4"
    ensures |command| >= 1 && command[..|command| - 1] + maps == JoinCommand(outFileName, segments)
  {
    TerminatedAppend(NullStage(|segments| + 1), Transitions(Offsets(segments)));
    AppendAssoc(head, Terminated(NullStage(|segments| + 1)), Terminated(Transitions(Offsets(segments))));
    JoinGraphNotEmpty(segments);
    JoinFinish(head, JoinGraph(segments), |segments|, command, maps, outFileName);
  }

  /** The graph of `join_segments` is never empty: it renames at least the title clip. */
  lemma JoinGraphNotEmpty(segments: seq<Segment>)
    ensures JoinGraph(segments) != []
  {
    NullStageLength(|segments| + 1);
    assert |JoinGraph(segments)| >= |NullStage(|segments| + 1)|;
  }

  /** Replacing the last character of `head + body + ";"` by `tail`. */
  lemma DropLast(head: string, body: string, semicolon: string, command: string, tail: string)
    requires |semicolon| == 1 && command == head + (body + semicolon)
    ensures |command| >= 1 && command[..|command| - 1] + tail == head + body + tail
  {
    assert command[..|command| - 1] == head + body;
  }

  lemma OutputMapsText(n: nat, outFileName: string)
    ensures var last := NatToString(n);
      OutputMaps(Label(n, Video), Label(n, Audio), outFileName)
      == "\" -map " + Br(last + "v") + " -map " + Br(last + "a") + " -y " + outFileName + ".mp4"
  {
    StreamLabelNames(n);
  }

  /** The first loop of `join_segments`: appends `-i segment_{i}.mp4 ` for clips `0..clips-1`. */
  method AppendInputs(command: string, clips: nat) returns (r: string)
    ensures r == command + InputArgs(clips)
  {
    r := command;
    var i := 0;
    while i < clips
      invariant 0 <= i <= clips
      invariant r == command + InputArgs(i)
    {
      AppendAssoc(command, InputArgs(i), InputArg(i));
      r := r + InputArg(i);
      i := i + 1;
    }
  }

  /** The second loop of `join_segments`: appends the renaming chains of clips `0..clips-1`, each followed by `;`. */
  method AppendRenames(command: string, clips: nat) returns (r: string)
    ensures r == command + Terminated(NullStage(clips))
  {
    r := command;
    var i := 0;
    while i < clips
      invariant 0 <= i <= clips
      invariant r == command + Terminated(NullStage(i))
    {
      var s := NatToString(i);
      var chunk := Br(s + ":v") + "null" + Br(s + "v") + ";" + (Br(s + ":a") + "anull" + Br(s + "a")) + ";";
      NullStageStep(command, i, r, chunk);
      r := r + chunk;
      i := i + 1;
    }
  }

  /**
   * The third loop of `join_segments`, over the list with the title window in
   * front: one crossfade per adjacent pair, the offset accumulated in `prevOffset`.
   */
  method AppendTransitions(command: string, windows: seq<Segment>) returns (r: string)
    requires |windows| >= 1 && windows[0] == TitleWindow
    ensures r == command + Terminated(Transitions(Offsets(windows[1..])))
  {
    ghost var original := windows[1..];
    assert windows == [TitleWindow] + original;
    ghost var offsets := Offsets(original);
    OffsetsLength(original);
    r := command;
    var prevOffset := 0;
    var i := 0;
    while i < |windows| - 1
      invariant 0 <= i <= |offsets|
      invariant prevOffset == if i == 0 then 0 else offsets[i - 1]
      invariant r == command + Terminated(Transitions(offsets[..i]))
    {
      var segment := windows[i];
      var start, stop := segment.start, segment.stop;
      OffsetNext(original, i, prevOffset);
      prevOffset := stop - start + prevOffset - 1;
      var chunk := CrossFade(NatToString(i) + "v", NatToString(i) + "a", NatToString(i + 1) + "v",
                             NatToString(i + 1) + "a", NatToString(i + 1), prevOffset) + ";";
      TransitionStep(command, offsets, i, prevOffset, r, chunk);
      r := r + chunk;
      i := i + 1;
    }
    TakeAll(offsets, i);
  }

  lemma TakeAll(s: seq<int>, n: nat)
    requires n == |s|
    ensures s[..n] == s
  {
  }

  /**
   * `join_segments`: builds the command for the caller's list and, as the
   * source does, inserts the title window `(0, 3)` at the front of that list.
   */
  method JoinSegments(outFileName: string, segments: SegmentList) returns (command: string)
    modifies segments
    ensures segments.items == [TitleWindow] + old(segments.items)
    ensures command == JoinCommand(outFileName, old(segments.items))
  {
    ghost var original := segments.items;
    var n := |segments.items|;
    command := AppendInputs("ffmpeg -hide_banner ", n + 1);
    command := command + "-filter_complex \"";
    ghost var head := command;
    command := AppendRenames(command, n + 1);
    segments.items := [TitleWindow] + segments.items;
    assert segments.items[1..] == original;
    command := AppendTransitions(command, segments.items);
    var last := NatToString(|segments.items| - 1);
    var maps := "\" -map " + Br(last + "v") + " -map " + Br(last + "a") + " -y " + outFileName + ".mp4";
    JoinEnd(head, original, command, maps, outFileName);
    command := command[..|command| - 1] + maps;
  }

  // ---------------------------------------------------------------------------
  // The whole run: create_video

  /** The cleanup loop: the names of clips `0..clips-1`, in the order they are removed. */
  method RemoveClips(clips: nat) returns (removed: seq<string>)
    ensures removed == ClipFiles(clips)
  {
    removed := [];
    var i := 0;
    while i < clips
      invariant 0 <= i <= clips
      invariant removed == ClipFiles(i)
    {
      removed := removed + [ClipFile(i)];
      i := i + 1;
    }
  }

  /** Where the parts of `[first] + middle + [last]` sit. */
  lemma Bracket(first: string, middle: seq<string>, last: string)
    ensures var s := [first] + middle + [last];
      |s| == |middle| + 2 && s[0] == first && s[|s| - 1] == last &&
      forall k :: 0 <= k < |middle| ==> s[k + 1] == middle[k]
  {
  }

  /**
   * `create_video`: renders the title, cuts the clips, joins them, and then
   * deletes `segment_{i}.mp4` for every index of the (now grown) list. The
   * commands are returned in the order they run, with the files deleted.
   */
  method CreateVideo(info: VideoInfo) returns (commands: seq<string>, removed: seq<string>)
    modifies info.segments
    ensures info.segments.items == [TitleWindow] + old(info.segments.items)
    ensures |commands| == |old(info.segments.items)| + 2
    ensures commands[0] == RenderIntroCommand(info.firstLine, info.secondLine)
    ensures forall k :: 0 <= k < |old(info.segments.items)| ==>
              commands[k + 1] == CutCommand(info.path, old(info.segments.items)[k], k + 1)
    ensures commands[|commands| - 1] == JoinCommand(info.outputFileName, old(info.segments.items))
    ensures removed == ClipFiles(|old(info.segments.items)| + 1)
  {
    var intro := RenderIntroCommand(info.firstLine, info.secondLine);
    var cuts := RenderSegments(info.path, info.segments.items);
    var join := JoinSegments(info.outputFileName, info.segments);
    commands := [intro] + cuts + [join];
    Bracket(intro, cuts, join);
    removed := RemoveClips(|info.segments.items|);
  }
}
