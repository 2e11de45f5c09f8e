/**
 * video_cut.py: the earlier script the create_video.py commands grew out of.
 * Its `cross_fade` and title builders write the same text as create_video.py's;
 * `render_segments` passes the source path unquoted; `join_segments` always
 * writes `out.mp4`; and the script at the bottom runs the three steps and
 * removes the clips. The join loops are the ones modelled in CreateVideo.
 */
module VideoCut {
  import opened Strings
  import opened Segments
  import opened FilterGraph
  import CreateVideo

  // ---------------------------------------------------------------------------
  // The builders shared with create_video.py

  /** `cross_fade` as written in this file: four chains, each appended in turn. */
  function CrossFade(video1: string, audio1: string, video2: string, audio2: string, outName: string,
                     offset: int): string
  {
    var command := Br(audio1) + Br(audio2) + "acrossfade=d=1" + Br(outName + "a") + ";";
    var command := command + (Br(video1) + "setpts=PTS-STARTPTS" + Br(video1 + "_pts") + ";");
    var command := command + (Br(video2) + "fade=in:st=0:d=1:alpha=1,setpts=PTS-STARTPTS+(" + IntToString(offset)
                              + "/TB)" + Br(video2 + "_pts") + ";");
    command + (Br(video1 + "_pts") + Br(video2 + "_pts") + "overlay" + Br(outName + "v"))
  }

  /**
   * This `cross_fade` renders the same four chains as create_video.py's: the
   * one-second audio crossfade into `{out}a`, the two `_pts` pads, and the
   * overlay of exactly those into `{out}v`.
   */
  lemma CrossFadeRendersChains(v1: Pad, a1: Pad, v2: Pad, a2: Pad, out: nat, offset: int)
    ensures CrossFade(PadName(v1), PadName(a1), PadName(v2), PadName(a2), NatToString(out), offset)
            == RenderGraph(CreateVideo.CrossFadeChains(v1, a1, v2, a2, out, offset))
  {
    CreateVideo.CrossFadeRendersChains(v1, a1, v2, a2, out, offset);
  }

  /** `make_text_intro_video` as written in this file. */
  function MakeTextIntroVideo(fps: string, duration: int, width: int, height: int, color: string): string
  {
    var video := "-f lavfi -t " + IntToString(duration) + " -r " + fps + " -i color=" + color + ":"
                 + IntToString(width) + "x" + IntToString(height);
    var audio := "-f lavfi -t " + IntToString(duration) + " -i anullsrc";
    Join(" ", [video, audio])
  }

  /** The video input, one space, the audio input; both generated for the same `duration`. */
  lemma IntroInputsShareDuration(fps: string, duration: int, width: int, height: int, color: string)
    ensures MakeTextIntroVideo(fps, duration, width, height, color)
            == CreateVideo.LavfiInput(duration, " -r " + fps + " -i color=" + color + ":" + IntToString(width) + "x"
                                                + IntToString(height))
               + " " + CreateVideo.LavfiInput(duration, " -i anullsrc")
  {
    CreateVideo.IntroInputsShareDuration(fps, duration, width, height, color);
  }

  /** `make_text_intro_filter` as written in this file (`name` and `division` are the two lines). */
  function MakeTextIntroFilter(name: string, division: string, fontColor: string, fontSize: int): string
  {
    var command := "";
    var command := command + (Br("0") + "drawtext=" + Join(":", [
      "text=" + name,
      "x=(w-text_w)/2",
      "y=(h - 4 * text_h)/2",
      "fontcolor=" + fontColor,
      "fontsize=" + IntToString(fontSize)]) + Br("firstline") + ";");
    var command := command + (Br("firstline") + "drawtext=" + Join(":", [
      "text=" + division,
      "x=(w-text_w)/2",
      "y=(h - text_h)/2",
      "fontcolor=" + fontColor,
      "fontsize=" + IntToString(fontSize)]) + Br("introvid") + ";");
    command + (Br("1:a") + "anull" + Br("introaudio"))
  }

  /** The title filter is `[0]`→`[firstline]`→`[introvid]` and `[1:a]`→`[introaudio]`, the text inserted verbatim. */
  lemma IntroFilterRendersChains(name: string, division: string, fontColor: string, fontSize: int)
    ensures MakeTextIntroFilter(name, division, fontColor, fontSize)
            == RenderGraph(CreateVideo.IntroChains(name, division, fontColor, fontSize))
  {
    CreateVideo.IntroFilterRendersChains(name, division, fontColor, fontSize);
  }

  /** `render_intro`: the same title command as create_video.py's, written into clip 0. */
  function RenderIntroCommand(name: string, division: string): string {
    IntroCommandHead(name, division) + "\" -map [introvid] -map [introaudio]" + " -y segment_0.mp4"
  }

  function IntroCommandHead(name: string, division: string): string {
    var command := "ffmpeg " + MakeTextIntroVideo(CreateVideo.IntroFps, CreateVideo.IntroDuration,
                                                  CreateVideo.IntroWidth, CreateVideo.IntroHeight,
                                                  CreateVideo.IntroColor);
    command + " -filter_complex \"" + MakeTextIntroFilter(name, division, CreateVideo.IntroFontColor,
                                                          CreateVideo.IntroFontSize)
  }

  /** The title command maps the two title pads and writes clip 0. */
  lemma RenderIntroTarget(name: string, division: string)
    ensures EndsWith(RenderIntroCommand(name, division), " -y " + CreateVideo.ClipFile(0))
  {
    CreateVideo.TitleClipName();
    EndsWithAppendTwo(IntroCommandHead(name, division), "\" -map [introvid] -map [introaudio]",
                      " -y segment_0.mp4");
  }

  // ---------------------------------------------------------------------------
  // Cutting the clips: the path is not quoted here

  /** The cut command of this file: the source path follows `-i` without quotes. */
  function CutCommand(videoPath: string, segment: Segment, index: nat): string {
    CutInput(videoPath, segment) + " -y -c copy " + CreateVideo.ClipFile(index)
  }

  function CutInput(videoPath: string, segment: Segment): string {
    "ffmpeg -hide_banner -ss " + IntToString(segment.start) + " -i " + videoPath + " -t "
    + IntToString(segment.stop - segment.start)
  }

  /** A cut command writes its output to clip `index`. */
  lemma CutCommandTarget(videoPath: string, segment: Segment, index: nat)
    ensures EndsWith(CutCommand(videoPath, segment, index), " -y -c copy " + CreateVideo.ClipFile(index))
  {
    EndsWithAppendTwo(CutInput(videoPath, segment), " -y -c copy ", CreateVideo.ClipFile(index));
  }

  /** The only difference from create_video.py's cut command: that one wraps the path in double quotes. */
  lemma QuotedPathAgrees(videoPath: string, segment: Segment, index: nat)
    ensures CutCommand("\"" + videoPath + "\"", segment, index) == CreateVideo.CutCommand(videoPath, segment, index)
  {
    var start, length := IntToString(segment.start), IntToString(segment.stop - segment.start);
    var p := "ffmpeg -hide_banner -ss " + start;
    QuoteLiterals();
    Regroup(p, " -i ", "\"", videoPath, " -t ", length);
  }

  lemma QuoteLiterals()
    ensures " -i " + "\"" == " -i \"" && "\"" + " -t " == "\" -t "
  {
  }

  /** Moving the quotes around `v` from the path into the neighbouring option text. */
  lemma Regroup(p: string, before: string, quote: string, v: string, after: string, rest: string)
    ensures p + before + (quote + v + quote) + after + rest == p + (before + quote) + v + (quote + after) + rest
  {
  }

  predicate CutsSoFar(commands: seq<string>, videoPath: string, segments: seq<Segment>, count: nat)
    requires count <= |segments|
  {
    |commands| == count && forall k :: 0 <= k < count ==> commands[k] == CutCommand(videoPath, segments[k], k + 1)
  }

  lemma CutsExtend(commands: seq<string>, videoPath: string, segments: seq<Segment>, count: nat)
    requires count < |segments| && CutsSoFar(commands, videoPath, segments, count)
    ensures CutsSoFar(commands + [CutCommand(videoPath, segments[count], count + 1)], videoPath, segments, count + 1)
  {
    var next := commands + [CutCommand(videoPath, segments[count], count + 1)];
    forall k | 0 <= k < count + 1
      ensures next[k] == CutCommand(videoPath, segments[k], k + 1)
    {
      if k < count {
        assert next[k] == commands[k];
      }
    }
  }

  /** `render_segments`: `enumerate(segments, start=1)`, one cut command per segment, clips numbered from 1. */
  method RenderSegments(videoPath: string, segments: seq<Segment>) returns (commands: seq<string>)
    ensures |commands| == |segments|
    ensures forall k :: 0 <= k < |segments| ==> commands[k] == CutCommand(videoPath, segments[k], k + 1)
  {
    commands := [];
    var i := 1;
    while i <= |segments|
      invariant 1 <= i <= |segments| + 1
      invariant CutsSoFar(commands, videoPath, segments, i - 1)
    {
      var segment := segments[i - 1];
      var command := CutCommand(videoPath, segment, i);
      CutsExtend(commands, videoPath, segments, i - 1);
      commands := commands + [command];
      i := i + 1;
    }
  }

  // ---------------------------------------------------------------------------
  // Joining: the output is always out.mp4

  /** The fixed output name: the joined video is `out.mp4`. */
  const OutName: string := "out"

  /**
   * `join_segments` of this file: the same three loops as create_video.py's,
   * the same insertion of the title window into the caller's list, and the
   * output file fixed to `out.mp4`.
   */
  method JoinSegments(segments: SegmentList) returns (command: string)
    modifies segments
    ensures segments.items == [CreateVideo.TitleWindow] + old(segments.items)
    ensures command == CreateVideo.JoinCommand(OutName, old(segments.items))
  {
    ghost var original := segments.items;
    var n := |segments.items|;
    command := CreateVideo.AppendInputs("ffmpeg -hide_banner ", n + 1);
    command := command + "-filter_complex \"";
    ghost var head := command;
    command := CreateVideo.AppendRenames(command, n + 1);
    segments.items := [CreateVideo.TitleWindow] + segments.items;
    assert segments.items[1..] == original;
    command := CreateVideo.AppendTransitions(command, segments.items);
    var last := NatToString(|segments.items| - 1);
    var maps := "\" -map " + Br(last + "v") + " -map " + Br(last + "a") + " -y " + OutName + ".mp4";
    CreateVideo.JoinEnd(head, original, command, maps, OutName);
    command := command[..|command| - 1] + maps;
  }

  /** The join command of this file ends by mapping `[{n}v]` and `[{n}a]` into `out.mp4`. */
  lemma JoinOutput(segments: seq<Segment>)
    ensures var last := NatToString(|segments|);
      EndsWith(CreateVideo.JoinCommand(OutName, segments),
               "\" -map " + Br(last + "v") + " -map " + Br(last + "a") + " -y " + OutName + ".mp4")
  {
    var n := |segments|;
    CreateVideo.OutputMapsText(n, OutName);
    EndsWithAppend("ffmpeg -hide_banner " + CreateVideo.InputArgs(n + 1) + "-filter_complex \""
                   + RenderGraph(CreateVideo.JoinGraph(segments)),
                   CreateVideo.OutputMaps(Label(n, Video), Label(n, Audio), OutName));
  }

  // ---------------------------------------------------------------------------
  // The script

  /**
   * The script at the bottom of video_cut.py, with its recording and
   * segments as parameters: the title, the cuts, the join, and then the
   * removal of `segment_{i}.mp4` for every index of the grown list, so the
   * title clip and every cut clip go. The commands come in the order they run.
   */
  method CutScript(name: string, division: string, videoPath: string, segments: SegmentList)
    returns (commands: seq<string>, removed: seq<string>)
    modifies segments
    ensures segments.items == [CreateVideo.TitleWindow] + old(segments.items)
    ensures |commands| == |old(segments.items)| + 2
    ensures commands[0] == RenderIntroCommand(name, division)
    ensures forall k :: 0 <= k < |old(segments.items)| ==>
              commands[k + 1] == CutCommand(videoPath, old(segments.items)[k], k + 1)
    ensures commands[|commands| - 1] == CreateVideo.JoinCommand(OutName, old(segments.items))
    ensures removed == CreateVideo.ClipFiles(|old(segments.items)| + 1)
  {
    var intro := RenderIntroCommand(name, division);
    var cuts := RenderSegments(videoPath, segments.items);
    var join := JoinSegments(segments);
    commands := [intro] + cuts + [join];
    CreateVideo.Bracket(intro, cuts, join);
    removed := CreateVideo.RemoveClips(|segments.items|);
  }
}
