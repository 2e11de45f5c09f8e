# AIVideoEditor command builder, in Dafny

This project models the part of AIVideoEditor that turns a description of one
output video into the ffmpeg commands that make it. The description holds two
title lines, the source recording, the `(start, stop)` segments to keep and the
output name. The commands are:

- a 3-second title clip with the two lines drawn on a black background;
- one cut per segment;
- one join command that crossfades all the clips into the output file.

The model also covers the terminal progress bar and the line-centring helper
that ship beside these scripts.

The model covers these modules:

- `Strings`: Python's `str(int)`, `c * k`, `sep.join`, `str.replace` for a
  single character, and text made of "\n"-terminated lines.
- `Segments`: the `(start, stop)` segment. The caller's list is a
  `SegmentList` object, because the scripts share it by reference and grow it
  in place.
- `FilterGraph`: ffmpeg filter chains as records (input pads, filter, output
  pads), rendered to text separately.
  - Pad names are proved injective.
  - Wiring has an execution semantics, `Run`, over the set of live pads. A
    chain may run only when every pad it reads is live. It consumes its
    inputs and may not write a pad that is still live afterwards.
- `CreateVideo` (create_video.py):
  - the builders `cross_fade`, `make_text_intro_video` and
    `make_text_intro_filter`, each tied to the rendering of its chains;
  - the cut commands;
  - `join_segments` as a method over the caller's list, which receives the
    `(0, 3)` title window in place;
  - the offset accumulator and a closed form for it;
  - the whole-graph wiring theorem;
  - `create_video`, which returns its commands and the files it deletes.
- `VideoCut` (video_cut.py): the earlier script. It shares the join loops with
  `CreateVideo`, passes the source path unquoted and always writes `out.mp4`.
- `Progress` (progress_bar.py): the `ProgressBar` class with its `print` and
  `increment`. `print` returns the text it would write.
- `Text` (text.py): `center_concat` with CPython's `str.center` rule.
- `Info` (video_info.py): the `VideoInfo` record, its default output name and
  its `__str__` text.

Two facts about the code are worth stating up front:

- **Offsets accumulate.** Transition `i` adds the duration of segment `i`,
  the one fading out, to the previous offset and subtracts the 1-second
  crossfade. So `(0,98),(145,233)` give 2 and 99
  (`CreateVideo.ExampleOffsets`).
- **Pad names are reused.** `{i+1}v`, `{i+1}a` and `{i}v_pts` are written
  again. `CreateVideo.JoinWiring` proves each is rewritten only after it has
  been consumed.

## Model

| member | source | states |
|---|---|---|
| CreateVideo.CrossFadeRendersChains | create_video.py:42-45 | the text of `cross_fade` is exactly the rendering of four chains: an acrossfade of the two audio pads into `{out}a`, the reset of `video_1` into `{video_1}_pts`, the fade-in of `video_2` shifted by `offset/TB` into `{video_2}_pts`, and the overlay of those two `_pts` pads into `{out}v` |
| CreateVideo.AudioCrossfadeText | create_video.py:42 | the audio chain reads `[audio_1][audio_2]`, has a crossfade length of 1 and writes `[{out}a]` |
| CreateVideo.ResetPtsText | create_video.py:43 | the second chain restarts `video_1` and writes `{video_1}_pts` |
| CreateVideo.FadeInText | create_video.py:44 | the third chain fades `video_2` in over 1 second and shifts it by exactly `offset/TB` into `{video_2}_pts` |
| CreateVideo.OverlayText | create_video.py:45 | the overlay reads only `{video_1}_pts` and `{video_2}_pts` and writes `{out}v` |
| CreateVideo.CrossFadeWiring | create_video.py:42-45 | one transition consumes its four input pads and leaves exactly `{out}v` and `{out}a` live; the `_pts` pads are produced and consumed inside it |
| CreateVideo.CrossFadeFirstHalf | create_video.py:42-43 | the first two chains run, leaving `{out}a` and `{video_1}_pts` in place of the consumed pads |
| CreateVideo.CrossFadeSecondHalf | create_video.py:44-45 | the last two chains run; the overlay consumes both `_pts` pads and produces `{out}v` |
| CreateVideo.IntroInputsShareDuration | create_video.py:69-71 | the title inputs are the colour video, a single space, then the silent audio, and both carry the same `-t {duration}` |
| CreateVideo.DrawTextChainText | create_video.py:96-111 | a drawtext chain is the input pad, `drawtext=`, then the `:`-joined fields with the text inserted verbatim after `text=`, then its output pad |
| CreateVideo.FirstLineText | create_video.py:96-102 | the first title chain reads `[0]`, draws the first line at `y=(h - 4 * text_h)/2` and writes `[firstline]` |
| CreateVideo.SecondLineText | create_video.py:105-111 | the second title chain reads `[firstline]`, draws the second line at `y=(h - text_h)/2` and writes `[introvid]` |
| CreateVideo.IntroAudioText | create_video.py:114 | the audio of the title is renamed from `[1:a]` to `[introaudio]` |
| CreateVideo.IntroFilterRendersChains | create_video.py:93-116 | the text of `make_text_intro_filter` is the rendering of its three chains |
| CreateVideo.IntroWiring | create_video.py:96-114 | starting from `[0]` and `[1:a]`, the title graph leaves exactly `[introvid]` and `[introaudio]` |
| CreateVideo.ClipFiles | create_video.py:11-13 | the clip file names `segment_0.mp4` up to `segment_{n-1}.mp4`, one per index, in index order |
| CreateVideo.ClipFileInjective | create_video.py:145 | different clip indices name different files |
| CreateVideo.RenderIntroTarget | create_video.py:128-130 | the title command writes clip 0, `segment_0.mp4` |
| CreateVideo.CutCommandTarget | create_video.py:145 | the cut command for clip `i` writes `segment_{i}.mp4` |
| CreateVideo.RenderSegments | create_video.py:143-145 | one cut command per segment, in order; the command for segment `k` targets clip `k+1`, seeks to `start` and keeps `stop - start` seconds |
| CreateVideo.OffsetsFrom | create_video.py:165-171 | the accumulator recurrence yields one offset per adjacent pair of the list |
| CreateVideo.OffsetsLength | create_video.py:167 | with `n` content segments there are exactly `n` offsets, one per transition |
| CreateVideo.OffsetsClosedForm | create_video.py:165-171 | offset `i` equals the starting value, plus the durations of segments `0..i`, minus `i+1` crossfade seconds |
| CreateVideo.JoinOffset | create_video.py:165-171 | offset `i` is 3, plus the durations of the first `i` content segments, minus `i+1` |
| CreateVideo.FirstOffset | create_video.py:165-169 | the first offset is always 2 |
| CreateVideo.OffsetStep | create_video.py:168-169 | each offset exceeds the previous one by the duration of the segment fading out, minus 1 |
| CreateVideo.ExampleOffsets | create_video.py:165-171 | for the segments `(0,98),(145,233)` the offsets are `[2, 99]` |
| CreateVideo.OffsetsIncrease | create_video.py:169 | the offsets strictly increase while each segment fading out lasts longer than the 1-second crossfade |
| CreateVideo.NullStageRun | create_video.py:162-163 | renaming inputs `0..k-1` trades their `[i:v]`/`[i:a]` streams for the labels `[iv]`/`[ia]` |
| CreateVideo.TransitionsRun | create_video.py:167-171 | after `t` transitions over `n` labelled clips, exactly the labels of clips `t..n-1` are live: each transition reads `{i}v,{i}a,{i+1}v,{i+1}a` and rewrites `{i+1}v,{i+1}a` only after consuming them |
| CreateVideo.JoinWiring | create_video.py:159-171 | the whole join graph runs from the streams of `segment_0..segment_n`, every pad it reads having been produced earlier, and leaves exactly `[{n}v]` and `[{n}a]` |
| CreateVideo.JoinGraphLayout | create_video.py:162-171 | the graph holds `2(n+1)` renaming chains followed by exactly `n` transitions; transition `i` wires `{i}`/`{i+1}` into `{i+1}` with offset `i` |
| CreateVideo.NullStageText | create_video.py:163 | the text appended for input `i` is `[i:v]null[iv];[i:a]anull[ia];`, the rendering of its two renaming chains |
| CreateVideo.TitleOnlyGraph | create_video.py:162-163 | with no content segments the graph text is `[0:v]null[0v];[0:a]anull[0a]` |
| CreateVideo.JoinCommandNoSegments | create_video.py:158-173 | with no content segments: a single input `segment_0.mp4`, no `cross_fade`, and `[0v]`/`[0a]` mapped straight to the output |
| CreateVideo.TransitionChunk | create_video.py:170-171 | the text appended for transition `i` renders the four chains of that transition, each followed by `;` |
| CreateVideo.OffsetNext | create_video.py:168-169 | one accumulator update computes the next offset of the recurrence |
| CreateVideo.JoinFinish | create_video.py:172-173 | dropping the final character removes exactly the last `;`; the maps of `[{n}v]`/`[{n}a]` and the output file follow the rendered graph |
| CreateVideo.JoinEnd | create_video.py:172-173 | once every chain is appended, the final command is exactly the join command |
| CreateVideo.OutputMapsText | create_video.py:173 | the tail of the join command maps `[{n}v]` and `[{n}a]` and writes `{out_file_name}.mp4` |
| CreateVideo.AppendInputs | create_video.py:159-160 | the first loop appends `-i segment_{i}.mp4 ` for `i` in `0..n`, in order |
| CreateVideo.AppendRenames | create_video.py:162-163 | the second loop appends the renaming chains of every input, each followed by `;` |
| CreateVideo.AppendTransitions | create_video.py:165-171 | the third loop appends one terminated transition per adjacent pair, with the offsets of the recurrence |
| CreateVideo.JoinSegments | create_video.py:149-173 | the caller's list gains `(0, 3)` at the front with its original elements after it, unchanged; the command is the join command of the original segments |
| CreateVideo.RemoveClips | create_video.py:11-15 | the cleanup loop removes `segment_0.mp4` up to `segment_{clips-1}.mp4`, in order |
| CreateVideo.CreateVideo | create_video.py:5-15 | the title command first, then one cut per segment for clips `1..n`, then the join command; the list has grown by the title window, so clips `0..n` are removed, title included |
| VideoCut.CrossFadeRendersChains | video_cut.py:66-71 | this file's `cross_fade` produces the same four chains, with the same pad names and the same 1-second crossfade |
| VideoCut.IntroInputsShareDuration | video_cut.py:12-14 | the video input, a single space, the audio input; both carry the same `-t {duration}` |
| VideoCut.IntroFilterRendersChains | video_cut.py:41-63 | the chains run `[0]`→`[firstline]`→`[introvid]` and `[1:a]`→`[introaudio]`, with `name` and `division` inserted verbatim after `text=` |
| VideoCut.RenderIntroTarget | video_cut.py:74-77 | the title command writes clip 0 |
| VideoCut.CutCommandTarget | video_cut.py:84 | the cut command for clip `i` writes `segment_{i}.mp4` |
| VideoCut.QuotedPathAgrees | video_cut.py:84 | this cut command, given the path wrapped in double quotes, is create_video.py's command for the bare path |
| VideoCut.RenderSegments | video_cut.py:81-84 | one cut command per segment, clips numbered from 1, each with duration `stop - start` |
| VideoCut.JoinSegments | video_cut.py:88-102 | inserts `(0, 3)` at the front of the caller's list in place; the command is the join command with output name `out` |
| VideoCut.JoinOutput | video_cut.py:102 | the join command ends by mapping `[{n}v]` and `[{n}a]` into `out.mp4` |
| VideoCut.CutScript | video_cut.py:105-116 | the title, the cuts and the join run in that order; the list has grown, so the removal loop deletes clips `0..n`, title included |
| Progress.FloorDivBounds | progress_bar.py:12 | Python's `//` rounds towards minus infinity: for a positive divisor the quotient is the largest `q` with `b * q <= a`, and the mirror image for a negative one |
| Progress.PaddedLine | progress_bar.py:12-17 | the status line, padded with spaces up to the previous length when it is shorter, and its unpadded length |
| Progress.ProgressBar.constructor | progress_bar.py:2-7 | a new bar has `n_completed = 0`, `completed = False` and `prev_bar_len = 0` |
| Progress.ProgressBar.Print | progress_bar.py:9-22 | once completed, it writes nothing and changes nothing; `n_jobs == 0` raises division by zero; otherwise it writes the padded line, sets `prev_bar_len` to the unpadded length, and sets `completed` exactly when `n_completed == n_jobs`, writing a final newline then |
| Progress.ProgressBar.Increment | progress_bar.py:24-25 | `n_completed` grows by exactly 1 and no other field changes |
| Progress.FilledBounds | progress_bar.py:12 | for `0 <= n_completed <= n_jobs`, between 0 and `bar_width` cells are filled |
| Progress.BarShape | progress_bar.py:12-13 | the bar is `filled` copies of `█` followed by dashes, exactly `bar_width` cells in all |
| Progress.FilledMonotone | progress_bar.py:12 | `filled` never decreases as `n_completed` grows |
| Progress.FilledFull | progress_bar.py:12 | `filled == bar_width` when `n_completed == n_jobs` |
| Progress.PadToShape | progress_bar.py:16-17 | padding keeps the line as a prefix, adds only spaces, and reaches the previous length |
| Text.MaxLen | text.py:12 | the greatest line length: no line is longer and some line attains it |
| Text.CenteredLines | text.py:14-15 | one centred line per input line, in input order |
| Text.CenterConcat | text.py:2-16 | an empty list fails, as `max` of an empty sequence raises; otherwise the result is every line centred on the longest length, each followed by "\n", in input order |
| Text.CenterShape | text.py:15 | a centred line is exactly as wide as the width (or the line, when that is longer), holds the line unchanged between runs of spaces, and its two margins differ by at most one; the left margin is the larger exactly when the margin and the width are both odd |
| Text.CenterNoNewline | text.py:15 | centring adds only spaces, never a newline |
| Text.CenterExample | text.py:20 | `'temp'.center(11)` is four spaces, `temp`, three spaces |
| Text.CenterConcatExample | text.py:20 | `center_concat(['temp', 'hello world'])` is `"    temp   \nhello world\n"` |
| Text.CenterConcatLines | text.py:12-16 | split at its newlines, the output has one line per input, in order, each exactly `max_line_len` wide; the longest line is unpadded |
| Info.DefaultOutputName | video_info.py:15-16 | the default name is the second line, `_`, then the first line, with every space replaced by `_`; it contains no space and has length `len(second_line) + len(first_line) + 1` |
| Info.VideoInfo.constructor | video_info.py:2-18 | the lines, the path and the segment list are stored as given, the list by reference; a given output name, `""` included, is kept, and a missing one becomes the default name |
| Info.DescribeLines | video_info.py:20-26 | `__str__` is exactly five "\n"-terminated lines, in the fixed order First Line, Second Line, Path, Output File Name, Segments |

## Left out

- **Running commands and deleting files.** Running ffmpeg (`subprocess.run`) and `os.remove` are I/O. Each operation returns the command text it would run, and `CreateVideo`/`CutScript` return the file names they would delete. Whether a file is missing is not modelled: create_video.py catches and ignores the `FileNotFoundError`, while video_cut.py's removal loop does not catch it, so there a missing clip would stop the loop.
- **Progress.ProgressBar.Print, percentage.** The percentage is a float formatted with `:.2f`. It is a parameter holding its text, not computed from `n_completed * 100 / n_jobs`.
- **Progress.ProgressBar.Print, terminal writes.** The terminal write of `print(..., end="")` and the final `print()` are folded into the returned text.
- **Unvalidated input.** The code validates nothing: no check that `stop > start`, no guard on negative offsets, no escaping of the title text inside `text=` or of quotes in the path. The model takes any integers and strings and builds the same text the code does.
- **No error paths.** The code raises no error for a window with `stop <= start` or for an empty segment list, and neither does the model.
- **Invalid entry point.** The `__main__` block of create_video.py (lines 177-186) calls `create_video` with five arguments, but the function takes one `VideoInfo`, so it is not modelled.
- **video_cut.py script constants.** The title lines (`"Nishant Dash"`, `"A1 Poomsae"`), the segments and the recording that video_cut.py's `__main__` block hard-codes are parameters of `VideoCut.CutScript`.
- **Duplicated builders in video_cut.py.** `cross_fade` and the title builders are modelled separately from create_video.py's, with lemmas showing they agree. The join loops themselves are shared.
- **Other files.** make_dataset.py, train.py, model.py and main.py are not part of this model. They cover frame extraction with float rounding, neural-network training and orchestration.
- **Undefined helpers.** `read_config`, `get_fps`, `get_frame_count` and `NestedProgressBar` are used elsewhere in the repository but defined in none of the modelled files. They are not invented here.
- **Info.DescribeLines** assumes that none of the first four fields contains a newline. Otherwise the text still has the same five parts, but splitting it at "\n" no longer returns exactly five lines.
- **Text.CenterConcatLines** assumes the same about the input lines, for the same reason.
- **Python's `str(list)`.** Each segment is rendered as a `(start, stop)` tuple. Other element types the list might hold are not modelled.
