/**
 * The ffmpeg `-filter_complex` graphs the scripts write, as records.
 *
 * A graph is a sequence of chains, each `[in1][in2]filter[out]`: it reads
 * named pads and writes named pads. The scripts build the graph text
 * directly; here the chains are data, `RenderGraph` turns them into the
 * text, and `Run` says when the chains are wired correctly: every pad a
 * chain reads is live (an input stream, or written by an earlier chain and
 * not read since), and a chain never writes a pad that is still live.
 */
module FilterGraph {
  import opened Wrappers
  import opened Strings

  /**
   * Length in seconds of every crossfade: the `d=1` written into the audio
   * crossfade and the video fade-in, and the second each transition takes
   * off the running offset.
   */
  const CrossfadeDuration: nat := 1

  datatype Media = Video | Audio

  datatype Pad =
    | Source(input: nat)                // `[0]`: input `input` as a whole
    | Stream(input: nat, media: Media)  // `[i:v]`, `[i:a]`: a stream of input `i`
    | Label(index: nat, media: Media)   // `[iv]`, `[ia]`: the current video or audio of segment `i`
    | Pts(of: Pad)                      // `[<pad>_pts]`: a video pad after `setpts`
    | FirstLine                         // `[firstline]`
    | IntroVideo                        // `[introvid]`
    | IntroAudio                        // `[introaudio]`

  function MediaLetter(m: Media): string {
    if m == Video then "v" else "a"
  }

  /** The name of a pad, as it stands between the brackets. */
  function PadName(p: Pad): string {
    match p
    case Source(i) => NatToString(i)
    case Stream(i, m) => NatToString(i) + ":" + MediaLetter(m)
    case Label(i, m) => NatToString(i) + MediaLetter(m)
    case Pts(q) => PadName(q) + "_pts"
    case FirstLine => "firstline"
    case IntroVideo => "introvid"
    case IntroAudio => "introaudio"
  }

  lemma StreamLabelNames(i: nat)
    ensures PadName(Stream(i, Video)) == NatToString(i) + ":v"
    ensures PadName(Stream(i, Audio)) == NatToString(i) + ":a"
    ensures PadName(Label(i, Video)) == NatToString(i) + "v"
    ensures PadName(Label(i, Audio)) == NatToString(i) + "a"
  {
    var s := NatToString(i);
    assert s + ":" + "v" == s + ":v";
    assert s + ":" + "a" == s + ":a";
  }

  /** The last character of a pad name tells which kind of pad it is. */
  lemma PadNameEnd(p: Pad)
    ensures |PadName(p)| >= 2 || p.Source?
    ensures var s := PadName(p);
      && |s| >= 1
      && (p.Source? ==> IsDigit(s[|s| - 1]))
      && (p.Stream? || p.Label? ==> |s| >= 2 && s[|s| - 1] == MediaLetter(p.media)[0])
      && (p.Stream? ==> s[|s| - 2] == ':')
      && (p.Label? ==> IsDigit(s[|s| - 2]))
      && (p.Pts? ==> s[|s| - 1] == 's')
      && (p == FirstLine ==> s[|s| - 1] == 'e')
      && (p == IntroVideo ==> s[|s| - 1] == 'd')
      && (p == IntroAudio ==> s[|s| - 1] == 'o')
  {
    match p
    case Pts(q) => PadNameEnd(q);
    case _ =>
  }

  /** Different pads have different names, so the wiring proved on records holds of the text. */
  lemma {:induction false} PadNameInjective(p: Pad, q: Pad)
    ensures PadName(p) == PadName(q) ==> p == q
    decreases p
  {
    if PadName(p) == PadName(q) {
      PadNameEnd(p);
      PadNameEnd(q);
      match p
      case Source(i) => NatToStringInjective(i, q.input);
      case Stream(i, m) => StreamNameInjective(i, m, q);
      case Label(i, m) => LabelNameInjective(i, m, q);
      case Pts(a) =>
        PtsNamePrefix(a, q);
        PadNameInjective(a, q.of);
      case FirstLine =>
      case IntroVideo =>
      case IntroAudio =>
    }
  }

  lemma StreamNameInjective(i: nat, m: Media, q: Pad)
    requires q.Stream? && PadName(Stream(i, m)) == PadName(q)
    requires var s := PadName(q); |s| >= 2 && s[|s| - 1] == MediaLetter(q.media)[0]
    ensures q == Stream(i, m)
  {
    var s, t := PadName(Stream(i, m)), PadName(q);
    assert s[..|s| - 2] == NatToString(i);
    assert t[..|t| - 2] == NatToString(q.input);
    NatToStringInjective(i, q.input);
    assert MediaLetter(m)[0] == MediaLetter(q.media)[0];
  }

  lemma LabelNameInjective(i: nat, m: Media, q: Pad)
    requires q.Label? && PadName(Label(i, m)) == PadName(q)
    requires var s := PadName(q); |s| >= 2 && s[|s| - 1] == MediaLetter(q.media)[0]
    ensures q == Label(i, m)
  {
    var s, t := PadName(Label(i, m)), PadName(q);
    assert s[..|s| - 1] == NatToString(i);
    assert t[..|t| - 1] == NatToString(q.index);
    NatToStringInjective(i, q.index);
    assert MediaLetter(m)[0] == MediaLetter(q.media)[0];
  }

  lemma PtsNamePrefix(a: Pad, q: Pad)
    requires q.Pts? && PadName(Pts(a)) == PadName(q)
    ensures PadName(a) == PadName(q.of)
  {
    var s, t := PadName(Pts(a)), PadName(q);
    assert s[..|s| - 4] == PadName(a);
    assert t[..|t| - 4] == PadName(q.of);
  }

  datatype Filter =
    | Null                                // `null`: pass the video through
    | ANull                               // `anull`: pass the audio through
    | ACrossfade                          // `acrossfade=d=1`
    | ResetPts                            // `setpts=PTS-STARTPTS`
    | FadeInShift(offset: int)            // `fade=in:st=0:d=1:alpha=1,setpts=PTS-STARTPTS+(offset/TB)`
    | Overlay                             // `overlay`
    | DrawText(text: string, y: string, fontColor: string, fontSize: int)

  function RenderFilter(f: Filter): string {
    match f
    case Null => "null"
    case ANull => "anull"
    case ACrossfade => "acrossfade=d=1"
    case ResetPts => "setpts=PTS-STARTPTS"
    case FadeInShift(offset) =>
      "fade=in:st=0:d=1:alpha=1,setpts=PTS-STARTPTS+(" + IntToString(offset) + "/TB)"
    case Overlay => "overlay"
    case DrawText(text, y, fontColor, fontSize) =>
      "drawtext=" + Join(":", ["text=" + text, "x=(w-text_w)/2", "y=" + y,
                               "fontcolor=" + fontColor, "fontsize=" + IntToString(fontSize)])
  }

  datatype Chain = Chain(inputs: seq<Pad>, filter: Filter, outputs: seq<Pad>)

  /** One pad reference: the name between brackets. */
  function Br(name: string): string {
    "[" + name + "]"
  }

  function Bracketed(pads: seq<Pad>): string {
    if pads == [] then "" else Br(PadName(pads[0])) + Bracketed(pads[1..])
  }

  lemma BracketedOne(p: Pad)
    ensures Bracketed([p]) == Br(PadName(p))
  {
    assert [p][1..] == [];
  }

  lemma BracketedTwo(p: Pad, q: Pad)
    ensures Bracketed([p, q]) == Br(PadName(p)) + Br(PadName(q))
  {
    assert [p, q][1..] == [q];
    BracketedOne(q);
  }

  function RenderChain(c: Chain): string {
    Bracketed(c.inputs) + RenderFilter(c.filter) + Bracketed(c.outputs)
  }

  /** The graph text: the chains separated by `;`. */
  function RenderGraph(g: seq<Chain>): string {
    if |g| == 0 then ""
    else if |g| == 1 then RenderChain(g[0])
    else RenderChain(g[0]) + ";" + RenderGraph(g[1..])
  }

  lemma RenderGraphFour(g: seq<Chain>)
    requires |g| == 4
    ensures RenderGraph(g)
            == RenderChain(g[0]) + ";" + (RenderChain(g[1]) + ";" + (RenderChain(g[2]) + ";" + RenderChain(g[3])))
  {
    assert RenderGraph(g[3..]) == RenderChain(g[3]) by {
      assert g[3..] == [g[3]];
    }
    assert RenderGraph(g[2..]) == RenderChain(g[2]) + ";" + RenderGraph(g[3..]) by {
      assert g[2..][1..] == g[3..];
    }
    assert RenderGraph(g[1..]) == RenderChain(g[1]) + ";" + RenderGraph(g[2..]) by {
      assert g[1..][1..] == g[2..];
    }
  }

  /** The chains each followed by `;`, as the scripts append them before cutting off the last `;`. */
  function Terminated(g: seq<Chain>): string {
    if g == [] then "" else RenderChain(g[0]) + ";" + Terminated(g[1..])
  }

  lemma {:induction false} TerminatedAppend(a: seq<Chain>, b: seq<Chain>)
    ensures Terminated(a + b) == Terminated(a) + Terminated(b)
    decreases |a|
  {
    if a == [] {
      assert a + b == b;
    } else {
      assert (a + b)[0] == a[0];
      assert (a + b)[1..] == a[1..] + b;
      TerminatedAppend(a[1..], b);
    }
  }

  /** A non-empty graph followed by `;` is its chains each followed by `;`. */
  lemma {:induction false} TerminatedIsRendered(g: seq<Chain>)
    requires g != []
    ensures Terminated(g) == RenderGraph(g) + ";"
    decreases |g|
  {
    if |g| > 1 {
      TerminatedIsRendered(g[1..]);
    }
  }

  /** Cutting the last character off a terminated graph leaves exactly the rendered graph. */
  lemma DropLastSemicolon(prefix: string, g: seq<Chain>, s: string)
    requires g != [] && s == prefix + Terminated(g)
    ensures |s| >= 1 && s[..|s| - 1] == prefix + RenderGraph(g)
  {
    TerminatedIsRendered(g);
    assert s == (prefix + RenderGraph(g)) + ";";
  }

  // ---------------------------------------------------------------------------
  // Wiring

  predicate NoDuplicates(pads: seq<Pad>) {
    forall i, j :: 0 <= i < j < |pads| ==> pads[i] != pads[j]
  }

  function PadSet(pads: seq<Pad>): set<Pad> {
    set p | p in pads
  }

  /**
   * A chain may run on the live pads when it reads live pads only, none twice,
   * and each pad it writes is distinct and not live once its inputs are consumed.
   */
  predicate CanRun(live: set<Pad>, c: Chain) {
    && (forall p :: p in c.inputs ==> p in live)
    && NoDuplicates(c.inputs)
    && NoDuplicates(c.outputs)
    && (forall p :: p in c.outputs ==> p !in live - PadSet(c.inputs))
  }

  /** The live pads after a chain: its inputs are consumed and its outputs produced. */
  function After(live: set<Pad>, c: Chain): set<Pad> {
    (live - PadSet(c.inputs)) + PadSet(c.outputs)
  }

  /** Runs the chains in order from the live pads `live`; `None` when some chain is wired wrongly. */
  function Run(live: set<Pad>, g: seq<Chain>): Option<set<Pad>>
    decreases |g|
  {
    if g == [] then Some(live)
    else if CanRun(live, g[0]) then Run(After(live, g[0]), g[1..])
    else None
  }

  /** A chain with one input and one output. */
  lemma StepOne(live: set<Pad>, i: Pad, f: Filter, o: Pad)
    requires i in live && o !in live - {i}
    ensures CanRun(live, Chain([i], f, [o])) && After(live, Chain([i], f, [o])) == live - {i} + {o}
  {
    assert PadSet([i]) == {i};
    assert PadSet([o]) == {o};
  }

  /** A chain with two inputs and one output. */
  lemma StepTwo(live: set<Pad>, i1: Pad, i2: Pad, f: Filter, o: Pad)
    requires i1 in live && i2 in live && i1 != i2 && o !in live - {i1, i2}
    ensures CanRun(live, Chain([i1, i2], f, [o])) && After(live, Chain([i1, i2], f, [o])) == live - {i1, i2} + {o}
  {
    assert PadSet([i1, i2]) == {i1, i2};
    assert PadSet([o]) == {o};
  }

  /** Running a non-empty graph runs its first chain, then the rest. */
  lemma RunStep(live: set<Pad>, g: seq<Chain>, next: set<Pad>)
    requires g != [] && CanRun(live, g[0]) && After(live, g[0]) == next
    ensures Run(live, g) == Run(next, g[1..])
  {
  }

  /** Running two graphs one after the other is running their concatenation. */
  lemma {:induction false} RunAppend(live: set<Pad>, a: seq<Chain>, b: seq<Chain>)
    ensures Run(live, a + b) == match Run(live, a) case None => None case Some(l) => Run(l, b)
    decreases |a|
  {
    if a == [] {
      assert a + b == b;
    } else {
      assert (a + b)[0] == a[0];
      assert (a + b)[1..] == a[1..] + b;
      if CanRun(live, a[0]) {
        RunAppend(After(live, a[0]), a[1..], b);
      }
    }
  }

  /** The video and audio labels of segments `lo` up to, not including, `hi`. */
  function Labels(lo: nat, hi: nat): (s: set<Pad>)
    ensures forall p: Pad :: p in s <==> p.Label? && lo <= p.index < hi
  {
    var s := (set i: nat | lo <= i < hi :: Label(i, Video)) + (set i: nat | lo <= i < hi :: Label(i, Audio));
    assert forall p: Pad :: p.Label? && lo <= p.index < hi ==> p in s by {
      forall p: Pad | p.Label? && lo <= p.index < hi ensures p in s {
        if p.media == Video {
          assert p == Label(p.index, Video);
        } else {
          assert p == Label(p.index, Audio);
        }
      }
    }
    s
  }

  /** The video and audio streams of inputs `0` up to, not including, `n`. */
  function Streams(n: nat): (s: set<Pad>)
    ensures forall p: Pad :: p in s <==> p.Stream? && p.input < n
  {
    var s := (set i: nat | i < n :: Stream(i, Video)) + (set i: nat | i < n :: Stream(i, Audio));
    assert forall p: Pad :: p.Stream? && p.input < n ==> p in s by {
      forall p: Pad | p.Stream? && p.input < n ensures p in s {
        if p.media == Video {
          assert p == Stream(p.input, Video);
        } else {
          assert p == Stream(p.input, Audio);
        }
      }
    }
    s
  }
}
