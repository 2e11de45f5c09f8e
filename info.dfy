/**
 * The description of one output video (video_info.py): the two title
 * lines, the source recording, the segments to keep and the output name.
 */
module Info {
  import opened Wrappers
  import opened Strings
  import opened Segments

  /**
   * The name used when none is given: the second line, `_`, the first line,
   * with every space replaced by `_`.
   */
  function DefaultOutputName(firstLine: string, secondLine: string): (r: string)
    ensures r == ReplaceChar(secondLine, ' ', '_') + "_" + ReplaceChar(firstLine, ' ', '_')
    ensures ' ' !in r
    ensures |r| == |secondLine| + |firstLine| + 1
  {
    var combined := secondLine + "_" + firstLine;
    ReplaceCharConcat(secondLine + "_", firstLine, ' ', '_');
    ReplaceCharConcat(secondLine, "_", ' ', '_');
    ReplaceChar(combined, ' ', '_')
  }

  /** Python's `str((start, stop))`. */
  function SegmentRepr(s: Segment): string {
    "(" + IntToString(s.start) + ", " + IntToString(s.stop) + ")"
  }

  /** Python's `str(segments)` for a list of `(start, stop)` pairs. */
  function SegmentsRepr(segments: seq<Segment>): (r: string)
    ensures '\n' !in r
  {
    var parts := seq(|segments|, i requires 0 <= i < |segments| => SegmentRepr(segments[i]));
    JoinNoNewline(", ", parts);
    "[" + Join(", ", parts) + "]"
  }

  /** The five labelled lines of `__str__`, in order. */
  function DescribedFields(firstLine: string, secondLine: string, path: string, outputFileName: string,
                           segments: seq<Segment>): seq<string>
  {
    ["First Line: " + firstLine, "Second Line: " + secondLine, "Path: " + path,
     "Output File Name: " + outputFileName, "Segments: " + SegmentsRepr(segments)]
  }

  /** The text `__str__` builds: each labelled line followed by "\n". */
  function Describe(firstLine: string, secondLine: string, path: string, outputFileName: string,
                    segments: seq<Segment>): string
  {
    Unlines(DescribedFields(firstLine, secondLine, path, outputFileName, segments))
  }

  /** The description splits back into exactly its five labelled lines, in order. */
  lemma DescribeLines(firstLine: string, secondLine: string, path: string, outputFileName: string,
                      segments: seq<Segment>)
    requires '\n' !in firstLine && '\n' !in secondLine && '\n' !in path && '\n' !in outputFileName
    ensures Lines(Describe(firstLine, secondLine, path, outputFileName, segments))
            == ["First Line: " + firstLine, "Second Line: " + secondLine, "Path: " + path,
                "Output File Name: " + outputFileName, "Segments: " + SegmentsRepr(segments)]
  {
    var lines := DescribedFields(firstLine, secondLine, path, outputFileName, segments);
    FieldsNoNewline(firstLine, secondLine, path, outputFileName, SegmentsRepr(segments));
    LinesUnlines(lines);
  }

  lemma FieldsNoNewline(firstLine: string, secondLine: string, path: string, outputFileName: string, repr: string)
    requires '\n' !in firstLine && '\n' !in secondLine && '\n' !in path && '\n' !in outputFileName
    requires '\n' !in repr
    ensures var lines := ["First Line: " + firstLine, "Second Line: " + secondLine, "Path: " + path,
                          "Output File Name: " + outputFileName, "Segments: " + repr];
      forall i :: 0 <= i < |lines| ==> '\n' !in lines[i]
  {
  }

  class VideoInfo {
    var firstLine: string
    var secondLine: string
    var path: string
    var segments: SegmentList
    var outputFileName: string

    /** `segments` is kept by reference: later changes to the list are seen through this record. */
    constructor (firstLine: string, secondLine: string, path: string, segments: SegmentList,
                 outputFileName: Option<string>)
      ensures this.firstLine == firstLine && this.secondLine == secondLine && this.path == path
      ensures this.segments == segments
      ensures this.outputFileName ==
                match outputFileName
                case None => DefaultOutputName(firstLine, secondLine)
                case Some(name) => name
    {
      this.firstLine := firstLine;
      this.secondLine := secondLine;
      this.path := path;
      this.segments := segments;
      if outputFileName.None? {
        this.outputFileName := DefaultOutputName(firstLine, secondLine);
      } else {
        this.outputFileName := outputFileName.value;
      }
    }

    /** `__str__`. */
    function ToString(): string
      reads this, segments
    {
      Describe(firstLine, secondLine, path, outputFileName, segments.items)
    }
  }
}
