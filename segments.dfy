/**
 * A segment is a `(start, stop)` pair of seconds into the source recording.
 * The scripts keep the segments in one Python list that is shared by
 * reference (the `VideoInfo` record stores it, `join_segments` grows it in
 * place), so the list itself is an object here.
 */
module Segments {

  datatype Segment = Segment(start: int, stop: int)

  /** The clip length that `-t {stop - start}` asks for and the offset recurrence adds up. */
  function Duration(s: Segment): int {
    s.stop - s.start
  }

  /** Sum of the durations of `segs`. */
  function TotalDuration(segs: seq<Segment>): int {
    if segs == [] then 0 else Duration(segs[0]) + TotalDuration(segs[1..])
  }

  /** Taking one more segment adds its duration. */
  lemma {:induction false} TotalDurationSnoc(segs: seq<Segment>, i: nat)
    requires i < |segs|
    ensures TotalDuration(segs[..i + 1]) == TotalDuration(segs[..i]) + Duration(segs[i])
    decreases i
  {
    if i > 0 {
      assert segs[..i + 1][1..] == segs[1..][..i];
      assert segs[..i][1..] == segs[1..][..i - 1];
      TotalDurationSnoc(segs[1..], i - 1);
    }
  }

  /** The caller's mutable list of segments. */
  class SegmentList {
    var items: seq<Segment>

    constructor (items: seq<Segment>)
      ensures this.items == items
    {
      this.items := items;
    }
  }
}
