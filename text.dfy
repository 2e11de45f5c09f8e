/**
 * text.py: `center_concat` centres every line on the width of the longest
 * one, with Python's `str.center`, and joins the results, each followed by
 * "\n".
 */
module Text {
  import opened Wrappers
  import opened Strings

  /**
   * The spaces CPython's `str.center` puts on the left when `s` is shorter
   * than `width`: half the margin, plus one when both the margin and the
   * width are odd (`marg // 2 + (marg & width & 1)`).
   */
  function LeftPad(s: string, width: int): int
    requires |s| < width
  {
    var marg := width - |s|;
    marg / 2 + (if marg % 2 == 1 && width % 2 == 1 then 1 else 0)
  }

  /** `s.center(width)`: unchanged when it is already as wide, else spaces on both sides. */
  function Center(s: string, width: int): string {
    if |s| >= width then s
    else
      var left := LeftPad(s, width);
      Repeat(' ', left) + s + Repeat(' ', width - |s| - left)
  }

  /** `max(len(i) for i in input_lines)`, which needs at least one line. */
  function MaxLen(lines: seq<string>): (m: nat)
    requires lines != []
    ensures forall i :: 0 <= i < |lines| ==> |lines[i]| <= m
    ensures exists i :: 0 <= i < |lines| && |lines[i]| == m
    decreases |lines|
  {
    if |lines| == 1 then |lines[0]|
    else
      var rest := MaxLen(lines[1..]);
      assert forall i :: 1 <= i < |lines| ==> lines[i] == lines[1..][i - 1];
      if |lines[0]| >= rest then |lines[0]| else rest
  }

  /** Every line centred on `width`, in order. */
  function CenteredLines(lines: seq<string>, width: int): (r: seq<string>)
    ensures |r| == |lines|
    ensures forall k :: 0 <= k < |lines| ==> r[k] == Center(lines[k], width)
    decreases |lines|
  {
    if lines == [] then [] else CenteredLines(lines[..|lines| - 1], width) + [Center(lines[|lines| - 1], width)]
  }

  /**
   * `center_concat`: `None` stands for the `ValueError` that `max` raises
   * on an empty list; otherwise the centred lines, each followed by "\n".
   */
  method CenterConcat(inputLines: seq<string>) returns (r: Option<string>)
    ensures inputLines == [] <==> r == None
    ensures inputLines != [] ==> r == Some(Unlines(CenteredLines(inputLines, MaxLen(inputLines))))
  {
    if inputLines == [] {
      return None;
    }
    var maxLineLen := MaxLen(inputLines);
    var output := "";
    for i := 0 to |inputLines|
      invariant output == Unlines(CenteredLines(inputLines[..i], maxLineLen))
    {
      UnlinesSnoc(CenteredLines(inputLines[..i], maxLineLen), Center(inputLines[i], maxLineLen));
      CenteredPrefix(inputLines, i, maxLineLen);
      output := output + Center(inputLines[i], maxLineLen) + "\n";
    }
    assert inputLines[..|inputLines|] == inputLines;
    return Some(output);
  }

  /** One more line of the input adds its centred line at the end. */
  lemma CenteredPrefix(lines: seq<string>, i: int, width: int)
    requires 0 <= i < |lines|
    ensures CenteredLines(lines[..i + 1], width) == CenteredLines(lines[..i], width) + [Center(lines[i], width)]
  {
    assert lines[..i + 1][..i] == lines[..i];
  }

  // ---------------------------------------------------------------------------
  // Properties of centring

  /**
   * A centred line is as wide as `width` (or as `s` when that is wider): `s`
   * unchanged at offset `left`, spaces before and after it, and the two
   * margins differ by at most one, the left one being the larger exactly
   * when the margin and the width are both odd.
   */
  lemma CenterShape(s: string, width: int)
    ensures var r := Center(s, width);
      var left := if |s| < width then LeftPad(s, width) else 0;
      var right := |r| - |s| - left;
      && |r| == (if |s| < width then width else |s|)
      && 0 <= left && 0 <= right
      && r[left..left + |s|] == s
      && (forall i :: 0 <= i < left ==> r[i] == ' ')
      && (forall i :: left + |s| <= i < |r| ==> r[i] == ' ')
      && (left - right == 1 <==> (width - |s|) % 2 == 1 && width % 2 == 1 && |s| < width)
      && (right - left == 1 <==> (width - |s|) % 2 == 1 && width % 2 == 0 && |s| < width)
      && -1 <= left - right <= 1
  {
    if |s| < width {
      var left := LeftPad(s, width);
      var pre, post := Repeat(' ', left), Repeat(' ', width - |s| - left);
      var r := Center(s, width);
      assert r == pre + s + post;
      assert r[left..left + |s|] == s;
      forall i | left + |s| <= i < |r|
        ensures r[i] == ' '
      {
        assert r[i] == post[i - left - |s|];
      }
    }
  }

  /** From the example in text.py's `__main__` block: `'temp'.center(11)` puts four spaces before and three after. */
  lemma CenterExample()
    ensures Center("temp", 11) == "    temp   "
  {
    assert |"temp"| == 4;
    assert LeftPad("temp", 11) == 4;
    assert Repeat(' ', 4) == "    " by {
      RepeatLiteral4();
    }
    assert Repeat(' ', 3) == "   " by {
      RepeatLiteral3();
    }
  }

  lemma RepeatLiteral3()
    ensures Repeat(' ', 3) == "   "
  {
    assert Repeat(' ', 1) == " " by {
      assert Repeat(' ', 0) == "";
    }
    assert Repeat(' ', 2) == "  ";
  }

  lemma RepeatLiteral4()
    ensures Repeat(' ', 4) == "    "
  {
    RepeatLiteral3();
  }

  /** The example in text.py's `__main__` block: `center_concat(['temp', 'hello world'])`. */
  lemma CenterConcatExample()
    ensures Unlines(CenteredLines(["temp", "hello world"], MaxLen(["temp", "hello world"])))
            == "    temp   \nhello world\n"
  {
    ExampleWidth();
    ExampleCentered();
    UnlinesTwo("    temp   ", "hello world");
  }

  lemma ExampleWidth()
    ensures MaxLen(["temp", "hello world"]) == 11
  {
    var lines := ["temp", "hello world"];
    assert lines[1..] == ["hello world"];
  }

  lemma ExampleCentered()
    ensures CenteredLines(["temp", "hello world"], 11) == ["    temp   ", "hello world"]
  {
    CenterExample();
    assert |"hello world"| == 11;
  }

  lemma UnlinesTwo(a: string, b: string)
    ensures Unlines([a, b]) == a + "\n" + b + "\n"
  {
    assert [a][1..] == [];
    assert Unlines([a]) == a + "\n";
    UnlinesSnoc([a], b);
    assert [a] + [b] == [a, b];
  }

  /**
   * The output of `center_concat`, split at its newlines, is one line per
   * input in input order: each exactly `max_line_len` wide and holding the
   * input line between runs of spaces.
   */
  lemma CenterConcatLines(lines: seq<string>)
    requires lines != []
    requires forall i :: 0 <= i < |lines| ==> '\n' !in lines[i]
    ensures var out := Lines(Unlines(CenteredLines(lines, MaxLen(lines))));
      && |out| == |lines|
      && forall k :: 0 <= k < |lines| ==>
           && |out[k]| == MaxLen(lines)
           && out[k] == Center(lines[k], MaxLen(lines))
           && (|lines[k]| == MaxLen(lines) ==> out[k] == lines[k])
  {
    var m := MaxLen(lines);
    var centered := CenteredLines(lines, m);
    forall k | 0 <= k < |centered|
      ensures '\n' !in centered[k] && |centered[k]| == m
    {
      CenterShape(lines[k], m);
      CenterNoNewline(lines[k], m);
    }
    LinesUnlines(centered);
  }

  /** Centring adds only spaces, so it introduces no newline. */
  lemma CenterNoNewline(s: string, width: int)
    requires '\n' !in s
    ensures '\n' !in Center(s, width)
  {
    if |s| < width {
      var left := LeftPad(s, width);
      var pre, post := Repeat(' ', left), Repeat(' ', width - |s| - left);
      assert Center(s, width) == pre + s + post;
      assert '\n' !in pre && '\n' !in post;
    }
  }
}
