/** `splitContent` (src/server/speechify.ts:51-61): a narration is cut at
    its line breaks and the lines are regrouped three at a time, so that no
    queued chunk holds more than three lines. */
module Segmenter {
  import opened Strings

  const GroupSize: nat := 3

  /** Repeated `lines.splice(0, 3)`: consecutive groups of three lines, the
      last one possibly shorter. */
  function Groups(lines: seq<string>): (r: seq<seq<string>>)
    ensures |r| == (|lines| + GroupSize - 1) / GroupSize
    ensures forall i :: 0 <= i < |r| ==> 1 <= |r[i]| <= GroupSize
    ensures forall i :: 0 <= i < |r| - 1 ==> |r[i]| == GroupSize
    ensures Flatten(r) == lines
    decreases |lines|
  {
    if |lines| == 0 then []
    else
      var n := if |lines| < GroupSize then |lines| else GroupSize;
      var rest := Groups(lines[n..]);
      assert lines[..n] + Flatten(rest) == lines;
      [lines[..n]] + rest
  }

  /** All groups laid end to end. */
  function Flatten(groups: seq<seq<string>>): seq<string>
  {
    if |groups| == 0 then [] else groups[0] + Flatten(groups[1..])
  }

  /** Each group as one string, `group.join('\n')`. */
  function JoinEach(groups: seq<seq<string>>): (r: seq<string>)
    ensures |r| == |groups|
    ensures forall i :: 0 <= i < |groups| ==> r[i] == Join(groups[i], "\n")
  {
    if |groups| == 0 then [] else [Join(groups[0], "\n")] + JoinEach(groups[1..])
  }

  /** The lines, three at a time, each group joined with '\n'. */
  function Chunked(lines: seq<string>): seq<string>
    decreases |lines|
  {
    if |lines| == 0 then []
    else
      var n := if |lines| < GroupSize then |lines| else GroupSize;
      [Join(lines[..n], "\n")] + Chunked(lines[n..])
  }

  /** What `splitContent(content)` returns. */
  function Segments(content: string): seq<string>
  {
    Chunked(Split(content, '\n'))
  }

  /** `Chunked` joins each of the `Groups`. */
  lemma {:induction false} ChunkedGroups(lines: seq<string>)
    ensures Chunked(lines) == JoinEach(Groups(lines))
    decreases |lines|
  {
    if |lines| > 0 {
      var n := if |lines| < GroupSize then |lines| else GroupSize;
      ChunkedGroups(lines[n..]);
      GroupsStep(lines, n);
    }
  }

  /** `splitContent`, with its loop over the remaining lines. */
  method SplitContent(content: string) returns (resultContent: seq<string>)
    ensures resultContent == Segments(content)
  {
    var lines := Split(content, '\n');
    resultContent := [];
    while |lines| > 0
      invariant resultContent + Chunked(lines) == Segments(content)
      decreases |lines|
    {
      var n := if |lines| < GroupSize then |lines| else GroupSize;
      var line := Join(lines[..n], "\n");
      assert resultContent + Chunked(lines) == (resultContent + [line]) + Chunked(lines[n..]);
      resultContent := resultContent + [line];
      lines := lines[n..];
    }
    assert resultContent + [] == resultContent;
  }

  /** One turn of the loop in `splitContent`: the first group, then the rest. */
  lemma GroupsStep(lines: seq<string>, n: nat)
    requires |lines| > 0 && n == if |lines| < GroupSize then |lines| else GroupSize
    ensures JoinEach(Groups(lines)) == [Join(lines[..n], "\n")] + JoinEach(Groups(lines[n..]))
  {
    var rest := Groups(lines[n..]);
    assert Groups(lines) == [lines[..n]] + rest;
    assert ([lines[..n]] + rest)[1..] == rest;
  }

  /** Joining the joined groups is joining the lines. */
  lemma {:induction false} JoinFlatten(groups: seq<seq<string>>)
    requires forall i :: 0 <= i < |groups| ==> |groups[i]| >= 1
    ensures Join(JoinEach(groups), "\n") == Join(Flatten(groups), "\n")
  {
    if |groups| > 1 {
      JoinFlatten(groups[1..]);
      var rest := groups[1..];
      assert JoinEach(groups) == [Join(groups[0], "\n")] + JoinEach(rest);
      assert |Flatten(rest)| >= 1 by { FlattenLength(rest); }
      JoinAppend(groups[0], Flatten(rest), "\n");
    } else if |groups| == 1 {
      assert Flatten(groups) == groups[0] + Flatten(groups[1..]) == groups[0];
    }
  }

  lemma {:induction false} FlattenLength(groups: seq<seq<string>>)
    requires |groups| >= 1
    requires forall i :: 0 <= i < |groups| ==> |groups[i]| >= 1
    ensures |Flatten(groups)| >= 1
  {
  }

  /** Every segment holds at most three lines, and every segment but the
      last exactly three. */
  lemma SegmentLines(content: string, i: nat)
    requires i < |Segments(content)|
    ensures |Split(Segments(content)[i], '\n')| <= GroupSize
    ensures i < |Segments(content)| - 1 ==> |Split(Segments(content)[i], '\n')| == GroupSize
  {
    var lines := Split(content, '\n');
    ChunkedGroups(lines);
    var groups := Groups(lines);
    var g := groups[i];
    forall k | 0 <= k < |g| ensures '\n' !in g[k] {
      GroupElement(lines, i, k);
    }
    SplitJoin(g, '\n');
  }

  /** An element of a group is one of the lines. */
  lemma {:induction false} GroupElement(lines: seq<string>, i: nat, k: nat)
    requires i < |Groups(lines)| && k < |Groups(lines)[i]|
    ensures exists j :: 0 <= j < |lines| && Groups(lines)[i][k] == lines[j]
    decreases |lines|
  {
    var n := if |lines| < GroupSize then |lines| else GroupSize;
    if i == 0 {
      assert Groups(lines)[0][k] == lines[k];
    } else {
      GroupElement(lines[n..], i - 1, k);
      var j :| 0 <= j < |lines[n..]| && Groups(lines[n..])[i - 1][k] == lines[n..][j];
      assert Groups(lines)[i][k] == lines[n + j];
    }
  }

  /** The promises of `splitContent`: never empty, `ceil(N / 3)` segments for
      N lines, and the segments re-joined with '\n' are the input. */
  lemma SegmentsProperties(content: string)
    ensures |Segments(content)| >= 1
    ensures |Segments(content)| == (|Split(content, '\n')| + 2) / 3
    ensures Join(Segments(content), "\n") == content
  {
    var lines := Split(content, '\n');
    ChunkedGroups(lines);
    JoinFlatten(Groups(lines));
    JoinSplit(content, '\n');
  }

  /** A narration of at most three lines is queued as a single chunk. */
  lemma SegmentsOfShort(content: string)
    requires |Split(content, '\n')| <= GroupSize
    ensures Segments(content) == [content]
  {
    var lines := Split(content, '\n');
    assert lines[..|lines|] == lines && lines[|lines|..] == [];
    assert Chunked(lines) == [Join(lines, "\n")] + Chunked([]);
    JoinSplit(content, '\n');
  }

  /** The empty narration is one empty segment. */
  lemma SegmentsOfEmpty()
    ensures Segments("") == [""]
  {
  }
}
