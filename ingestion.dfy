/** The server's queue `MySpeechify` (src/server/speechify.ts:63-98): a
    document is normalised, segmented and appended chunk by chunk; chunks are
    taken from the head. */
module Ingestion {
  import opened Common
  import opened Strings
  import opened Normalizer
  import opened Segmenter
  import opened NormalizerFacts

  /** The chunks `{ ...data, data: sentence }` for each segment, in order. */
  function ChunksOf(doc: Data, segments: seq<string>): (r: seq<StreamChunk>)
    ensures |r| == |segments|
    ensures forall i :: 0 <= i < |r| ==> r[i] == doc.(data := segments[i])
  {
    if |segments| == 0 then [] else [doc.(data := segments[0])] + ChunksOf(doc, segments[1..])
  }

  /** Whether `addToQueue` accepts a document: its parser did not throw and
      the narration is not empty. */
  predicate Accepted(doc: Data, lib: Library)
  {
    var n := Normalize(doc, lib);
    n.Text? && n.text != ""
  }

  /** The chunks `addToQueue` appends for a document: one per segment of its
      narration, or none when the document is not accepted. */
  function Appended(doc: Data, lib: Library): seq<StreamChunk>
  {
    if Accepted(doc, lib) then ChunksOf(doc, Segments(Normalize(doc, lib).text)) else []
  }

  /** What `addToQueue` answers and what the queue becomes afterwards. */
  function Add(queue: seq<StreamChunk>, doc: Data, lib: Library): (bool, seq<StreamChunk>)
  {
    (Accepted(doc, lib), queue + Appended(doc, lib))
  }

  /** What `getNextChunk` answers and what the queue becomes afterwards. */
  function Take(queue: seq<StreamChunk>): (Option<StreamChunk>, seq<StreamChunk>)
  {
    if |queue| == 0 then (None, queue) else (Some(queue[0]), queue[1..])
  }

  class MySpeechify {
    var queue: seq<StreamChunk>
    /** The parsers' foreign collaborators. */
    const lib: Library

    constructor (lib: Library)
      ensures queue == [] && this.lib == lib
    {
      queue := [];
      this.lib := lib;
    }

    method AddToQueue(data: Data) returns (ok: bool)
      modifies this
      ensures (ok, queue) == Add(old(queue), data, lib)
    {
      var formatted := Normalize(data, lib);
      if formatted.Threw? {
        // the exception is caught and logged
        assert queue + Appended(data, lib) == queue;
        return false;
      }
      var formattedTxt := formatted.text;
      if formattedTxt != "" {
        var sentences := SplitContent(formattedTxt);
        ghost var chunks := ChunksOf(data, sentences);
        var i := 0;
        while i < |sentences|
          invariant 0 <= i <= |sentences|
          invariant queue == old(queue) + chunks[..i]
        {
          queue := queue + [data.(data := sentences[i])];
          assert chunks[..i + 1] == chunks[..i] + [chunks[i]];
          i := i + 1;
        }
        assert chunks[..|sentences|] == chunks;
        return true;
      }
      assert queue + Appended(data, lib) == queue;
      return false;
    }

    method GetNextChunk() returns (chunk: Option<StreamChunk>)
      modifies this
      ensures (chunk, queue) == Take(old(queue))
    {
      if |queue| == 0 {
        chunk := None;
      } else {
        chunk := Some(queue[0]);
        queue := queue[1..];
      }
    }
  }

  /** `addToQueue` fails exactly for an unsupported type or a throwing parser,
      and then the queue is unchanged. Otherwise the old queue is a prefix of
      the new one, at least one chunk is appended, every appended chunk is the
      document with only its `data` replaced, and the appended data re-joined
      with '\n' is the whole narration. */
  lemma AddOutcome(queue: seq<StreamChunk>, doc: Data, lib: Library)
    ensures var (ok, q) := Add(queue, doc, lib);
      (ok <==> !doc.kind.Unsupported? && Normalize(doc, lib).Text?) &&
      (!ok ==> q == queue) &&
      (ok ==>
        |q| > |queue| && q[..|queue|] == queue &&
        (forall i :: |queue| <= i < |q| ==> q[i].kind == doc.kind && q[i].source == doc.source) &&
        Join(DataOf(q[|queue|..]), "\n") == Normalize(doc, lib).text)
  {
    if Accepted(doc, lib) {
      var t := Normalize(doc, lib).text;
      SegmentsProperties(t);
      var segs := Segments(t);
      var q := queue + ChunksOf(doc, segs);
      assert q[|queue|..] == ChunksOf(doc, segs);
      DataOfChunks(doc, segs);
    }
  }

  /** The `data` of each chunk. */
  function DataOf(chunks: seq<StreamChunk>): (r: seq<string>)
    ensures |r| == |chunks|
  {
    if |chunks| == 0 then [] else [chunks[0].data] + DataOf(chunks[1..])
  }

  lemma {:induction false} DataOfChunks(doc: Data, segments: seq<string>)
    ensures DataOf(ChunksOf(doc, segments)) == segments
  {
    if |segments| > 0 {
      DataOfChunks(doc, segments[1..]);
      assert ChunksOf(doc, segments)[1..] == ChunksOf(doc, segments[1..]);
    }
  }

  /** A series of submissions, in order, where `chunksFor(d)` is what
      submitting `d` appends (for the server, `Appended(d, lib)`). */
  function AddAll(queue: seq<StreamChunk>, docs: seq<Data>, chunksFor: Data -> seq<StreamChunk>): seq<StreamChunk>
    decreases |docs|
  {
    if |docs| == 0 then queue else AddAll(queue + chunksFor(docs[0]), docs[1..], chunksFor)
  }

  /** The chunks each submission contributes, laid end to end. */
  function Contributed(docs: seq<Data>, chunksFor: Data -> seq<StreamChunk>): seq<StreamChunk>
  {
    if |docs| == 0 then [] else chunksFor(docs[0]) + Contributed(docs[1..], chunksFor)
  }

  /** Taking chunks until the queue answers "empty". */
  function Drain(queue: seq<StreamChunk>): seq<StreamChunk>
    decreases |queue|
  {
    match Take(queue)
    case (None, _) => []
    case (Some(c), rest) => [c] + Drain(rest)
  }

  /** A series of submissions appends each document's chunks after the
      previous ones. */
  lemma {:induction false} AddAllAppends(queue: seq<StreamChunk>, docs: seq<Data>, chunksFor: Data -> seq<StreamChunk>)
    ensures AddAll(queue, docs, chunksFor) == queue + Contributed(docs, chunksFor)
    decreases |docs|
  {
    if |docs| > 0 {
      var mine := chunksFor(docs[0]);
      AddAllAppends(queue + mine, docs[1..], chunksFor);
      assert (queue + mine) + Contributed(docs[1..], chunksFor) == queue + (mine + Contributed(docs[1..], chunksFor));
    }
  }

  /** Taking repeatedly yields every queued chunk once, oldest first. */
  lemma {:induction false} DrainIsQueue(queue: seq<StreamChunk>)
    ensures Drain(queue) == queue
    decreases |queue|
  {
    if |queue| > 0 {
      DrainIsQueue(queue[1..]);
    }
  }

  /** FIFO: after a series of submissions to an empty queue, the chunks come
      out in submission order, and within one document in segment order. */
  lemma FifoOrder(docs: seq<Data>, lib: Library)
    ensures Drain(AddAll([], docs, d => Appended(d, lib))) == Contributed(docs, d => Appended(d, lib))
  {
    var chunksFor := d => Appended(d, lib);
    AddAllAppends([], docs, chunksFor);
    DrainIsQueue(AddAll([], docs, chunksFor));
  }

  /** Submitting a one-line ticker document `sym\tdollars.cents` (such as
      `AAPL\t123.45`) to a new server queues exactly one chunk, the whole
      two-line narration; the next take answers "empty". */
  method StockTickerScenario(sym: string, dollars: string, cents: string, lib: Library)
    returns (ok: bool, first: Option<StreamChunk>, second: Option<StreamChunk>)
    requires '\t' !in sym && '\t' !in dollars && '\t' !in cents
    requires '.' !in dollars && '.' !in cents
    requires '\n' !in sym && '\n' !in dollars && '\n' !in cents
    ensures ok
    ensures first == Some(Data(Txt, StockTicker,
      "Reading stock prices. \n " + sym + ", " + dollars + " dollars and " + cents + " cents."))
    ensures second == None
  {
    var server := new MySpeechify(lib);
    var doc := Data(Txt, StockTicker, sym + "\t" + dollars + "." + cents);
    StockSingleLine(sym, dollars, cents, lib);
    var narration := StockHeader + "\n " + sym + ", " + dollars + " dollars and " + cents + " cents.";
    assert '\n' !in doc.data;
    SplitNoSeparator(doc.data, '\n');
    StockNarrationLines(doc);
    SegmentsOfShort(narration);
    assert Normalize(doc, lib) == Text(narration);
    assert Accepted(doc, lib);
    assert ChunksOf(doc, [narration]) == [doc.(data := narration)];
    assert Appended(doc, lib) == [doc.(data := narration)];
    ok := server.AddToQueue(doc);
    assert server.queue == [doc.(data := narration)];
    assert StockHeader + "\n " == "Reading stock prices. \n ";
    first := server.GetNextChunk();
    second := server.GetNextChunk();
  }
}
