/**
 * What `generate_summary` computes once the summarization pipeline is
 * loaded: the short-text guard, the single pass over a text of at most
 * 1024 words, and for a longer text the chunk passes followed by an optional
 * combining pass. Every request made to the summarizer is recorded, in order,
 * so that the contracts can speak about how many passes are made, with which
 * length bounds, and where the run stops when a pass raises.
 */
module Summarization {
  import opened Wrappers
  import opened PyText

  /** Texts with fewer words than this are not summarized. */
  const MinWords := 50
  /** The number of words of one chunk. */
  const MaxChunk := 1024
  /** A combined chunk summary longer than this many words is summarized once more. */
  const MaxCombinedWords := 100

  const TooShortMessage := "Text too short to summarize."
  const ErrorMessage := "Error generating summary."

  /** One call of the summarization pipeline: the text and its `max_length` and `min_length`. */
  datatype Request = Request(text: string, maxLength: nat, minLength: nat)

  /** The summarization pipeline: the `summary_text` it produces, or None when the call raises. */
  type Summarizer = Request -> Option<string>

  /** The returned summary and every request made to the summarizer, in order. */
  datatype SummaryRun = SummaryRun(summary: string, calls: seq<Request>)

  /** The pass over a text of at most one chunk. */
  function SinglePass(text: string): Request {
    Request(text, 150, 50)
  }

  /** The pass over one chunk. */
  function ChunkPass(chunk: string): Request {
    Request(chunk, 100, 30)
  }

  /** The pass over the joined chunk summaries. */
  function CombinePass(combined: string): Request {
    Request(combined, 200, 75)
  }

  /** `words[i:i + 1024]` for i = 0, 1024, 2048, ... below the number of words. */
  function Chunks(words: seq<string>): (cs: seq<seq<string>>)
    ensures |cs| == (|words| + MaxChunk - 1) / MaxChunk
    decreases |words|
  {
    if words == [] then []
    else if |words| <= MaxChunk then [words]
    else [words[..MaxChunk]] + Chunks(words[MaxChunk..])
  }

  function Flatten(css: seq<seq<string>>): seq<string> {
    if css == [] then [] else css[0] + Flatten(css[1..])
  }

  /**
   * The chunks partition the words: concatenated they give the words back,
   * there are ceil(n / 1024) of them, none is empty or longer than 1024
   * words, and all but the last have exactly 1024.
   */
  lemma {:induction false} ChunksPartition(words: seq<string>)
    ensures var cs := Chunks(words);
            && Flatten(cs) == words
            && |cs| == (|words| + MaxChunk - 1) / MaxChunk
            && (forall k :: 0 <= k < |cs| ==> 1 <= |cs[k]| <= MaxChunk)
            && (forall k :: 0 <= k < |cs| - 1 ==> |cs[k]| == MaxChunk)
    decreases |words|
  {
    if |words| > MaxChunk {
      var rest := words[MaxChunk..];
      ChunksPartition(rest);
      var cs := Chunks(words);
      assert cs[1..] == Chunks(rest);
      assert words == words[..MaxChunk] + rest;
    }
  }

  /** Every chunk is a run of words of the input, so it is made of words if the input is. */
  lemma {:induction false} ChunksAreWords(words: seq<string>)
    requires AreWords(words)
    ensures forall k :: 0 <= k < |Chunks(words)| ==> AreWords(Chunks(words)[k])
    decreases |words|
  {
    if |words| > MaxChunk {
      ChunksAreWords(words[MaxChunk..]);
      assert Chunks(words)[1..] == Chunks(words[MaxChunk..]);
    }
  }

  /** The chunk texts: `' '.join(words[i:i + 1024])`. */
  function ChunkTexts(words: seq<string>): (ts: seq<string>)
    ensures |ts| == |Chunks(words)|
  {
    var cs := Chunks(words);
    seq(|cs|, k requires 0 <= k < |cs| => Join(cs[k]))
  }

  /** Splitting a chunk text gives back exactly the words of that chunk. */
  lemma ChunkTextsResplit(text: string)
    ensures var words := Split(text);
            forall k :: 0 <= k < |ChunkTexts(words)| ==> Split(ChunkTexts(words)[k]) == Chunks(words)[k]
  {
    var words := Split(text);
    SplitWords(text);
    ChunksAreWords(words);
    forall k | 0 <= k < |ChunkTexts(words)| ensures Split(ChunkTexts(words)[k]) == Chunks(words)[k] {
      SplitJoin(Chunks(words)[k]);
    }
  }

  /** Taking one chunk off the front of the words takes its text off the front of the chunk texts. */
  lemma ChunkTextsStep(words: seq<string>)
    requires words != []
    ensures var n := if |words| < MaxChunk then |words| else MaxChunk;
            ChunkTexts(words) == [Join(words[..n])] + ChunkTexts(words[n..])
  {
    var n := if |words| < MaxChunk then |words| else MaxChunk;
    var cs := Chunks(words);
    if |words| <= MaxChunk {
      assert words[..n] == words && words[n..] == [];
    } else {
      assert cs[1..] == Chunks(words[n..]);
    }
  }

  /** The summaries of the chunks so far (None once a pass raised) and the requests made. */
  datatype ChunkRun = ChunkRun(summaries: Option<seq<string>>, calls: seq<Request>)

  /**
   * The loop over the chunk texts: one pass per chunk, in order; the first
   * pass that raises ends the loop.
   */
  function ChunkSummaries(engine: Summarizer, texts: seq<string>): (r: ChunkRun)
    ensures |r.calls| <= |texts|
    ensures r.summaries.Some? ==> |r.summaries.value| == |r.calls| == |texts|
  {
    if texts == [] then ChunkRun(Some([]), [])
    else
      var prev := ChunkSummaries(engine, texts[..|texts| - 1]);
      if prev.summaries.None? then prev
      else
        var req := ChunkPass(texts[|texts| - 1]);
        match engine(req)
        case None => ChunkRun(None, prev.calls + [req])
        case Some(s) => ChunkRun(Some(prev.summaries.value + [s]), prev.calls + [req])
  }

  /**
   * The chunk loop makes one request per chunk text, in order, each with
   * bounds (100, 30); every request but the last succeeded; the loop failed
   * exactly when a request raised, and otherwise there is one summary per
   * chunk, the one its request produced.
   */
  lemma {:induction false} ChunkSummariesShape(engine: Summarizer, texts: seq<string>)
    ensures var run := ChunkSummaries(engine, texts);
            && |run.calls| <= |texts|
            && (forall k :: 0 <= k < |run.calls| ==> run.calls[k] == ChunkPass(texts[k]))
            && (forall k :: 0 <= k < |run.calls| - 1 ==> engine(run.calls[k]).Some?)
            && (run.summaries.None? <==> exists k :: 0 <= k < |run.calls| && engine(run.calls[k]).None?)
            && (run.summaries.Some? ==>
                  && |run.calls| == |texts|
                  && |run.summaries.value| == |texts|
                  && forall k :: 0 <= k < |texts| ==> Some(run.summaries.value[k]) == engine(run.calls[k]))
  {
    if texts != [] {
      ChunkSummariesShape(engine, texts[..|texts| - 1]);
    }
  }

  /** Once a chunk pass has raised, the later chunks are not summarized. */
  lemma {:induction false} ChunkSummariesStop(engine: Summarizer, texts: seq<string>, k: nat)
    requires k <= |texts| && ChunkSummaries(engine, texts[..k]).summaries.None?
    ensures ChunkSummaries(engine, texts) == ChunkSummaries(engine, texts[..k])
  {
    if k < |texts| {
      var init := texts[..|texts| - 1];
      assert init[..k] == texts[..k];
      ChunkSummariesStop(engine, init, k);
      assert ChunkSummaries(engine, init).summaries.None?;
    } else {
      assert texts[..k] == texts;
    }
  }

  /** `generate_summary` as a whole: `loaded` is what loading the pipeline yields, None when it raises. */
  function SummaryOf(loaded: Option<Summarizer>, text: string): (r: SummaryRun)
    ensures loaded.None? ==> r == SummaryRun(ErrorMessage, [])
    ensures loaded.Some? ==> r == Summarize(loaded.value, text)
  {
    match loaded
    case None => SummaryRun(ErrorMessage, [])
    case Some(engine) => Summarize(engine, text)
  }

  /**
   * What follows the chunk loop: the error message if a chunk pass raised;
   * otherwise the joined chunk summaries, summarized once more when they
   * have more than 100 words.
   */
  function CombineChunks(engine: Summarizer, run: ChunkRun): (r: SummaryRun)
    ensures |run.calls| <= |r.calls| <= |run.calls| + 1 && r.calls[..|run.calls|] == run.calls
    ensures |r.calls| == |run.calls| + 1 <==> run.summaries.Some? && |Split(Join(run.summaries.value))| > MaxCombinedWords
    ensures |r.calls| == |run.calls| + 1 ==> r.calls[|run.calls|] == CombinePass(Join(run.summaries.value))
    ensures run.summaries.None? ==> r.summary == ErrorMessage
    ensures run.summaries.Some? && |Split(Join(run.summaries.value))| <= MaxCombinedWords ==>
              r.summary == Strip(Join(run.summaries.value))
    ensures run.summaries.Some? && |Split(Join(run.summaries.value))| > MaxCombinedWords ==>
              var out := engine(CombinePass(Join(run.summaries.value)));
              r.summary == if out.Some? then Strip(out.value) else ErrorMessage
  {
    match run.summaries
    case None => SummaryRun(ErrorMessage, run.calls)
    case Some(summaries) =>
      var combined := Join(summaries);
      if |Split(combined)| > MaxCombinedWords then
        var req := CombinePass(combined);
        match engine(req)
        case None => SummaryRun(ErrorMessage, run.calls + [req])
        case Some(s) => SummaryRun(Strip(s), run.calls + [req])
      else SummaryRun(Strip(combined), run.calls)
  }

  /**
   * `generate_summary` with the pipeline loaded as `engine`: the result is
   * stripped; any pass that raises turns the result into the error message.
   */
  function Summarize(engine: Summarizer, text: string): (r: SummaryRun)
    ensures |Split(text)| < MinWords ==> r == SummaryRun(TooShortMessage, [])
    ensures MinWords <= |Split(text)| <= MaxChunk ==> r.calls == [SinglePass(text)]
    ensures MinWords <= |Split(text)| <= MaxChunk ==>
              var out := engine(SinglePass(text));
              r.summary == if out.Some? then Strip(out.value) else ErrorMessage
  {
    var words := Split(text);
    if |words| < MinWords then SummaryRun(TooShortMessage, [])
    else if |words| <= MaxChunk then
      var req := SinglePass(text);
      match engine(req)
      case None => SummaryRun(ErrorMessage, [req])
      case Some(s) => SummaryRun(Strip(s), [req])
    else CombineChunks(engine, ChunkSummaries(engine, ChunkTexts(words)))
  }

  /**
   * The summary run stops at the first request that raises, and a request
   * that raises turns the summary into the error message.
   */
  lemma SummarizeStopsAtFailure(engine: Summarizer, text: string)
    ensures var r := Summarize(engine, text);
            && (forall k :: 0 <= k < |r.calls| - 1 ==> engine(r.calls[k]).Some?)
            && ((exists k :: 0 <= k < |r.calls| && engine(r.calls[k]).None?) ==> r.summary == ErrorMessage)
  {
    var words := Split(text);
    if |words| > MaxChunk {
      var run := ChunkSummaries(engine, ChunkTexts(words));
      ChunkSummariesShape(engine, ChunkTexts(words));
      var r := Summarize(engine, text);
      assert r == CombineChunks(engine, run);
      if |r.calls| == |run.calls| + 1 {
        forall k | 0 <= k < |r.calls| - 1 ensures engine(r.calls[k]).Some? {
          assert r.calls[k] == run.calls[k];
        }
      }
    }
  }

  /**
   * A text of more than 1024 words is cut into ceil(n / 1024) >= 2 chunk
   * texts, each of which splits back into at most 1024 words.
   */
  lemma LongTextChunks(text: string)
    requires |Split(text)| > MaxChunk
    ensures var texts := ChunkTexts(Split(text));
            && 2 <= |texts| == (|Split(text)| + MaxChunk - 1) / MaxChunk
            && forall k :: 0 <= k < |texts| ==> 1 <= |Split(texts[k])| <= MaxChunk
  {
    ChunksPartition(Split(text));
    ChunkTextsResplit(text);
  }

  /**
   * A text of more than one chunk is summarized chunk by chunk: the first
   * requests are the chunk texts in order, with bounds (100, 30); at most
   * one further request follows, the combining pass with bounds (200, 75).
   */
  lemma LongTextPasses(engine: Summarizer, text: string)
    requires |Split(text)| > MaxChunk
    ensures var r := Summarize(engine, text);
            var texts := ChunkTexts(Split(text));
            && |r.calls| <= |texts| + 1
            && (forall k :: 0 <= k < |r.calls| && k < |texts| ==> r.calls[k] == ChunkPass(texts[k]))
            && (|r.calls| == |texts| + 1 ==> r.calls[|texts|].maxLength == 200 && r.calls[|texts|].minLength == 75)
  {
    var texts := ChunkTexts(Split(text));
    var run := ChunkSummaries(engine, texts);
    ChunkSummariesShape(engine, texts);
    var r := Summarize(engine, text);
    assert r == CombineChunks(engine, run);
    forall k | 0 <= k < |r.calls| && k < |texts| ensures r.calls[k] == ChunkPass(texts[k]) {
      assert k < |run.calls| && r.calls[k] == run.calls[k];
    }
  }

  /** When every pass succeeds on a long text, the number of passes is fixed by the chunk count. */
  lemma LongTextPassCount(engine: Summarizer, text: string)
    requires |Split(text)| > MaxChunk
    requires var r := Summarize(engine, text); forall k :: 0 <= k < |r.calls| ==> engine(r.calls[k]).Some?
    ensures var r := Summarize(engine, text);
            var run := ChunkSummaries(engine, ChunkTexts(Split(text)));
            && run.summaries.Some?
            && |r.calls| == |ChunkTexts(Split(text))| + (if |Split(Join(run.summaries.value))| > MaxCombinedWords then 1 else 0)
  {
    var texts := ChunkTexts(Split(text));
    var run := ChunkSummaries(engine, texts);
    ChunkSummariesShape(engine, texts);
    var r := Summarize(engine, text);
    assert r == CombineChunks(engine, run);
  }

  /**
   * When every chunk pass of a long text succeeds, the summary is the
   * stripped join of the chunk summaries, or, when that join has more than
   * 100 words, the stripped output of the combining pass over it.
   */
  lemma LongTextSummary(engine: Summarizer, text: string)
    requires |Split(text)| > MaxChunk
    requires var texts := ChunkTexts(Split(text));
             forall k :: 0 <= k < |texts| ==> engine(ChunkPass(texts[k])).Some?
    ensures var texts := ChunkTexts(Split(text));
            var run := ChunkSummaries(engine, texts);
            && run.summaries.Some?
            && (forall k :: 0 <= k < |texts| ==> Some(run.summaries.value[k]) == engine(ChunkPass(texts[k])))
            && var combined := Join(run.summaries.value);
               var out := engine(CombinePass(combined));
               Summarize(engine, text).summary ==
                 if |Split(combined)| <= MaxCombinedWords then Strip(combined)
                 else if out.Some? then Strip(out.value) else ErrorMessage
  {
    ChunkSummariesShape(engine, ChunkTexts(Split(text)));
  }

  /** A summarizer that returns the text it is given. */
  ghost predicate Echoes(engine: Summarizer) {
    forall q :: engine(q) == Some(q.text)
  }

  /** With a summarizer that echoes its input, a text of 50 to 1024 words is its own summary, stripped. */
  lemma EchoSinglePass(engine: Summarizer, text: string)
    requires Echoes(engine)
    requires MinWords <= |Split(text)| <= MaxChunk
    ensures Summarize(engine, text).summary == Strip(text)
  {
    assert engine(SinglePass(text)) == Some(text);
  }

  /** Joining two non-empty lists of words is joining each and putting one space between. */
  lemma {:induction false} JoinConcat(xs: seq<string>, ys: seq<string>)
    requires xs != [] && ys != []
    ensures Join(xs + ys) == Join(xs) + " " + Join(ys)
  {
    if |xs| == 1 {
      assert (xs + ys)[1..] == ys;
    } else {
      JoinConcat(xs[1..], ys);
      assert (xs + ys)[1..] == xs[1..] + ys;
    }
  }

  /** The chunk texts joined with single spaces are the words joined with single spaces. */
  lemma {:induction false} JoinChunkTexts(words: seq<string>)
    ensures Join(ChunkTexts(words)) == Join(words)
    decreases |words|
  {
    if words != [] {
      var n := if |words| < MaxChunk then |words| else MaxChunk;
      ChunkTextsStep(words);
      var rest := ChunkTexts(words[n..]);
      JoinChunkTexts(words[n..]);
      if words[n..] == [] {
        assert words[..n] == words;
      } else {
        assert rest != [];
        JoinConcat([Join(words[..n])], rest);
        JoinConcat(words[..n], words[n..]);
        assert words[..n] + words[n..] == words;
      }
    }
  }

  /**
   * With a summarizer that echoes its input, a text of more than 1024 words
   * comes back as its words joined by single spaces: the chunk summaries join
   * back into the whole text, which is longer than 100 words and so goes
   * through the combining pass.
   */
  lemma EchoLongText(engine: Summarizer, text: string)
    requires Echoes(engine)
    requires |Split(text)| > MaxChunk
    ensures Summarize(engine, text).summary == Strip(Join(Split(text)))
  {
    var words := Split(text);
    var texts := ChunkTexts(words);
    ChunkSummariesShape(engine, texts);
    LongTextSummary(engine, text);
    var run := ChunkSummaries(engine, texts);
    assert run.summaries.value == texts by {
      forall k | 0 <= k < |texts| ensures run.summaries.value[k] == texts[k] {
        assert engine(ChunkPass(texts[k])) == Some(texts[k]);
      }
    }
    JoinChunkTexts(words);
    SplitWords(text);
    SplitJoin(words);
    assert engine(CombinePass(Join(words))) == Some(Join(words));
  }
}
