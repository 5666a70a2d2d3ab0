/**
 * `MeetingAIProcessor`: the object that holds the three lazily loaded
 * models and runs the meeting pipelines. Each model field starts out empty
 * and is filled the first time an operation needs it; what loading yields
 * (or whether it raises) is fixed when the processor is built.
 */
module Processor {
  import opened Wrappers
  import opened PyText
  import opened Items
  import opened Deduplication
  import opened Extraction
  import opened Summarization

  /** The speech-to-text model called on an audio path: the transcript text, or None when it raises. */
  type Transcriber = string -> Option<string>

  /**
   * `convert_audio_to_text` when loading the speech model yields `loaded`
   * (None when loading raises): a transcript exists exactly when loading and
   * transcription both succeed, and it is the transcription without its
   * surrounding whitespace.
   */
  function TranscriptOf(loaded: Option<Transcriber>, audioPath: string): (r: Option<string>)
    ensures r.Some? <==> loaded.Some? && loaded.value(audioPath).Some?
    ensures r.Some? ==> r.value == Strip(loaded.value(audioPath).value)
  {
    var model :- loaded;
    var text :- model(audioPath);
    Some(Strip(text))
  }

  /** What a pipeline returns: `(None, None, None)`, or the transcript, the summary and the action items. */
  datatype PipelineResult = Failed | Processed(transcript: string, summary: string, actionItems: seq<ActionItem>)

  /** The chunk texts of `generate_summary`: `' '.join(words[i:i + 1024])` for i = 0, 1024, ... */
  method ChunkWords(words: seq<string>) returns (chunks: seq<string>)
    ensures chunks == ChunkTexts(words)
  {
    chunks := [];
    var i := 0;
    while i < |words|
      invariant 0 <= i <= |words|
      invariant chunks + ChunkTexts(words[i..]) == ChunkTexts(words)
      decreases |words| - i
    {
      var j := if i + MaxChunk <= |words| then i + MaxChunk else |words|;
      ChunkTextsStep(words[i..]);
      assert words[i..][..j - i] == words[i..j];
      assert words[i..][j - i..] == words[j..];
      chunks := chunks + [Join(words[i..j])];
      i := j;
    }
    assert ChunkTexts(words[i..]) == [];
  }

  /**
   * The sentence loop of `extract_action_items`: sentences of fewer than
   * five words are skipped, the others are tagged (None when tagging raises)
   * and the item of the first matching strategy is collected.
   */
  method CollectSentenceItems(tagger: Tagger, sents: seq<string>) returns (found: Option<seq<ActionItem>>)
    ensures found == CollectItems(StepOf(tagger), sents)
  {
    var items: seq<ActionItem> := [];
    var i := 0;
    while i < |sents|
      invariant 0 <= i <= |sents|
      invariant CollectItems(StepOf(tagger), sents[..i]) == Some(items)
    {
      assert sents[..i + 1][..i] == sents[..i];
      ghost var step := StepOf(tagger)(sents[i]);
      assert step == SentenceStep(tagger, sents[i]);
      var sentence := Strip(sents[i]);
      if |Split(sentence)| >= MinSentenceWords {
        var tagged := tagger(sentence);
        if tagged.None? {
          CollectItemsFails(StepOf(tagger), sents);
          assert step.Raises?;
          return None;
        }
        var item := ExtractFromSentence(sentence, tagged.value.ents);
        if item.Some? {
          assert step == Found(item.value);
          items := items + [item.value];
        } else {
          assert step.NoMatch?;
        }
      } else {
        assert step.Skipped?;
      }
      i := i + 1;
    }
    assert sents[..i] == sents;
    return Some(items);
  }

  /**
   * The deduplication loop of `extract_action_items`, with its set of keys
   * seen so far; `key` is the normalisation of line 115, `ItemKey`.
   */
  method DeduplicateItems<T>(found: seq<T>, key: T -> string) returns (unique: seq<T>)
    ensures unique == Dedup(found, key)
  {
    unique := [];
    var seen: set<string> := {};
    var j := 0;
    while j < |found|
      invariant 0 <= j <= |found|
      invariant unique == Dedup(found[..j], key)
      invariant seen == KeySet(unique, key)
    {
      assert found[..j + 1][..j] == found[..j];
      var k := key(found[j]);
      if k !in seen {
        unique := unique + [found[j]];
        seen := seen + {k};
      }
      j := j + 1;
    }
    assert found[..j] == found;
  }

  class MeetingAIProcessor {
    /** What loading each model yields; None when loading raises. */
    const whisperSource: Option<Transcriber>
    const summarizerSource: Option<Summarizer>
    const nlpSource: Option<Tagger>

    /** The models loaded so far. */
    var whisperModel: Option<Transcriber>
    var summarizer: Option<Summarizer>
    var nlp: Option<Tagger>

    /** Every request made to the summarization model, in order. */
    ghost var summarizerCalls: seq<Request>

    /** A loaded model is what loading yields. */
    ghost predicate Valid()
      reads this
    {
      && (whisperModel.Some? ==> whisperModel == whisperSource)
      && (summarizer.Some? ==> summarizer == summarizerSource)
      && (nlp.Some? ==> nlp == nlpSource)
    }

    /** `__init__`: no model is loaded at construction. */
    constructor(whisperSource: Option<Transcriber>, summarizerSource: Option<Summarizer>, nlpSource: Option<Tagger>)
      ensures Valid()
      ensures this.whisperSource == whisperSource && this.summarizerSource == summarizerSource && this.nlpSource == nlpSource
      ensures whisperModel.None? && summarizer.None? && nlp.None?
      ensures summarizerCalls == []
    {
      this.whisperSource := whisperSource;
      this.summarizerSource := summarizerSource;
      this.nlpSource := nlpSource;
      whisperModel := None;
      summarizer := None;
      nlp := None;
      summarizerCalls := [];
    }

    /** `convert_audio_to_text`: load the speech model if needed, transcribe, strip; None on any failure. */
    method ConvertAudioToText(audioPath: string) returns (transcript: Option<string>)
      requires Valid()
      modifies this
      ensures Valid()
      ensures transcript == TranscriptOf(whisperSource, audioPath)
      ensures whisperModel == (if whisperSource.Some? then whisperSource else old(whisperModel))
      ensures summarizer == old(summarizer) && nlp == old(nlp) && summarizerCalls == old(summarizerCalls)
    {
      if whisperModel.None? {
        whisperModel := whisperSource;
        if whisperModel.None? {
          return None;
        }
      }
      var result := whisperModel.value(audioPath);
      if result.None? {
        return None;
      }
      return Some(Strip(result.value));
    }

    /**
     * `generate_summary`: load the summarization model if needed, then
     * summarize in one pass or chunk by chunk. The summary and the requests
     * made are those of `SummaryOf`.
     */
    method GenerateSummary(text: string) returns (summary: string)
      requires Valid()
      modifies this
      ensures Valid()
      ensures summary == SummaryOf(summarizerSource, text).summary
      ensures summarizerCalls == old(summarizerCalls) + SummaryOf(summarizerSource, text).calls
      ensures summarizer == (if summarizerSource.Some? then summarizerSource else old(summarizer))
      ensures whisperModel == old(whisperModel) && nlp == old(nlp)
    {
      if summarizer.None? {
        summarizer := summarizerSource;
        if summarizer.None? {
          return ErrorMessage;
        }
      }
      var engine := summarizer.value;
      var words := Split(text);
      if |words| < MinWords {
        return TooShortMessage;
      }
      if |words| <= MaxChunk {
        var req := SinglePass(text);
        summarizerCalls := summarizerCalls + [req];
        var out := engine(req);
        if out.None? {
          return ErrorMessage;
        }
        return Strip(out.value);
      }

      summary := SummarizeLongText(engine, words);
      assert SummaryOf(summarizerSource, text) == CombineChunks(engine, ChunkSummaries(engine, ChunkTexts(words)));
    }

    /**
     * The branch of `generate_summary` for a text of more than one chunk:
     * chunk, summarize each chunk, join, and summarize the join once more
     * when it has more than 100 words.
     */
    method SummarizeLongText(engine: Summarizer, words: seq<string>) returns (summary: string)
      modifies this`summarizerCalls
      ensures var run := CombineChunks(engine, ChunkSummaries(engine, ChunkTexts(words)));
              summary == run.summary && summarizerCalls == old(summarizerCalls) + run.calls
    {
      var chunks := ChunkWords(words);
      var chunkSummaries := SummarizeChunks(engine, chunks);
      if chunkSummaries.None? {
        return ErrorMessage;
      }
      var summaries := chunkSummaries.value;

      var combined := Join(summaries);
      if |Split(combined)| > MaxCombinedWords {
        var req := CombinePass(combined);
        summarizerCalls := summarizerCalls + [req];
        var out := engine(req);
        if out.None? {
          return ErrorMessage;
        }
        summary := out.value;
      } else {
        summary := combined;
      }
      return Strip(summary);
    }

    /** The loop over the chunk texts: one pass each, in order, stopping at the first pass that raises. */
    method SummarizeChunks(engine: Summarizer, chunks: seq<string>) returns (summaries: Option<seq<string>>)
      modifies this`summarizerCalls
      ensures summaries == ChunkSummaries(engine, chunks).summaries
      ensures summarizerCalls == old(summarizerCalls) + ChunkSummaries(engine, chunks).calls
    {
      ghost var before := summarizerCalls;
      var done: seq<string> := [];
      var k := 0;
      while k < |chunks|
        invariant 0 <= k <= |chunks|
        invariant ChunkSummaries(engine, chunks[..k]).summaries == Some(done)
        invariant summarizerCalls == before + ChunkSummaries(engine, chunks[..k]).calls
      {
        var req := ChunkPass(chunks[k]);
        summarizerCalls := summarizerCalls + [req];
        assert chunks[..k + 1][..k] == chunks[..k];
        var out := engine(req);
        if out.None? {
          ChunkSummariesStop(engine, chunks, k + 1);
          return None;
        }
        done := done + [out.value];
        k := k + 1;
      }
      assert chunks[..k] == chunks;
      return Some(done);
    }

    /**
     * `extract_action_items`: load the tagger if needed, tag the text, run
     * the strategies on every sentence of five words or more, and keep the
     * first item of each normalised description. Any failure gives [].
     */
    method ExtractActionItems(text: string) returns (items: seq<ActionItem>)
      requires Valid()
      modifies this
      ensures Valid()
      ensures items == ActionItemsOf(nlpSource, text)
      ensures nlp == (if nlpSource.Some? then nlpSource else old(nlp))
      ensures whisperModel == old(whisperModel) && summarizer == old(summarizer) && summarizerCalls == old(summarizerCalls)
    {
      if nlp.None? {
        nlp := nlpSource;
        if nlp.None? {
          return [];
        }
      }
      var tagger := nlp.value;
      var doc := tagger(text);
      if doc.None? {
        return [];
      }
      var sents := doc.value.sents;

      var found := CollectSentenceItems(tagger, sents);
      if found.None? {
        return [];
      }
      items := DeduplicateItems(found.value, ItemKey);
    }

    /**
     * `process_meeting`: transcribe; stop with `Failed` when the transcript
     * is missing or empty; otherwise summarize and extract from it.
     */
    method ProcessMeeting(audioPath: string) returns (r: PipelineResult)
      requires Valid()
      modifies this
      ensures Valid()
      ensures var t := TranscriptOf(whisperSource, audioPath);
              && (t.None? || t.value == [] ==> r == Failed && summarizerCalls == old(summarizerCalls))
              && (t.Some? && t.value != [] ==>
                    && r == Processed(t.value, SummaryOf(summarizerSource, t.value).summary, ActionItemsOf(nlpSource, t.value))
                    && summarizerCalls == old(summarizerCalls) + SummaryOf(summarizerSource, t.value).calls)
      ensures whisperModel == (if whisperSource.Some? then whisperSource else old(whisperModel))
      ensures var t := TranscriptOf(whisperSource, audioPath);
              if t.None? || t.value == [] then summarizer == old(summarizer) && nlp == old(nlp)
              else && summarizer == (if summarizerSource.Some? then summarizerSource else old(summarizer))
                   && nlp == (if nlpSource.Some? then nlpSource else old(nlp))
    {
      var transcript := ConvertAudioToText(audioPath);
      if transcript.None? || transcript.value == [] {
        return Failed;
      }
      var summary := GenerateSummary(transcript.value);
      var items := ExtractActionItems(transcript.value);
      return Processed(transcript.value, summary, items);
    }

    /** `process_text_only`: summarize and extract from the given text. */
    method ProcessTextOnly(text: string) returns (r: PipelineResult)
      requires Valid()
      modifies this
      ensures Valid()
      ensures r == Processed(text, SummaryOf(summarizerSource, text).summary, ActionItemsOf(nlpSource, text))
      ensures summarizerCalls == old(summarizerCalls) + SummaryOf(summarizerSource, text).calls
      ensures summarizer == (if summarizerSource.Some? then summarizerSource else old(summarizer))
      ensures nlp == (if nlpSource.Some? then nlpSource else old(nlp))
      ensures whisperModel == old(whisperModel)
    {
      var summary := GenerateSummary(text);
      var items := ExtractActionItems(text);
      return Processed(text, summary, items);
    }
  }
}
