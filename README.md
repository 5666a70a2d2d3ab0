# Meeting transcript processor — verified model

This project models the rule-based core of `MeetingAIProcessor`
(`core/ai_processor.py`). The processor turns a meeting transcript into a
summary and a deduplicated list of action items. It uses three machine-learning
engines: a speech-to-text model, a summarization pipeline and a sentence and
entity tagger. Here they are injected function values: each call either
returns its result or returns `None`, which stands for "the call raised".
Everything between the engines is modelled exactly:

- **Chunked summarization** (`generate_summary`):
  - the short-text guard;
  - the single pass of a text of at most 1024 words;
  - the slicing of a longer text into 1024-word chunks, with one pass per chunk;
  - the optional combining pass over the joined chunk summaries;
  - the error message that replaces any failure.

  Every request made to the summarizer is kept in a ghost log. The contracts can therefore say how many passes happen, with which length bounds, and where a failing run stops.
- **Action-item extraction** (`extract_action_items`, `_extract_from_sentence`):
  - the filter that skips sentences under five words;
  - the three regular-expression strategies, tried in order with the first match winning. They are matched by hand with the semantics of Python's `re`: leftmost search, ordered alternation with backtracking, and greedy runs, including the space that `\s+` can give back to a following `([^.!?]+)` group;
  - item construction with `str.capitalize`;
  - the seen-set deduplication loop.
- **Assignee and deadline resolution** (`_extract_person_from_sentence`, `_extract_deadline_from_text`): ordered fallback chains. Entities come first, then a word scan with a stop list or six deadline patterns, then the empty answer.
- **The object itself**:
  - the lazily loaded model fields of `MeetingAIProcessor`;
  - `convert_audio_to_text`;
  - the two pipelines, `process_meeting` and `process_text_only`.

Layout:

| file | module | contents |
|---|---|---|
| `wrappers.dfy` | `Wrappers` | `Option` |
| `pytext.dfy` | `PyText` | Python's `str.isspace`, `strip`, `split`, `' '.join`, `lower`, `capitalize` |
| `patterns.dfy` | `Patterns` | the regular expressions of the extractor |
| `pattern_facts.dfy` | `PatternFacts` | what the patterns capture in the sentence shapes the extractor targets |
| `items.dfy` | `Items` | action items, entities, tagged documents |
| `dedup.dfy` | `Deduplication` | the first-of-each-key filter |
| `extraction.dfy` | `Extraction` | strategies, assignee and deadline resolution, the sentence loop |
| `summarization.dfy` | `Summarization` | chunking and the summarization passes |
| `processor.dfy` | `Processor` | the `MeetingAIProcessor` class and its loops |

### Behaviour of the code on sample sentences

- **Capitalization.** Descriptions go through `str.capitalize()`, which upper-cases the first character and lower-cases all the others.
- **"Sarah will review the budget by Friday."**
  - Group 3 of the person-modal pattern runs up to the full stop, so the description is "Review the budget by friday" and the assignee is "Sarah" (`PatternFacts.PersonWillItem` states this for every sentence of that shape).
  - The deadline is the text of the first DATE entity when the tagger reports one. Otherwise it is the group of the weekday pattern as written in the sentence, "Friday".
- **"Action item: finalize the report."** with no PERSON entity. The word scan of `_extract_person_from_sentence` returns the first capitalized alphabetic word of more than two letters that is not a stop word, so the assignee is "Action" (`Extraction.ExtractPerson`).

## Model

| member | source | states |
|---|---|---|
| PyText.Capitalize | core/ai_processor.py:141 | `str.capitalize` keeps the length and what the string lower-cases to. The first character is not lower-case and no later character is upper-case. |
| PyText.Lower | core/ai_processor.py:115 | `str.lower` leaves no upper-case letter and changes nothing but upper-case letters. Each upper-case letter becomes the lower-case letter that upper-cases back to it. |
| PyText.LowerStrip | core/ai_processor.py:115 | Lower-casing and stripping commute: `s.lower().strip() == s.strip().lower()`. |
| PyText.Strip | core/ai_processor.py:103 | `s` is a run of whitespace, then the result, then a run of whitespace. The result neither starts nor ends with whitespace. |
| PyText.LStripParts | core/ai_processor.py:103 | `lstrip` removes a run of leading whitespace and nothing else: the result is the rest of the string. |
| PyText.SplitWords | core/ai_processor.py:59 | Every word of `split()` is non-empty and contains no whitespace. |
| PyText.SplitEmpty | core/ai_processor.py:55 | `split()` gives no words exactly when the text is all whitespace. |
| PyText.SplitByScan | core/ai_processor.py:59 | For every string, `split()` equals the words found by an independent left-to-right scan in which whitespace ends the current word. |
| PyText.Join | core/ai_processor.py:66 | `' '.join` puts exactly one separator between each two words: its length is the total length of the words plus one less than their number. |
| PyText.SplitJoin | core/ai_processor.py:66 | Splitting words joined with single spaces gives the same words back. |
| Patterns.RunEnd | core/ai_processor.py:134 | A greedy run covers only characters of its class and stops at the first character outside it. |
| Patterns.FirstMatch | core/ai_processor.py:134 | Ordered alternation: the result is the rest of the pattern after the first alternative, in written order, after which the rest matches. If nothing matches, every alternative fails there. |
| Patterns.Search | core/ai_processor.py:135 | `re.search` returns the match at the leftmost position where the pattern matches. If it finds none, the pattern matches nowhere. |
| Patterns.FirstSome | core/ai_processor.py:204-207 | The first present value in list order; absent only when all values are absent. |
| Patterns.ByWeekdayAt | core/ai_processor.py:198 | The group of the `by <weekday>` pattern lower-cases to one of the seven weekdays of the alternation. |
| Patterns.ByNextAt | core/ai_processor.py:199 | The group of `by\s+(next\s+\w+)` starts with "next" in any case, then whitespace, then more text. |
| Patterns.ByEndOfAt | core/ai_processor.py:200 | The group of `by\s+(end\s+of\s+\w+)` starts with "end" in any case, then whitespace, then more text. |
| Patterns.ByTomorrowAt | core/ai_processor.py:201 | The group of the `by tomorrow`/`by today` pattern lower-cases to "tomorrow" or "today". |
| Patterns.DeadlineGroups | core/ai_processor.py:196-205 | There are six deadline searches, in the listed order. Group 0 lower-cases to a weekday. Groups 1 and 2 start with "next" and "end" and a space. Group 3 lower-cases to "tomorrow" or "today". The groups of `before` and `due` are non-empty and stop before a sentence terminator. |
| PatternFacts.ByFridayAt | core/ai_processor.py:198 | "by Friday" at a position matches the weekday pattern there, with the group "Friday" as written. |
| PatternFacts.ByFridayDeadline | core/ai_processor.py:198-205 | In "... by Friday ..." with no `b` or `B` before it, the weekday search finds the group "Friday". |
| PatternFacts.WeekdayDeadline | core/ai_processor.py:190-207 | With no DATE entity, a weekday match gives the deadline: its group, stripped. |
| PatternFacts.FridayDeadline | core/ai_processor.py:190-207 | With no DATE entity, the deadline of "... by Friday ..." is "Friday". |
| Patterns.PersonModal | core/ai_processor.py:134-135 | A strategy-1 match captures a capitalized name and a non-empty action without `.`, `!` or `?`. |
| Patterns.ActionLabel | core/ai_processor.py:148-149 | A strategy-2 match captures a non-empty action without sentence terminators. |
| Patterns.TeamDuty | core/ai_processor.py:162-163 | A strategy-3 match captures a non-empty team and a non-empty action without sentence terminators. |
| PatternFacts.SpacedRestIsClause | core/ai_processor.py:134 | After one space, `\s+([^.!?]+)` captures the whole clause up to the next terminator. |
| PatternFacts.PersonWillAtStart | core/ai_processor.py:134-138 | "Name will <clause>" is matched by strategy 1 with exactly that name and that clause. |
| PatternFacts.PersonWillItem | core/ai_processor.py:133-145 | Such a sentence yields the item (capitalized clause, the name, the sentence's deadline, pending). |
| PatternFacts.TaskLabelAtStart | core/ai_processor.py:148-151 | "Task: <clause>" in any letter case is matched by strategy 2 and captures the whole clause. |
| Extraction.FirstWhere | core/ai_processor.py:179-181 | Returns the first element that satisfies the test, or None when no element does. |
| Extraction.ExtractPerson | core/ai_processor.py:177-188 | Returns the first PERSON entity of at most two words. Failing that, the first word that is capitalized, alphabetic, longer than two and not a stop word. Failing that, "". |
| Extraction.ExtractDeadline | core/ai_processor.py:190-208 | Returns the first DATE entity. Failing that, the stripped group of the first of the six patterns, in the listed order, that matches. Failing that, None. |
| Extraction.PersonModalItem | core/ai_processor.py:133-145 | Strategy 1 gives an item exactly when its pattern matches. The assignee is group 1, the description is group 3 stripped with the letter case of `str.capitalize`, the deadline is the sentence's and the status is pending. |
| Extraction.LabelItem | core/ai_processor.py:147-159 | Strategy 2 gives an item exactly when its pattern matches. The description is the group stripped with the letter case of `str.capitalize`, the assignee is `ExtractPerson` of the sentence, and the deadline is the sentence's. |
| Extraction.TeamItem | core/ai_processor.py:161-173 | Strategy 3 gives an item exactly when its pattern matches. The assignee is group 2 and the description group 4 stripped, both with the letter case of `str.capitalize`; the deadline is the sentence's. |
| Extraction.ExtractFromSentence | core/ai_processor.py:130-175 | Strategies are tried in order: person-modal, then label, then team. The first match decides the item. None exactly when no pattern matches. |
| Extraction.ExtractedItemShape | core/ai_processor.py:136-173 | Every item is pending and carries the sentence's deadline. Its description is capitalized and has no sentence terminator. |
| Extraction.SentenceStep | core/ai_processor.py:102-109 | A sentence is skipped exactly when it has fewer than five words, and raises exactly when a long sentence cannot be tagged. It finds an item exactly when a long tagged sentence matches a strategy, and that item is the one `ExtractFromSentence` builds: pending, capitalized, with no terminator. |
| Extraction.CollectItems | core/ai_processor.py:102-109 | The loop over the sentences collects at most one item per sentence, or fails. |
| Extraction.CollectItemsInOrder | core/ai_processor.py:102-109 | When no sentence raises, the loop collects exactly the found items in sentence order: one per sentence that yields an item, read first to last. |
| Extraction.ActionItemsInOrder | core/ai_processor.py:99-118 | When no sentence raises, the result is the found items in sentence order, keeping only the first item of each key. For a repeated description, the earliest sentence's item survives. |
| Extraction.ActionItemsOf | core/ai_processor.py:91-125 | The result is [] when the tagger fails to load or tag the text, or when any long sentence fails to tag. |
| Extraction.CollectItemsFails | core/ai_processor.py:99-109 | The sentence loop fails exactly when some sentence raises. |
| Extraction.CollectedItems | core/ai_processor.py:102-109 | Each sentence that is not skipped contributes at most one item. Every item is one that some sentence produced. |
| Extraction.CollectedAllFound | core/ai_processor.py:107-109 | Every item that a sentence yields is collected. |
| Extraction.QuietSentenceIgnored | core/ai_processor.py:104-109 | A skipped or unmatched sentence, wherever it stands, changes nothing. |
| Extraction.ShortSentenceIgnored | core/ai_processor.py:103-105 | Inserting a sentence of fewer than five words leaves the extracted items unchanged. |
| Extraction.ActionItemsDistinctAndPending | core/ai_processor.py:91-121 | No two extracted items share a key, and every item is pending. There are no more items than long sentences, and each item comes from a long sentence of the text. |
| Extraction.CollectedKeys | core/ai_processor.py:107-118 | After collecting and deduplicating, a key is kept exactly when some sentence yields an item with that key. |
| Extraction.ActionItemsKeys | core/ai_processor.py:91-121 | When no sentence fails to tag, a normalised description is in the extracted list exactly when a sentence of five words or more yields an item with it. |
| Deduplication.InKeySet | core/ai_processor.py:116 | A key is in the seen-set exactly when some visited item has it. |
| Deduplication.ItemKey | core/ai_processor.py:115 | The key is the lower-cased description with its leading and trailing whitespace removed. The removed parts are all whitespace. The key has no whitespace at either end and no upper-case letter. |
| Deduplication.SameKey | core/ai_processor.py:115 | The key equals the stripped description, lower-cased. Two items whose stripped descriptions lower-case alike share a key. |
| Deduplication.Dedup | core/ai_processor.py:111-118 | The seen-set filter keeps no more items than it is given, and only items of its input. |
| Deduplication.DedupKeySet | core/ai_processor.py:111-118 | Deduplication drops no key. |
| Deduplication.DedupKeepsFirstOfEachKey | core/ai_processor.py:111-118 | The output is the subsequence of the input that keeps exactly the first item of each key, in input order. |
| Deduplication.DedupDistinctKeys | core/ai_processor.py:111-118 | No two output items share a key. |
| Deduplication.DedupOfDistinct | core/ai_processor.py:111-118 | A list whose keys are already distinct is left unchanged. |
| Deduplication.DedupIdempotent | core/ai_processor.py:111-118 | Deduplicating twice is the same as deduplicating once. |
| Summarization.ChunksPartition | core/ai_processor.py:58-67 | The chunks concatenate back to the words. There are ceil(n/1024) of them, each has 1..1024 words, and all but the last have exactly 1024. |
| Summarization.ChunkTextsResplit | core/ai_processor.py:64-67 | Splitting a chunk text gives back exactly that chunk's words. |
| Summarization.ChunkTextsStep | core/ai_processor.py:65-66 | The first chunk text is the join of the first (at most) 1024 words, followed by the chunk texts of the rest. |
| Summarization.Chunks | core/ai_processor.py:65-66 | Slicing by 1024 words gives ceil(n/1024) chunks. |
| Summarization.ChunkTexts | core/ai_processor.py:64-67 | There is one chunk text per chunk. |
| Summarization.ChunkSummaries | core/ai_processor.py:69-72 | The chunk loop makes at most one request per chunk text. When it succeeds, there is one summary and one request per chunk text. |
| Summarization.ChunkSummariesShape | core/ai_processor.py:69-72 | There is one (100, 30) request per chunk, in order, and every request but the last succeeded. The loop fails exactly when a request raised; otherwise there is one summary per chunk. |
| Summarization.ChunkSummariesStop | core/ai_processor.py:69-72 | Once a chunk pass has raised, no later chunk is summarized. |
| Summarization.CombineChunks | core/ai_processor.py:69-80 | A failed chunk loop gives the error message. Otherwise the joined summaries come back stripped when they have at most 100 words. Longer ones get exactly one more (200, 75) request, and its stripped output or the error message is returned. |
| Summarization.Summarize | core/ai_processor.py:54-82 | Fewer than 50 words gives the short-text message with no request. Up to 1024 words gives exactly one (150, 50) request on the original text and returns its stripped output, or the error message when it raises. |
| Summarization.SummaryOf | core/ai_processor.py:44-86 | A pipeline that fails to load gives the error message, with no request and even for a short text. |
| Summarization.SummarizeStopsAtFailure | core/ai_processor.py:69-86 | Requests stop at the first one that raises, and a raising request turns the summary into the error message. |
| Summarization.LongTextChunks | core/ai_processor.py:58-67 | A text of more than 1024 words gives at least two chunk texts, ceil(n/1024) of them, each of 1..1024 words. |
| Summarization.LongTextPasses | core/ai_processor.py:61-79 | Chunk requests come first, in chunk order, followed by at most one (200, 75) request. |
| Summarization.LongTextPassCount | core/ai_processor.py:64-79 | When no pass raises, there is one request per chunk, plus one exactly when the joined summaries exceed 100 words. |
| Summarization.LongTextSummary | core/ai_processor.py:63-82 | When every chunk pass of a long text succeeds, the chunk summaries are the engine outputs. The summary is their stripped join, or, over 100 words, the stripped output of the combining pass. |
| Summarization.EchoSinglePass | core/ai_processor.py:61-62 | With a summarizer that echoes its input, a text of 50 to 1024 words is summarized as itself, stripped. |
| Summarization.JoinChunkTexts | core/ai_processor.py:64-74 | Joining the chunk texts gives the words joined with single spaces. |
| Summarization.EchoLongText | core/ai_processor.py:63-82 | With a summarizer that echoes its input, a text of more than 1024 words comes back as its words joined by single spaces. |
| Processor.TranscriptOf | core/ai_processor.py:26-39 | A transcript exists exactly when the model loads and the transcription succeeds. It is then the transcription stripped of surrounding whitespace. |
| Processor.ChunkWords | core/ai_processor.py:64-67 | The chunking loop builds exactly the chunk texts. |
| Processor.CollectSentenceItems | core/ai_processor.py:100-109 | The sentence loop collects exactly the items of `CollectItems`, or None when a sentence raises. |
| Processor.DeduplicateItems | core/ai_processor.py:111-118 | For any key function, the seen-set loop computes exactly `Dedup`. It is called with `ItemKey`. |
| Processor.MeetingAIProcessor.constructor | core/ai_processor.py:13-21 | No model is loaded at construction. |
| Processor.MeetingAIProcessor.ConvertAudioToText | core/ai_processor.py:26-39 | Returns `TranscriptOf`. Loads the speech model once and changes nothing else. |
| Processor.MeetingAIProcessor.GenerateSummary | core/ai_processor.py:44-86 | Returns `SummaryOf` and appends exactly its requests to the log. Loads the summarizer once. |
| Processor.MeetingAIProcessor.SummarizeLongText | core/ai_processor.py:63-82 | The long-text branch returns the summary of `CombineChunks` and logs exactly its requests. |
| Processor.MeetingAIProcessor.SummarizeChunks | core/ai_processor.py:69-72 | The chunk loop yields `ChunkSummaries` and logs exactly its requests. |
| Processor.MeetingAIProcessor.ExtractActionItems | core/ai_processor.py:91-125 | Returns `ActionItemsOf`. Loads the tagger once and makes no summarizer request. |
| Processor.MeetingAIProcessor.ProcessMeeting | core/ai_processor.py:213-243 | A missing or empty transcript gives `Failed` with no summarizer request, and only the speech model may have been loaded. Otherwise the result is the transcript, its summary and its action items, with each model loaded once. |
| Processor.MeetingAIProcessor.ProcessTextOnly | core/ai_processor.py:245-267 | Returns the input text with its summary and its action items. The summarizer and the tagger are loaded once, and the speech model is untouched. |

## Left out

- Case mapping, `isupper`, `isalpha`, `\w` and `re.IGNORECASE` are ASCII only. Python's Unicode case tables and special case-insensitive equivalences (such as the Kelvin sign) are not modelled. Whitespace is the exact `str.isspace` set.
- The engines are uninterpreted, deterministic function values.
  - A call that raises, or whose output lacks `summary_text` or `text`, is modelled as `None`.
  - The source tags a sentence again inside each helper. The model tags it once, which is the same only because the tagger is deterministic.
- Model loading is reduced to "what loading yields": whisper `load_model`, the BART `pipeline` with its CUDA device choice, and `spacy.load`. The `do_sample=False` argument is not modelled.
- Audio input/output in `convert_audio_to_text` is not modelled; only its contract is (a stripped string or None).
- All `print` logging is left out.
- `process_text_only` called with `None` is not modelled, because strings are never null here.
- The outer `try` blocks of the two pipelines are not modelled, because neither callee can raise.
- The summarizer request log is ghost state. It records the requests and does not influence results.
- Patterns.PersonModal: the contract states only the shape of the captured groups. What they capture is fixed by the matcher's body; `PatternFacts` proves the captured text for the sentence shapes `Name will ...` and `Task: ...`.
- Patterns.ActionLabel: likewise; the captured text is proved only for the `Task: ...` shape.
- Patterns.TeamDuty: likewise; no sentence shape is worked out for strategy 3.
- No concrete example sentence is proved; the example facts are stated for whole families of sentences instead.
- `core/views.py`, `core/models.py`, `core/admin.py`, `core/urls.py` and the JavaScript front end are not part of this model. They are request handling, persistence declarations and UI code. The task status choices of `core/models.py` appear only as the `Items.Status` datatype.
