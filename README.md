# Agentic research assistant — a Dafny model of its backend core

The backend answers a research question with a fixed chain of four agents
over one shared workflow state:

- the **Researcher** looks up similar past research in the vector memory and
  searches the web;
- the **Summarizer** summarises each of the first eight results with enough
  content and combines those summaries into one synthesis;
- the **Validator** extracts up to five claims from the synthesis and
  fact-checks each one against fresh web evidence;
- the **Presenter** writes the final markdown answer with a metadata footer,
  or streams it chunk by chunk.

The FastAPI layer keeps a table of research tasks. Requests create,
run in the background, stream, inspect, list and delete those tasks, and the
service writes every final answer back to the vector memory.

The model has one module per source file:

| module | file | form |
|---|---|---|
| `Common` | common.dfy | `Option`, `Outcome` (a value or the message of a raised exception), `Formatter` |
| `Text` | text.dfy | the Python string operations the core uses: `strip`, `split`, `split()`, `join`, slicing, `str(n)` |
| `WebSearch` | web_search.dfy | `WebSearcher.search`, with its normalising loop as a method |
| `Memory` | memory.dfy | the local guards of `search_similar` |
| `Validation` | validation.dfy | claim extraction, the reply parser (a loop proved against a fold), `validate_claim`, `extract_and_validate_claims` |
| `Summarization` | summarization.dfy | `summarize_text`, `combine_summaries`, `_build_prompt` as functions |
| `State` | research_state.dfy | the twelve-key workflow state, log entries, validation statistics |
| `Researcher`, `Summarizer`, `Validator`, `Presenter` | researcher.dfy, summarizer.dfy, validator.dfy, presenter.dfy | each agent's `execute` as a function, with the agent's loops as methods proved against it |
| `ResearchGraph` | research_graph.dfy | the node wrappers, `run` and `stream_run` |
| `App` | app.dfy | the task table as a class `Server` whose methods are the HTTP handlers, and the event generator of `/stream/{task_id}` |

Everything outside the process is an input value, never a call:

- an LLM reply is an `Outcome<string>`: the text, or the exception it raised;
- a web search answer is a `SearchClient`;
- the vector store is a `MemoryPort`;
- the float parser `float(...)` is a `string -> Option<real>` parameter;
- the float formats `:.2f` and `:.1%` are a `Formatter`;
- the clock is a `now` string;
- an exception that escapes an agent's `try` body is a `fault: Option<string>`.

Each agent's `except` branch rebuilds its result from the state it was
given. So where in the body the exception arose does not change the result,
and one optional message describes every such path.

Notes on the code's behaviour, which the model keeps:

- the `sources_count` of the stream's completion event is the number of
  summaries, not of research results (`App.Completion`);
- a new task starts with status `"initializing"`;
- a parsed confidence is not clamped to [0, 1] (`Validator.ValidatedConfidenceInUnit`
  needs that as a hypothesis);
- `/stream/{task_id}` runs the workflow twice: once streamed, to forward its
  updates, and once more with `run` for the final state;
- when the graph raises inside `stream_run`, the fallback state arrives as
  an update of a node named `"error"`, which the generator forwards as a stage;
- a streamed task's completion does not copy the final state's `error`,
  while the background task's does.

## Model

The table names the members whose contracts state something about the
source. The functions that only define a value are mapped through the rows
whose contracts name them:

- `State.Initial` (backend/workflows/research_graph.py:99-112) through `ResearchGraph.ThroughLogs` and `ResearchGraph.RunResponds`;
- `ResearchGraph.Step`, `Through`, `Run` and `Fallback` (backend/workflows/research_graph.py:58-127) through `ResearchGraph.RunNode`, `RunWorkflow`, `StepEffect` and `StreamEndsWithRun`;
- `Summarizer.RecordOf`, `Records` and `Synthesis` (backend/agents/summarizer.py:47-79) through `Summarizer.RecordsAtKept`, `SummarizeSources` and `Summarize`;
- `Validator.Mean`, `CountVerdict` and `OverallConfidence` (backend/agents/validator.py:54-65) through `Validator.MeanBounds`, `CountVerdictCounts` and `StatsOf`;
- `Presenter.BasicPresentation`, `Footer` and `SummaryOrFallback` (backend/agents/presenter.py:71-185) through `Presenter.BasicPresentationFrame`, `Presentation` and `Present`;
- `App.NewTask` (backend/main.py:136-143) through `App.Server.CreateQuery`, and `App.Completion` (backend/main.py:310-317) through `App.Events`;
- `Summarization.CombinePrompt` (backend/utils/summarization.py:80-91) through `Summarization.CombinePromptParts`.

| member | source | states |
|---|---|---|
| Text.Strip | backend/utils/validation.py:88 | `strip()` leaves a string with no whitespace at either end, and it is empty exactly when the input is all whitespace |
| Text.StripStripped | backend/utils/validation.py:88 | stripping a string that is already stripped gives it back unchanged, so `strip()` is idempotent |
| Text.StripKeeps | backend/utils/validation.py:179 | stripping adds no character, so a stripped claim holds no line break its line did not hold |
| Text.TrimStartSuffix | backend/utils/validation.py:88 | `lstrip()` keeps a suffix of its input |
| Text.TrimStartRemovesSpace | backend/utils/validation.py:88 | everything `lstrip()` removes is whitespace |
| Text.TrimEndPrefix | backend/utils/validation.py:88 | `rstrip()` keeps a prefix of its input |
| Text.TrimEndRemovesSpace | backend/utils/validation.py:88 | everything `rstrip()` removes is whitespace |
| Text.Take | backend/main.py:358 | `s[:n]` has length `min(n, len(s))` and is a prefix of `s` |
| Text.SplitOn | backend/utils/validation.py:95 | `split(sep)` gives at least one piece and no piece holds the separator |
| Text.JoinSplit | backend/utils/validation.py:95 | joining the pieces of `split(sep)` with `sep` gives the text back |
| Text.SplitJoin | backend/utils/validation.py:179 | splitting pieces that were joined with a separator none of them holds gives the pieces back |
| Text.LinesSplit | backend/agents/presenter.py:97-100 | text built as lines each ending in `"\n"` splits back into those lines and one empty piece |
| Text.JoinEnds | backend/utils/summarization.py:107-109 | a join starts with its first piece and ends with its last |
| Text.WordLen | backend/utils/summarization.py:56 | the run of non-whitespace a string starts with ends at the first whitespace character |
| Text.WordsAreWords | backend/utils/summarization.py:56 | no word of `split()` is empty or holds whitespace |
| Text.WordsOfJoined | backend/utils/summarization.py:56-57 | `" ".join(words).split()` gives back the words |
| Text.NatToString | backend/agents/summarizer.py:91 | `str(n)` is a non-empty string of decimal digits |
| Text.NatToStringRoundTrip | backend/agents/summarizer.py:91 | reading back the digits of `str(n)` gives `n` |
| Text.AfterTag | backend/utils/validation.py:97 | on a line starting with a tag whose only colon ends it, `split(":", 1)[1]` is the text after the tag |
| WebSearch.NormalizeLift | backend/utils/web_search.py:51-57 | normalising a result that has all four keys changes nothing |
| WebSearch.MockResults | backend/utils/web_search.py:75-85 | the mock answer is one result at `https://example.com`, with score 0.8, whose title ends with the query |
| WebSearch.Found | backend/utils/web_search.py:37-73 | with no client or a raising call, the mock result; otherwise the provider's results normalised in order, after an "AI Summary" result exactly when there is a non-empty answer |
| WebSearch.FoundEmpty | backend/utils/web_search.py:37-73 | the search is empty exactly when a provider answered with neither results nor an answer |
| WebSearch.Search | backend/utils/web_search.py:20-73 | the search with its normalising loop returns exactly `Found` |
| Memory.SearchSimilar | backend/utils/weaviate_client.py:95-126 | a similarity search gives snippets only from a connected store whose query succeeded, and then exactly its snippets |
| Validation.LastSet | backend/utils/validation.py:95-104 | the last line that sets a field does set it, and no later line does |
| Validation.LastValueSnoc | backend/utils/validation.py:95-104 | one more line moves a field's value to that line exactly when the line sets it |
| Validation.AssessSnoc | backend/utils/validation.py:95-104 | a VERDICT or EXPLANATION line overwrites its field, a CONFIDENCE line does so only when its value parses, and any other line changes nothing |
| Validation.TagsExclusive | backend/utils/validation.py:96-103 | no line starts with two of the three tags, so the `elif` order does not matter |
| Validation.TaggedColonValue | backend/utils/validation.py:97-104 | on a tagged line, the text after the first colon is the text after the tag |
| Validation.ParsedLastWins | backend/utils/validation.py:95-104 | running the parser line by line gives, for each field, the value of the last line that sets it, or the default |
| Validation.ParseAssessment | backend/utils/validation.py:91-104 | the parsing loop yields the last-set verdict, confidence and explanation, with defaults `INSUFFICIENT_EVIDENCE`, 0.5 and the whole reply |
| Validation.Urls | backend/utils/validation.py:113 | the sources of a check are the evidence URLs, in order |
| Validation.ClaimCheckOf | backend/utils/validation.py:20-124 | a check always names its own claim; a raising call gives SUPPORTED 0.7 without sources, a response raising after the call gives ERROR 0.0 without sources, and a parsed reply carries the evidence URLs |
| Validation.ValidateClaim | backend/utils/validation.py:20-124 | a raising LLM call gives SUPPORTED with 0.7, a response without choices or with a None content gives ERROR with 0.0 and the exception's message, and a reply gives its parsed assessment with the evidence URLs |
| Validation.StripAfterSpace | backend/utils/validation.py:97 | the space after a tag is removed by the value's `strip()` |
| Validation.FormattedLines | backend/utils/validation.py:49-65 | a reply in the requested format is already stripped and splits into exactly its three lines |
| Validation.FormattedStripped | backend/utils/validation.py:88 | a reply opening with a verdict line and ending with a stripped explanation is left unchanged by `strip()` |
| Validation.TagLine | backend/utils/validation.py:96-104 | a tag, a space and a stripped value form a line that starts with the tag and gives back the value |
| Validation.AssessThreeLines | backend/utils/validation.py:95-104 | a verdict, a confidence and an explanation line, in this order, set all three fields |
| Validation.VerdictLineSets | backend/utils/validation.py:96-97 | a VERDICT line sets the verdict to the stripped text after the tag |
| Validation.ConfidenceLineSets | backend/utils/validation.py:98-102 | a CONFIDENCE line sets the confidence when its value parses, and otherwise changes nothing |
| Validation.OtherLineKeeps | backend/utils/validation.py:95-104 | a line with no tag changes nothing |
| Validation.ExplanationLineSets | backend/utils/validation.py:103-104 | an EXPLANATION line sets the explanation |
| Validation.ParseFormattedReply | backend/utils/validation.py:49-104 | a reply written in the requested format parses back to its verdict, its explanation and the float its confidence denotes |
| Validation.ClaimLines | backend/utils/validation.py:179 | the claims are at most as many as the lines, each non-empty and stripped |
| Validation.ClaimLinesNoBreak | backend/utils/validation.py:179 | claims taken from lines without line breaks hold none |
| Validation.ExtractClaims | backend/utils/validation.py:157-186 | at most `max_claims` claims, each non-empty, stripped and on one line; none when the LLM call raises |
| Validation.ClaimLinesOfClaims | backend/utils/validation.py:179 | lines that are already claims are kept unchanged |
| Validation.ExtractClaimsRoundTrip | backend/utils/validation.py:157-186 | claims written one per line are extracted back, cut to `max_claims` |
| Validation.ClaimChecks | backend/utils/validation.py:146-151 | one check per claim, in order, each naming its claim |
| Validation.ClaimChecksStep | backend/utils/validation.py:147-149 | checking one more claim appends its check |
| Validation.ValidateAll | backend/utils/validation.py:146-151 | the loop gives exactly one `validate_claim` result per claim, in order |
| Validation.ExtractAndValidate | backend/utils/validation.py:126-155 | the checks of the extracted claims, at most `max_claims` of them |
| Summarization.FallbackSummaryShape | backend/utils/summarization.py:53-60 | the fallback is "📝 Summary: ", then the first `max_length` words joined by single spaces, then "..." exactly when the text had at least `max_length` words |
| Summarization.FallbackSummaryWords | backend/utils/summarization.py:56-57 | the words joined in the fallback split back into the same words |
| Summarization.TakeWords | backend/utils/summarization.py:56 | the first words of a list of words are words |
| Summarization.SummarizeTextShape | backend/utils/summarization.py:19-60 | a reply gives a stripped summary that is empty only for a blank reply; a raising call gives a summary starting with the prefix |
| Summarization.SourceLabels | backend/utils/summarization.py:78 | the `i`-th summary is labelled "Source i+1: ", in input order |
| Summarization.CombineSummaries | backend/utils/summarization.py:62-109 | a reply gives its stripped text; a raising call gives the summaries joined by blank lines, which starts with the first summary and is that summary when it is the only one |
| Summarization.CombinePromptParts | backend/utils/summarization.py:78-91 | the prompt holds the labelled summaries unchanged between its fixed opening and closing, the first labelled "Source 1: " |
| Summarization.UnknownStyleIsConcise | backend/utils/summarization.py:119 | a style missing from the table gets the concise instruction |
| Summarization.BuildPromptParts | backend/utils/summarization.py:111-126 | the prompt is the style instruction, then the text unchanged, then "Summary:", so the text can be cut back out |
| Researcher.SnippetLines | backend/agents/researcher.py:37-39 | one line per snippet, in order |
| Researcher.SnippetLineSingle | backend/agents/researcher.py:38 | a snippet line holds no line break when its content holds none |
| Researcher.MemoryContextLines | backend/agents/researcher.py:35-39 | the memory context is the header and then exactly one line per snippet |
| Researcher.Research | backend/agents/researcher.py:18-105 | one more log entry, by the Researcher; it completes exactly when nothing raises and the search is non-empty, and then records the search results and memory context, keeps the error, and logs the source count and the first result's title; an empty search records no results and the no-results error and keeps the memory context; a raised exception changes only the error and the logs |
| Researcher.NoResultsOnlyFromProvider | backend/agents/researcher.py:49-61 | the "No search results found" error happens exactly when a provider answered with neither results nor an answer |
| Researcher.ProcessResults | backend/agents/researcher.py:64-71 | rebuilding each normalised result from its four keys gives the results back unchanged and in order |
| Researcher.Execute | backend/agents/researcher.py:18-105 | the agent's body returns exactly `Research` |
| Summarizer.KeptIndices | backend/agents/summarizer.py:48-52 | at most `n` kept positions, all below `n` |
| Summarizer.KeptIndicesExact | backend/agents/summarizer.py:48-52 | the kept positions are exactly those whose content has at least 100 characters, each once, in increasing order |
| Summarizer.ExactlyKeptStep | backend/agents/summarizer.py:48-52 | looking at one more result keeps the kept positions exact: it is added at the end exactly when its content is long enough |
| Summarizer.KeptMapAt | backend/agents/summarizer.py:48-65 | the `j`-th record belongs to the `j`-th kept position |
| Summarizer.RecordsAtKept | backend/agents/summarizer.py:48-65 | the records are those of the kept results, one each, in order, each summarised with 150 words |
| Summarizer.RecordsOfStep | backend/agents/summarizer.py:48-65 | one more result adds its record exactly when its content is long enough |
| Summarizer.RecordsBound | backend/agents/summarizer.py:48 | at most eight summaries, and at most one per result |
| Summarizer.SummaryTexts | backend/agents/summarizer.py:72-75 | the summary texts passed to the combiner, in order |
| Summarizer.Summarize | backend/agents/summarizer.py:17-113 | one more log entry, by the Summarizer; skipped with no results; otherwise the records of the first eight results, combined into the synthesis, or the fixed sentence when none was kept, with a log entry counting the summaries and the synthesis length; without an exception the error is kept; a raised exception changes only the error and the logs |
| Summarizer.SummarizeSources | backend/agents/summarizer.py:47-69 | the loop over the first eight results returns exactly their records |
| Summarizer.Execute | backend/agents/summarizer.py:17-113 | the agent's body returns exactly `Summarize` |
| Validator.Confidences | backend/agents/validator.py:55 | the confidences of the checks, in order |
| Validator.SumBounds | backend/agents/validator.py:56 | a sum of `n` values within `[lo, hi]` lies within `[n·lo, n·hi]` |
| Validator.MeanBounds | backend/agents/validator.py:54-56 | the mean confidence stays within any bounds every confidence keeps |
| Validator.VerdictCountsBound | backend/agents/validator.py:59-61 | supported and contradicted counts together do not exceed the number of checks |
| Validator.CountVerdictCounts | backend/agents/validator.py:59-61 | `verdicts.count(v)` is the number of positions whose verdict is `v` |
| Validator.VerdictPositionsSnoc | backend/agents/validator.py:59-61 | one more check adds its position to those of a verdict exactly when it carries that verdict |
| Validator.StatsOf | backend/agents/validator.py:76-81 | the statistics count every check, hold the verdict counts and the overall confidence, and no check is both supported and contradicted; no checks give counts of 0 and confidence 0.5 |
| Validator.StatsCount | backend/agents/validator.py:59-61 | the supported and contradicted statistics are the numbers of checks with those verdicts |
| Validator.Validate | backend/agents/validator.py:17-111 | one more log entry, by the Validator; skipped with no synthesis (confidence 0.0); otherwise at most five checks of the extracted claims, the overall confidence their mean (0.5 when there is none), statistics and log data holding the exact verdict counts; without an exception the error is kept; a raised exception gives no checks and 0.5, records the error and keeps every other field, statistics included |
| Validator.ValidatedConfidenceInUnit | backend/agents/validator.py:54-65 | when every check reports a confidence in [0, 1], so does the overall confidence |
| Presenter.ValidationLines | backend/agents/presenter.py:99-100 | one line per validation, in order |
| Presenter.BuildValidationContext | backend/agents/presenter.py:96-100 | the loop builds the header and one terminated line per validation, and nothing without validations |
| Presenter.ValidationContextLines | backend/agents/presenter.py:96-100 | the validation context splits back into the header and one line per validation |
| Presenter.SourceLines | backend/agents/presenter.py:106-107 | numbered lines for the first five summaries, counting from 1 |
| Presenter.BuildSourcesContext | backend/agents/presenter.py:103-107 | the loop builds the header and one terminated line for each of the first five summaries |
| Presenter.SourceEntries | backend/agents/presenter.py:178-180 | one entry for each of the first five summaries, numbered from 1 |
| Presenter.BasicPresentationFrame | backend/agents/presenter.py:164-185 | the basic presentation is the query and the summary, then the Sources section exactly when there are summaries, then the confidence and the number of summaries |
| Presenter.AppendSourceEntries | backend/agents/presenter.py:176-180 | the loop appends the listed entries in order |
| Presenter.AppendEntry | backend/agents/presenter.py:179-180 | appending an entry's title and then its excerpt appends that entry |
| Presenter.CreateBasicPresentation | backend/agents/presenter.py:164-185 | the step-by-step construction gives exactly the basic presentation |
| Presenter.Presentation | backend/agents/presenter.py:85-162 | a reply gives its stripped text followed by the metadata footer; a raising call gives exactly the basic presentation, which opens with the query and the summary |
| Presenter.CreatePresentation | backend/agents/presenter.py:85-162 | `_create_presentation` returns exactly `Presentation` |
| Presenter.Present | backend/agents/presenter.py:24-83 | one more log entry, by the Presenter; only the final response can change besides the error; without an exception it is the presentation and the error is kept; a raised exception records the error and sets the synthesis or the fixed fallback; the final response is never empty |
| Presenter.Execute | backend/agents/presenter.py:24-83 | the agent's body returns exactly `Present` |
| Presenter.NonEmpty | backend/agents/presenter.py:251-253 | only deltas with content are yielded |
| Presenter.NonEmptyConcat | backend/agents/presenter.py:251-253 | dropping empty deltas does not change the streamed text |
| Presenter.StreamPresentation | backend/agents/presenter.py:187-269 | the chunks are the non-empty deltas, then the footer; or, when the stream raises, the deltas so far, an error chunk and the synthesis |
| Presenter.StreamMatchesPresentation | backend/agents/presenter.py:187-264 | a stream that completes spells the same text as the non-streamed presentation of the same stripped completion |
| ResearchGraph.Progress | backend/workflows/research_graph.py:159-161 | one update per finished node, naming it, with the state after it |
| ResearchGraph.StreamUpdates | backend/workflows/research_graph.py:129-171 | one update per node that finished, plus one `"error"` update when the graph raised |
| ResearchGraph.StreamEndsWithRun | backend/workflows/research_graph.py:86-171 | the stream's last update carries the state `run` returns, from `"presenter"`, or from `"error"` when the graph raised |
| ResearchGraph.StepEffect | backend/workflows/research_graph.py:58-84 | every node keeps the query, leaves its stage message and appends exactly one log entry, written by its agent |
| ResearchGraph.ThroughLogs | backend/workflows/research_graph.py:36-56 | after `n` nodes the logs hold one entry per node, in chain order |
| ResearchGraph.RunResponds | backend/workflows/research_graph.py:86-127 | a run keeps the query and always ends with a non-empty final response |
| ResearchGraph.EmptySearchResearch | backend/agents/researcher.py:49-61 | after an empty search, the state holds no results and the "no results" error |
| ResearchGraph.EmptySearchSkips | backend/agents/summarizer.py:33-44 | with no results, the summarizer and the validator both skip and the confidence stays 0.0 |
| ResearchGraph.EmptySearchDegrades | backend/workflows/research_graph.py:86-119 | an empty search with nothing raising degrades: the run ends with nothing summarised or validated and the presentation of that empty state |
| ResearchGraph.RunNode | backend/workflows/research_graph.py:58-84 | each node sets its stage message and runs its agent |
| ResearchGraph.RunWorkflow | backend/workflows/research_graph.py:86-127 | `run` returns the state after the four nodes, or the fallback state with the error when the graph raises |
| ResearchGraph.StreamRun | backend/workflows/research_graph.py:129-171 | `stream_run` yields exactly `StreamUpdates` |
| App.Stored | backend/main.py:167-174 | at most one snippet is stored, exactly when the run produced a response |
| App.UpdateEvents | backend/main.py:246-264 | an update sends its stage first, then its latest log entry exactly when it has one, and never a terminal event |
| App.ForwardedEvents | backend/main.py:241-264 | forwarded updates never send a terminal event |
| App.ResponseEvents | backend/main.py:285-289 | one response event per chunk, in order |
| App.ForwardedCount | backend/main.py:241-270 | the generator forwards at most every update |
| App.Events | backend/main.py:229-334 | the stream opens with the initializing status and sends exactly one terminal event, as its last; it is an error event exactly when the generator raised, and otherwise the completion event |
| App.TaskAfter | backend/main.py:241-334 | a raising generator marks the task failed with its message at the last stage shown; otherwise the task is completed with the final response |
| App.StreamStored | backend/main.py:292-299 | a stream writes at most one snippet, and none when it raised |
| App.StagesAppend | backend/main.py:247-255 | the stages of joined event lists are the stages of each, in order |
| App.StagePairs | backend/main.py:247-255 | each update's node and stage message, in order |
| App.UpdateStage | backend/main.py:247-255 | an update's events carry exactly one stage: its own |
| App.ForwardedStages | backend/main.py:241-264 | the forwarded events show exactly each update's node and stage message |
| App.NoStages | backend/main.py:285-289 | response events carry no stage |
| App.CompletedTailNoStages | backend/main.py:276-317 | the events after the forwarded ones carry no stage |
| App.StagesAround | backend/main.py:232-238 | the opening status adds no stage |
| App.EventsStages | backend/main.py:229-317 | when nothing raises, the stages shown are exactly those of the forwarded updates |
| App.StreamShowsEveryStage | backend/main.py:229-317 | when nothing raises, the client sees the four nodes in chain order, each with its stage message |
| App.DistinctCount | backend/main.py:364 | a set of exactly the ids of a list without repeats has as many elements as the list |
| App.RemoveAt | backend/main.py:339-348 | deleting an id from the insertion order keeps it without repeats and removes exactly that id |
| App.StreamEventsRaised | backend/main.py:321-334 | a raising generator sends the opening status, the forwarded updates and one error event |
| App.StreamEventsCompleted | backend/main.py:273-317 | a stream that runs to its end sends the opening status, the forwarded updates, the presenting status, the chunks and the completion event |
| App.StreamedTaskAfter | backend/main.py:241-334 | the streamed task is the task after the forwarded updates and the final state |
| App.AppendResponses | backend/main.py:285-289 | the loop appends one response event per chunk |
| App.BackgroundRunStores | backend/main.py:164-174 | a background run always writes its response to memory |
| App.Server.constructor | backend/main.py:35 | the service starts with no task and nothing stored |
| App.Server.CreateQuery | backend/main.py:118-155 | a blank query is refused with 400 and changes nothing; otherwise the new task is stored as initializing under "task_" and the timestamp, and the run is scheduled exactly when not streaming |
| App.Server.ExecuteResearchTask | backend/main.py:158-193 | a task that exists ends completed with the run's response and error, with that response stored; or failed with the exception's message; a deleted task is left alone |
| App.Server.GetTaskStatus | backend/main.py:196-209 | an unknown id gives 404; otherwise the task's status, stage, response and error |
| App.Server.DeleteTask | backend/main.py:339-348 | an unknown id gives 404; otherwise exactly that task disappears from the table, and the listing order loses that one id while the others keep their order |
| App.Server.ListTasks | backend/main.py:351-365 | one row per task in insertion order, with the query cut to 100 characters, and the total equal to the number of tasks |
| App.Server.Forward | backend/main.py:241-270 | the forwarded events of the updates, with the task running at the last update's stage |
| App.Server.StreamResearch | backend/main.py:212-336 | an unknown id gives 404; otherwise the stream's events, the task after the stream and the snippet it stored |
| App.Server.StreamTask | backend/main.py:229-334 | the event generator sends `StreamEvents`, updates the task to `StreamedTask` and stores `StreamStored` |
| App.Server.Raise | backend/main.py:321-334 | the error event is sent and the task is marked failed with the message |
| App.Server.Present | backend/main.py:273-317 | the presenting status, the chunks and the completion event are sent, the snippet is stored and the task completed |

## Left out

- Logging and the `/`, `/health` and lifespan
  handlers: they do not affect any returned value or stored state.
- Concurrency and `async`: every handler and agent runs to completion on its
  own. The background task and a stream of the same task do not interleave.
- The LLM, Tavily and Weaviate clients are not part of this model. Their
  answers are inputs. Connecting, closing, schema creation and the internals
  of `store_snippet` and `search_similar` are left out. `App.Server.stored`
  records the arguments of each `store_snippet` call.
- The prompts of `validate_claim`, `_extract_claims` and the presentation are
  not built. Only the `_build_prompt` and `combine_summaries` prompts are.
  The validation and sources contexts are modelled because the presentation
  builds them with loops.
- `max_results`, `search_depth` and the other request parameters of the
  provider calls are not modelled: the provider's answer is an input.
- Python's float formatting (`:.2f`, `:.1%`) and `float()` parsing are
  parameters (`Formatter`, `parseFloat`), not computed.
- An empty `choices` list from the LLM raises `IndexError`. Where the
  `choices[0]` access sits inside the call's `try`, the model treats it as
  one more raising call (`Fail`). In `validate_claim` it sits after that
  `try`, so it is the `NoChoices` reply, which gives the ERROR record.
- Timestamps and the task id's formatted time are `now` and `stamp` string
  inputs. One call reads one time, so all the timestamps it writes are equal.
- Server-sent-event framing and JSON encoding are not modelled: the stream is
  a list of `App.Event` values.
- App.StreamTask: an exception inside the event generator is placed only
  between forwarded updates, or at the `run` call after them
  (`App.StreamFault`). An exception raised while the chunks are streamed or
  while the snippet is stored is not modelled.
- App.Server.ExecuteResearchTask: an exception from the run or the memory
  write is one `fault` message placed before the run. A memory write that
  raises after the run is not told apart from a run that raises.
- ResearchGraph.RunWorkflow: a graph fault is an exception raised by the graph
  runtime after a number of nodes. Exceptions inside agents are already
  caught by the agents' own `except` branches.
- The `.get` defaults of the Summarizer (`"Source {idx+1}"`, `""`, `0.0`)
  cannot fire, because the Researcher always fills all four keys. The
  `state.get(..., default)` reads of every agent are modelled as the field
  itself, because the workflow state always holds all twelve keys.
- Summarizer.SummarizeSources: a provider result whose content is present but
  null is not modelled. A `RawResult` field can only be present with a string
  or missing, and a missing content becomes `""`. In the code, `len(content)` of
  a null content raises `TypeError` inside the loop's `try`, and that result is
  skipped like a short one.
- The `except` branch of `extract_and_validate_claims` cannot fire, because
  `_extract_claims` and `validate_claim` each catch every exception themselves.
