/** The Presenter agent (backend/agents/presenter.py): it turns the
    synthesis into the final markdown answer, with a metadata footer, and
    can stream that answer chunk by chunk. */
module Presenter {
  import opened Common
  import opened Text
  import opened Validation
  import opened State

  const Name: string := "Presenter"
  const NoResponse: string := "Unable to generate response."
  const MaxListed: nat := 5
  const ValidationHeader: string := "\n\nValidation Results:\n"
  const SourcesHeader: string := "\n\nSources:\n"

  /** What the outside world answers while the Presenter runs: the LLM call
      of `_create_presentation` (an exception, or the reply's content; a
      None content is an exception too), and an exception that escapes the
      agent's body, if one does. */
  datatype PresenterPorts = PresenterPorts(reply: Outcome<string>, fault: Option<string>)

  /** The streamed completion: the content deltas received, in order, and
      the exception that ended the stream early, if one did. */
  datatype CompletionStream = CompletionStream(deltas: seq<string>, failure: Option<string>)

  /** "- {claim}: {verdict} (confidence: {confidence:.2f})" */
  function ValidationLine(v: ClaimCheck, fmt: Formatter): string
  {
    "- " + v.claim + ": " + v.verdict + " (confidence: " + fmt.fixed2(v.confidence) + ")"
  }

  function ValidationLines(vs: seq<ClaimCheck>, fmt: Formatter): (r: seq<string>)
    ensures |r| == |vs| && forall i :: 0 <= i < |r| ==> r[i] == ValidationLine(vs[i], fmt)
  {
    seq(|vs|, i requires 0 <= i < |vs| => ValidationLine(vs[i], fmt))
  }

  /** The validation context of the presentation prompt: empty without
      validations, otherwise a header and one line per validation. */
  function ValidationContext(vs: seq<ClaimCheck>, fmt: Formatter): string
  {
    if vs == [] then "" else ValidationHeader + Lines(ValidationLines(vs, fmt))
  }

  /** The loop that builds the validation context. */
  method BuildValidationContext(vs: seq<ClaimCheck>, fmt: Formatter) returns (context: string)
    ensures context == ValidationContext(vs, fmt)
  {
    context := "";
    if vs != [] {
      context := ValidationHeader;
      ghost var lines := ValidationLines(vs, fmt);
      for i := 0 to |vs|
        invariant context == ValidationHeader + Lines(lines[..i])
      {
        LinesStep(ValidationHeader, lines, i);
        context := context + ValidationLine(vs[i], fmt) + "\n";
      }
      assert lines[..|vs|] == lines;
    }
  }

  /** One line per validation, in order, when no claim, verdict or formatted
      confidence spans several lines. */
  lemma ValidationContextLines(vs: seq<ClaimCheck>, fmt: Formatter)
    requires vs != []
    requires forall i :: 0 <= i < |vs| ==> '\n' !in ValidationLine(vs[i], fmt)
    ensures var c := ValidationContext(vs, fmt);
            && |c| >= |ValidationHeader| && c[..|ValidationHeader|] == ValidationHeader
            && SplitOn(c[|ValidationHeader|..], '\n') == ValidationLines(vs, fmt) + [""]
  {
    var c := ValidationContext(vs, fmt);
    assert c[|ValidationHeader|..] == Lines(ValidationLines(vs, fmt));
    LinesSplit(ValidationLines(vs, fmt));
  }

  /** "{idx}. {source_title}" */
  function SourceLine(idx: nat, s: SummaryRecord): string
  {
    NatToString(idx) + ". " + s.sourceTitle
  }

  /** Numbered lines for the first five summaries, counting from 1. */
  function SourceLines(summaries: seq<SummaryRecord>): (r: seq<string>)
    ensures |r| == |Take(summaries, MaxListed)|
    ensures forall i :: 0 <= i < |r| ==> r[i] == SourceLine(i + 1, summaries[i])
  {
    var top := Take(summaries, MaxListed);
    seq(|top|, i requires 0 <= i < |top| => SourceLine(i + 1, top[i]))
  }

  /** The sources context of the presentation prompt. */
  function SourcesContext(summaries: seq<SummaryRecord>): string
  {
    if summaries == [] then "" else SourcesHeader + Lines(SourceLines(summaries))
  }

  /** The loop that builds the sources context. */
  method BuildSourcesContext(summaries: seq<SummaryRecord>) returns (context: string)
    ensures context == SourcesContext(summaries)
  {
    context := "";
    if summaries != [] {
      context := SourcesHeader;
      var top := Take(summaries, MaxListed);
      ghost var lines := SourceLines(summaries);
      for i := 0 to |top|
        invariant context == SourcesHeader + Lines(lines[..i])
      {
        LinesStep(SourcesHeader, lines, i);
        context := context + SourceLine(i + 1, top[i]) + "\n";
      }
      assert lines[..|top|] == lines;
    }
  }

  /** The entry for one source in the basic presentation: its number, its
      title in bold, then at most 200 characters of its summary. */
  function SourceEntry(idx: nat, s: SummaryRecord): string
  {
    EntryTitle(idx, s) + EntryExcerpt(s)
  }

  /** "{idx}. **{source_title}**" and a line break. */
  function EntryTitle(idx: nat, s: SummaryRecord): string
  {
    NatToString(idx) + ". **" + s.sourceTitle + "**\n"
  }

  /** The first 200 characters of the summary, indented, then "..." and a blank line. */
  function EntryExcerpt(s: SummaryRecord): string
  {
    "   " + Take(s.summary, 200) + "...\n\n"
  }

  function SourceEntries(summaries: seq<SummaryRecord>): (r: seq<string>)
    ensures |r| == |Take(summaries, MaxListed)|
    ensures forall i :: 0 <= i < |r| ==> r[i] == SourceEntry(i + 1, summaries[i])
  {
    var top := Take(summaries, MaxListed);
    seq(|top|, i requires 0 <= i < |top| => SourceEntry(i + 1, top[i]))
  }

  /** The opening of the basic presentation: the query as a title, then the summary. */
  function BasicHead(query: string, summary: string): string
  {
    "# Research Results: " + query + "\n\n" + "## Summary\n\n" + summary + "\n\n"
  }

  const SourcesTitle: string := "## Sources\n\n"

  /** The closing of the basic presentation: the confidence and the number of sources. */
  function BasicTail(summaries: seq<SummaryRecord>, confidence: real, fmt: Formatter): string
  {
    "\n**Confidence Level:** " + fmt.percent1(confidence) + "\n" + "**Sources Analyzed:** " + NatToString(|summaries|) + "\n"
  }

  /** `_create_basic_presentation`. */
  function BasicPresentation(query: string, summary: string, summaries: seq<SummaryRecord>, confidence: real, fmt: Formatter): string
  {
    BasicHead(query, summary)
    + (if summaries != [] then SourcesTitle + Concat(SourceEntries(summaries)) else "")
    + BasicTail(summaries, confidence, fmt)
  }

  /** The basic presentation opens with the query and the summary, and closes
      with the confidence and the number of summaries. */
  lemma BasicPresentationFrame(query: string, summary: string, summaries: seq<SummaryRecord>, confidence: real, fmt: Formatter)
    ensures var p := BasicPresentation(query, summary, summaries, confidence, fmt);
            var h := BasicHead(query, summary);
            var t := BasicTail(summaries, confidence, fmt);
            && |p| >= |h| + |t|
            && p[..|h|] == h
            && p[|p| - |t|..] == t
            && (summaries == [] ==> p == h + t)
            && (summaries != [] ==> p == h + SourcesTitle + Concat(SourceEntries(summaries)) + t)
  {
    var h := BasicHead(query, summary);
    var t := BasicTail(summaries, confidence, fmt);
    var m := if summaries != [] then SourcesTitle + Concat(SourceEntries(summaries)) else "";
    var p := BasicPresentation(query, summary, summaries, confidence, fmt);
    assert p == h + m + t;
    assert p[..|h|] == h;
    assert p[|p| - |t|..] == t;
  }

  /** The loop of `_create_basic_presentation`: one entry per listed source,
      appended in order. */
  method AppendSourceEntries(start: string, summaries: seq<SummaryRecord>) returns (presentation: string)
    ensures presentation == start + Concat(SourceEntries(summaries))
  {
    presentation := start;
    var top := Take(summaries, MaxListed);
    var entries := SourceEntries(summaries);
    for i := 0 to |top|
      invariant presentation == start + Concat(entries[..i])
    {
      AppendEntry(start, entries, i, EntryTitle(i + 1, top[i]), EntryExcerpt(top[i]));
      presentation := presentation + EntryTitle(i + 1, top[i]);
      presentation := presentation + EntryExcerpt(top[i]);
    }
    assert entries[..|top|] == entries;
  }

  /** Appending the title and the excerpt of the next entry extends the
      concatenation by that entry. */
  lemma AppendEntry(start: string, entries: seq<string>, i: nat, title: string, excerpt: string)
    requires i < |entries| && entries[i] == title + excerpt
    ensures start + Concat(entries[..i]) + title + excerpt == start + Concat(entries[..i + 1])
  {
    ConcatPrefixStep(entries, i);
  }

  /** `_create_basic_presentation`. */
  method CreateBasicPresentation(query: string, summary: string, summaries: seq<SummaryRecord>, confidence: real, fmt: Formatter)
    returns (presentation: string)
    ensures presentation == BasicPresentation(query, summary, summaries, confidence, fmt)
  {
    presentation := BasicHead(query, summary);
    if summaries != [] {
      presentation := AppendSourceEntries(presentation + SourcesTitle, summaries);
    }
    presentation := presentation + BasicTail(summaries, confidence, fmt);
  }

  /** The metadata footer appended to an LLM-written presentation. */
  function Footer(sources: nat, claims: nat, confidence: real, fmt: Formatter): string
  {
    "\n\n---\n\n**Research Metadata:**\n"
    + "- 📚 Sources analyzed: " + NatToString(sources) + "\n"
    + "- ✅ Claims validated: " + NatToString(claims) + "\n"
    + "- 🎯 Overall confidence: " + fmt.percent1(confidence) + "\n"
  }

  /** The footer for the state being presented. */
  function StateFooter(s: ResearchState, fmt: Formatter): string
  {
    Footer(|s.summaries|, |s.validations|, s.overallConfidence, fmt)
  }

  /** `_create_presentation`: the stripped LLM text followed by the footer,
      or the basic presentation when the call raises. */
  function Presentation(s: ResearchState, reply: Outcome<string>, fmt: Formatter): (p: string)
    ensures reply.Ok? ==>
      var f := StateFooter(s, fmt);
      |p| >= |f| && p[|p| - |f|..] == f && p[..|p| - |f|] == Strip(reply.value)
    ensures reply.Fail? ==>
      var h := BasicHead(s.query, s.combinedSummary);
      && p == BasicPresentation(s.query, s.combinedSummary, s.summaries, s.overallConfidence, fmt)
      && |p| >= |h| && p[..|h|] == h
  {
    match reply
    case Ok(content) =>
      var f := StateFooter(s, fmt);
      var p := Strip(content) + f;
      assert p[|p| - |f|..] == f;
      p
    case Fail(_) =>
      BasicPresentationFrame(s.query, s.combinedSummary, s.summaries, s.overallConfidence, fmt);
      BasicPresentation(s.query, s.combinedSummary, s.summaries, s.overallConfidence, fmt)
  }

  /** `_create_presentation`. The validation and sources contexts it builds
      feed only the prompt. */
  method CreatePresentation(s: ResearchState, reply: Outcome<string>, fmt: Formatter) returns (p: string)
    ensures p == Presentation(s, reply, fmt)
  {
    if reply.Fail? {
      p := CreateBasicPresentation(s.query, s.combinedSummary, s.summaries, s.overallConfidence, fmt);
      return;
    }
    p := Strip(reply.value) + StateFooter(s, fmt);
  }

  /** `combined_summary or "Unable to generate response."` */
  function SummaryOrFallback(s: ResearchState): string
  {
    if s.combinedSummary != "" then s.combinedSummary else NoResponse
  }

  /** What `execute` returns. Only the final response, the error and the
      logs can change. */
  function Present(s: ResearchState, ports: PresenterPorts, fmt: Formatter, now: string): (r: ResearchState)
    ensures LogsOneMore(s, r) && Last(r.agentLogs).agent == Name
    ensures r == s.(finalResponse := r.finalResponse, agentLogs := r.agentLogs, error := r.error)
    ensures ports.fault.None? ==>
      && r.finalResponse == Presentation(s, ports.reply, fmt)
      && Last(r.agentLogs).status == "completed"
      && Last(r.agentLogs).data == PresentationData(|r.finalResponse|)
    ensures ports.fault.None? ==> r.error == s.error
    ensures ports.fault.Some? ==> r.error == ports.fault.value && r.finalResponse == SummaryOrFallback(s)
    ensures ports.fault.Some? ==> r == WithError(s, Name, ports.fault.value, now).(finalResponse := SummaryOrFallback(s))
    ensures r.finalResponse != ""
  {
    if ports.fault.Some? then
      WithError(s, Name, ports.fault.value, now).(finalResponse := SummaryOrFallback(s))
    else
      var p := Presentation(s, ports.reply, fmt);
      s.(finalResponse := p,
         agentLogs := s.agentLogs + [LogEntry(Name, "completed", "Final response prepared", now, PresentationData(|p|))])
  }

  /** `PresenterAgent.execute`. */
  method Execute(s: ResearchState, ports: PresenterPorts, fmt: Formatter, now: string) returns (r: ResearchState)
    ensures r == Present(s, ports, fmt, now)
  {
    if ports.fault.Some? {
      return WithError(s, Name, ports.fault.value, now).(finalResponse := SummaryOrFallback(s));
    }
    var p := CreatePresentation(s, ports.reply, fmt);
    r := s.(finalResponse := p,
            agentLogs := s.agentLogs + [LogEntry(Name, "completed", "Final response prepared", now, PresentationData(|p|))]);
  }

  /** The deltas that carry text, in order. */
  function NonEmpty(xs: seq<string>): (r: seq<string>)
    ensures forall i :: 0 <= i < |r| ==> r[i] != ""
  {
    if xs == [] then []
    else NonEmpty(xs[..|xs| - 1]) + (if Last(xs) != "" then [Last(xs)] else [])
  }

  /** Dropping empty deltas does not change the text they spell. */
  lemma {:induction false} NonEmptyConcat(xs: seq<string>)
    ensures Concat(NonEmpty(xs)) == Concat(xs)
  {
    if xs != [] {
      var init := xs[..|xs| - 1];
      NonEmptyConcat(init);
      ConcatAppend(init, [Last(xs)]);
      assert init + [Last(xs)] == xs;
      var tail := if Last(xs) != "" then [Last(xs)] else [];
      ConcatAppend(NonEmpty(init), tail);
    }
  }

  /** The chunk yielded when the stream raises. */
  function ErrorChunk(msg: string): string
  {
    "\n\nError creating presentation: " + msg + "\n\n"
  }

  /** What `stream_presentation` yields: the deltas that carry text, then
      the footer; or, when the stream raises, the deltas received so far,
      an error chunk and the synthesis (or a fixed sentence). */
  function StreamChunks(s: ResearchState, stream: CompletionStream, fmt: Formatter): seq<string>
  {
    NonEmpty(stream.deltas)
    + (if stream.failure.None? then [StateFooter(s, fmt)]
       else [ErrorChunk(stream.failure.value), SummaryOrFallback(s)])
  }

  /** `stream_presentation`. */
  method StreamPresentation(s: ResearchState, stream: CompletionStream, fmt: Formatter) returns (chunks: seq<string>)
    ensures chunks == StreamChunks(s, stream, fmt)
  {
    chunks := [];
    var deltas := stream.deltas;
    for i := 0 to |deltas|
      invariant chunks == NonEmpty(deltas[..i])
    {
      assert deltas[..i + 1][..i] == deltas[..i];
      if deltas[i] != "" {
        chunks := chunks + [deltas[i]];
      }
    }
    assert deltas[..|deltas|] == deltas;
    if stream.failure.Some? {
      chunks := chunks + [ErrorChunk(stream.failure.value), SummaryOrFallback(s)];
    } else {
      chunks := chunks + [StateFooter(s, fmt)];
    }
  }

  /** A stream that completes spells the same text as the non-streaming
      presentation of the same (already stripped) completion. */
  lemma StreamMatchesPresentation(s: ResearchState, stream: CompletionStream, fmt: Formatter)
    requires stream.failure.None?
    requires IsStripped(Concat(stream.deltas))
    ensures Concat(StreamChunks(s, stream, fmt)) == Presentation(s, Ok(Concat(stream.deltas)), fmt)
  {
    NonEmptyConcat(stream.deltas);
    ConcatAppend(NonEmpty(stream.deltas), [StateFooter(s, fmt)]);
    assert Concat([StateFooter(s, fmt)]) == StateFooter(s, fmt);
    StripStripped(Concat(stream.deltas));
  }
}
