/** The Summarizer agent (backend/agents/summarizer.py): it summarises each
    of the first eight research results that has enough content, then
    combines those summaries into one synthesis. */
module Summarizer {
  import opened Common
  import opened Text
  import opened WebSearch
  import opened Summarization
  import opened State

  const Name: string := "Summarizer"
  const MaxSources: nat := 8
  const MinContent: nat := 100
  const SummaryWords: nat := 150
  const NoSummary: string := "Unable to generate summary from available sources."
  const NothingToSummarize: string := "No research results to summarize"

  /** What the outside world answers during one run of the agent: the LLM
      call made while summarising the `i`-th result, the LLM call that
      combines the summaries, and an exception that escapes the agent's
      body, if one does. */
  datatype SummarizerPorts = SummarizerPorts(items: nat -> Outcome<string>, combine: Outcome<string>, fault: Option<string>)

  /** A result is summarised only when its content has at least 100 characters. */
  predicate Kept(r: SearchResult)
  {
    |r.content| >= MinContent
  }

  /** The record kept for a result, given the reply of its LLM call. */
  function RecordOf(r: SearchResult, reply: Outcome<string>): SummaryRecord
  {
    SummaryRecord(r.title, r.url, SummarizeText(r.content, SummaryWords, reply), r.score)
  }

  /** The positions among the first `n` results that are summarised. */
  function KeptIndices(results: seq<SearchResult>, n: nat): (ks: seq<nat>)
    requires n <= |results|
    ensures |ks| <= n && forall j :: 0 <= j < |ks| ==> ks[j] < n
  {
    if n == 0 then []
    else KeptIndices(results, n - 1) + (if Kept(results[n - 1]) then [n - 1] else [])
  }

  /** `ks` lists, each once and in increasing order, exactly the positions
      below `n` whose result is long enough. */
  predicate ExactlyKept(results: seq<SearchResult>, n: nat, ks: seq<nat>)
    requires n <= |results|
  {
    && (forall j :: 0 <= j < |ks| ==> ks[j] < n && Kept(results[ks[j]]))
    && (forall j, k :: 0 <= j < k < |ks| ==> ks[j] < ks[k])
    && (forall i :: 0 <= i < n && Kept(results[i]) ==> i in ks)
  }

  /** The kept positions are exactly those whose content is long enough,
      each once, in increasing order. */
  lemma {:induction false} KeptIndicesExact(results: seq<SearchResult>, n: nat)
    requires n <= |results|
    ensures ExactlyKept(results, n, KeptIndices(results, n))
  {
    if n > 0 {
      KeptIndicesExact(results, n - 1);
      ExactlyKeptStep(results, n, KeptIndices(results, n - 1), KeptIndices(results, n));
    }
  }

  /** Looking at one more result keeps the list exact. */
  lemma ExactlyKeptStep(results: seq<SearchResult>, n: nat, ks: seq<nat>, next: seq<nat>)
    requires 0 < n <= |results| && ExactlyKept(results, n - 1, ks)
    requires next == ks + (if Kept(results[n - 1]) then [n - 1] else [])
    ensures ExactlyKept(results, n, next)
  {
    if Kept(results[n - 1]) {
      assert forall j :: 0 <= j < |ks| ==> next[j] == ks[j];
      assert next[|ks|] == n - 1;
      forall j, k | 0 <= j < k < |next|
        ensures next[j] < next[k]
      {
        assert next[j] == ks[j] && ks[j] < n - 1;
      }
      forall i | 0 <= i < n && Kept(results[i])
        ensures i in next
      {
        if i < n - 1 {
          var j :| 0 <= j < |ks| && ks[j] == i;
          assert next[j] == i;
        } else {
          assert next[|ks|] == i;
        }
      }
    } else {
      assert next == ks;
    }
  }

  /** `f` applied to each kept position among the first `n` results, in order. */
  function KeptMap<T>(results: seq<SearchResult>, f: nat --> T, n: nat): seq<T>
    requires n <= |results| && forall i :: 0 <= i < n ==> f.requires(i)
  {
    if n == 0 then []
    else KeptMap(results, f, n - 1) + (if Kept(results[n - 1]) then [f(n - 1)] else [])
  }

  /** The `j`-th element of a kept map is `f` at the `j`-th kept position. */
  lemma {:induction false} KeptMapAt<T>(results: seq<SearchResult>, f: nat --> T, n: nat)
    requires n <= |results| && forall i :: 0 <= i < n ==> f.requires(i)
    ensures var ks := KeptIndices(results, n);
            && |KeptMap(results, f, n)| == |ks|
            && forall j :: 0 <= j < |ks| ==> KeptMap(results, f, n)[j] == f(ks[j])
  {
    if n > 0 {
      var ks, ms := KeptIndices(results, n - 1), KeptMap(results, f, n - 1);
      KeptMapAt(results, f, n - 1);
      if Kept(results[n - 1]) {
        var ks', ms' := ks + [n - 1], ms + [f(n - 1)];
        assert KeptIndices(results, n) == ks' && KeptMap(results, f, n) == ms';
        forall j | 0 <= j < |ks'|
          ensures ms'[j] == f(ks'[j])
        {
          if j < |ks| {
            assert ks'[j] == ks[j] && ms'[j] == ms[j];
          }
        }
      } else {
        assert KeptIndices(results, n) == ks && KeptMap(results, f, n) == ms;
      }
    }
  }

  /** The record for the `i`-th result, made from the reply to its LLM call. */
  function RecordAt(results: seq<SearchResult>, items: nat -> Outcome<string>): nat --> SummaryRecord
  {
    (i: nat) requires i < |results| => RecordOf(results[i], items(i))
  }

  /** The records the loop has built after the first `n` results. */
  function RecordsOf(results: seq<SearchResult>, items: nat -> Outcome<string>, n: nat): seq<SummaryRecord>
    requires n <= |results|
  {
    KeptMap(results, RecordAt(results, items), n)
  }

  /** The records are those of the kept results, one each, in order. */
  lemma RecordsAtKept(results: seq<SearchResult>, items: nat -> Outcome<string>, n: nat)
    requires n <= |results|
    ensures var ks := KeptIndices(results, n);
            && |RecordsOf(results, items, n)| == |ks|
            && forall j :: 0 <= j < |ks| ==> RecordsOf(results, items, n)[j] == RecordOf(results[ks[j]], items(ks[j]))
  {
    KeptMapAt(results, RecordAt(results, items), n);
  }

  /** One more result adds its record when it is kept. */
  lemma RecordsOfStep(results: seq<SearchResult>, items: nat -> Outcome<string>, n: nat)
    requires n < |results|
    ensures RecordsOf(results, items, n + 1)
         == RecordsOf(results, items, n) + (if Kept(results[n]) then [RecordOf(results[n], items(n))] else [])
  {
  }

  /** The per-source summaries `execute` keeps: from the first eight results. */
  function Records(results: seq<SearchResult>, items: nat -> Outcome<string>): seq<SummaryRecord>
  {
    var top := Take(results, MaxSources);
    RecordsOf(top, items, |top|)
  }

  /** At most eight summaries, and at most one per result. */
  lemma RecordsBound(results: seq<SearchResult>, items: nat -> Outcome<string>)
    ensures |Records(results, items)| <= MaxSources && |Records(results, items)| <= |results|
  {
    var top := Take(results, MaxSources);
    RecordsAtKept(top, items, |top|);
  }

  /** The summary texts handed to `combine_summaries`. */
  function SummaryTexts(records: seq<SummaryRecord>): (r: seq<string>)
    ensures |r| == |records| && forall i :: 0 <= i < |r| ==> r[i] == records[i].summary
  {
    seq(|records|, i requires 0 <= i < |records| => records[i].summary)
  }

  /** The synthesis: the combined summaries, or a fixed sentence when no
      source was summarised. */
  function Synthesis(records: seq<SummaryRecord>, combine: Outcome<string>): string
  {
    if records != [] then CombineSummaries(SummaryTexts(records), combine) else NoSummary
  }

  /** What `execute` returns. Only the summaries, the synthesis, the error
      and the logs can change. */
  function Summarize(s: ResearchState, ports: SummarizerPorts, now: string): (r: ResearchState)
    ensures LogsOneMore(s, r) && Last(r.agentLogs).agent == Name
    ensures r == s.(summaries := r.summaries, combinedSummary := r.combinedSummary,
                    agentLogs := r.agentLogs, error := r.error)
    ensures ports.fault.None? && s.researchResults == [] ==>
      r.summaries == [] && r.combinedSummary == s.combinedSummary && Last(r.agentLogs).status == "skipped"
    ensures ports.fault.None? && s.researchResults != [] ==>
      && r.summaries == Records(s.researchResults, ports.items)
      && (r.summaries == [] ==> r.combinedSummary == NoSummary)
      && (r.summaries != [] ==> r.combinedSummary == CombineSummaries(SummaryTexts(r.summaries), ports.combine))
      && Last(r.agentLogs).status == "completed"
      && Last(r.agentLogs).data == SummaryData(|r.summaries|, |r.combinedSummary|)
    ensures ports.fault.None? ==> r.error == s.error
    ensures ports.fault.Some? ==> r.error == ports.fault.value && r.summaries == s.summaries
    ensures ports.fault.Some? ==> r == WithError(s, Name, ports.fault.value, now)
  {
    if ports.fault.Some? then WithError(s, Name, ports.fault.value, now)
    else if s.researchResults == [] then
      s.(summaries := [], agentLogs := s.agentLogs + [LogEntry(Name, "skipped", NothingToSummarize, now, NoData)])
    else
      var records := Records(s.researchResults, ports.items);
      var combined := Synthesis(records, ports.combine);
      s.(summaries := records, combinedSummary := combined,
         agentLogs := s.agentLogs + [LogEntry(Name, "completed",
           "Created " + NatToString(|records|) + " summaries and synthesis", now,
           SummaryData(|records|, |combined|))])
  }

  /** The loop over the first eight results: short content is skipped, every
      other result is summarised. */
  method SummarizeSources(results: seq<SearchResult>, items: nat -> Outcome<string>) returns (summaries: seq<SummaryRecord>)
    ensures summaries == Records(results, items)
  {
    var top := Take(results, MaxSources);
    summaries := [];
    for idx := 0 to |top|
      invariant summaries == RecordsOf(top, items, idx)
    {
      var result := top[idx];
      RecordsOfStep(top, items, idx);
      if |result.content| < MinContent {
        continue;
      }
      var summary := SummarizeText(result.content, SummaryWords, items(idx));
      summaries := summaries + [SummaryRecord(result.title, result.url, summary, result.score)];
    }
  }

  /** `SummarizerAgent.execute`. */
  method Execute(s: ResearchState, ports: SummarizerPorts, now: string) returns (r: ResearchState)
    ensures r == Summarize(s, ports, now)
  {
    if ports.fault.Some? {
      return WithError(s, Name, ports.fault.value, now);
    }
    if s.researchResults == [] {
      return s.(summaries := [], agentLogs := s.agentLogs + [LogEntry(Name, "skipped", NothingToSummarize, now, NoData)]);
    }
    var summaries := SummarizeSources(s.researchResults, ports.items);
    var combined;
    if summaries != [] {
      combined := CombineSummaries(SummaryTexts(summaries), ports.combine);
    } else {
      combined := NoSummary;
    }
    r := s.(summaries := summaries, combinedSummary := combined,
            agentLogs := s.agentLogs + [LogEntry(Name, "completed",
              "Created " + NatToString(|summaries|) + " summaries and synthesis", now,
              SummaryData(|summaries|, |combined|))]);
  }
}
