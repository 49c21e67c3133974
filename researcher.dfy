/** The Researcher agent (backend/agents/researcher.py): it looks up similar
    past research in memory, searches the web for the query, and records the
    results, the memory context and one log entry in the state. */
module Researcher {
  import opened Common
  import opened Text
  import opened Memory
  import opened WebSearch
  import opened State

  const Name: string := "Researcher"
  const MemoryHeader: string := "\n\nRelevant past research:\n"
  const NoResults: string := "No search results found"

  /** What the outside world answers during one run of the agent: the
      memory store, the search client, and an exception that escapes the
      agent's body, if one does. */
  datatype ResearcherPorts = ResearcherPorts(memory: MemoryPort, client: SearchClient, fault: Option<string>)

  /** "- " then at most the first 100 characters of a snippet, then "...". */
  function SnippetLine(s: Snippet): string
  {
    "- " + Take(s.content, 100) + "..."
  }

  /** One line per snippet, in order. */
  function SnippetLines(snippets: seq<Snippet>): (r: seq<string>)
    ensures |r| == |snippets| && forall i :: 0 <= i < |r| ==> r[i] == SnippetLine(snippets[i])
  {
    seq(|snippets|, i requires 0 <= i < |snippets| => SnippetLine(snippets[i]))
  }

  /** The memory context: empty without snippets, otherwise a header and
      one line per snippet. */
  function MemoryContext(snippets: seq<Snippet>): string
  {
    if snippets == [] then "" else MemoryHeader + JoinWith("\n", SnippetLines(snippets))
  }

  /** A snippet line holds no line break when the snippet's content holds none. */
  lemma SnippetLineSingle(s: Snippet)
    requires '\n' !in s.content
    ensures '\n' !in SnippetLine(s)
  {
    var t := Take(s.content, 100);
    assert forall i :: 0 <= i < |t| ==> t[i] == s.content[i];
    assert '\n' !in t;
  }

  /** The memory context is the header followed by exactly one line per
      snippet, when no snippet spans several lines. */
  lemma MemoryContextLines(snippets: seq<Snippet>)
    requires snippets != []
    requires forall i :: 0 <= i < |snippets| ==> '\n' !in snippets[i].content
    ensures var c := MemoryContext(snippets);
            && |c| >= |MemoryHeader| && c[..|MemoryHeader|] == MemoryHeader
            && SplitOn(c[|MemoryHeader|..], '\n') == SnippetLines(snippets)
  {
    var lines := SnippetLines(snippets);
    forall k | 0 <= k < |lines|
      ensures '\n' !in lines[k]
    {
      SnippetLineSingle(snippets[k]);
    }
    SplitJoin(lines, '\n');
    var c := MemoryContext(snippets);
    assert c[|MemoryHeader|..] == JoinWith("\n", lines);
  }

  /** What `execute` returns. On success every other key keeps its value. */
  function Research(s: ResearchState, ports: ResearcherPorts, now: string): (r: ResearchState)
    ensures LogsOneMore(s, r) && Last(r.agentLogs).agent == Name
    ensures r == s.(researchResults := r.researchResults, memoryContext := r.memoryContext,
                    agentLogs := r.agentLogs, error := r.error)
    ensures Last(r.agentLogs).status == "completed" <==> ports.fault.None? && Found(s.query, ports.client) != []
    ensures Last(r.agentLogs).status == "completed" ==>
      && r.researchResults == Found(s.query, ports.client)
      && r.memoryContext == MemoryContext(SearchSimilar(ports.memory))
      && r.error == s.error
      && Last(r.agentLogs).data == ResearchData(|r.researchResults|, Some(r.researchResults[0].title))
    ensures ports.fault.None? && Found(s.query, ports.client) == [] ==>
      && r.researchResults == [] && r.error == NoResults && r.memoryContext == s.memoryContext
      && Last(r.agentLogs).message == NoResults
    ensures ports.fault.Some? ==> r.error == ports.fault.value && r.researchResults == s.researchResults
    ensures ports.fault.Some? ==> r == WithError(s, Name, ports.fault.value, now)
  {
    if ports.fault.Some? then WithError(s, Name, ports.fault.value, now)
    else
      var context := MemoryContext(SearchSimilar(ports.memory));
      var found := Found(s.query, ports.client);
      if found == [] then
        s.(researchResults := [], error := NoResults,
           agentLogs := s.agentLogs + [LogEntry(Name, "error", NoResults, now, NoData)])
      else
        s.(researchResults := found, memoryContext := context,
           agentLogs := s.agentLogs + [LogEntry(Name, "completed",
             "Found " + NatToString(|found|) + " relevant sources", now,
             ResearchData(|found|, Some(found[0].title)))])
  }

  /** The "no results" path is taken only when the provider itself answered
      with neither results nor an answer: without a client, or when the
      search raises, the mock result keeps the workflow going. */
  lemma NoResultsOnlyFromProvider(s: ResearchState, ports: ResearcherPorts, now: string)
    requires ports.fault.None?
    ensures Research(s, ports, now).error == NoResults && Last(Research(s, ports, now).agentLogs).status == "error"
        <==> ports.client.Client? && ports.client.reply.Ok?
             && ProviderResults(ports.client.reply.value) == [] && !HasAnswer(ports.client.reply.value)
  {
    FoundEmpty(s.query, ports.client);
  }

  /** The loop that rebuilds each result from its four keys: on results
      that carry every key, it gives them back unchanged and in order. */
  method ProcessResults(results: seq<SearchResult>) returns (processed: seq<SearchResult>)
    ensures processed == results
  {
    processed := [];
    for i := 0 to |results|
      invariant processed == results[..i]
    {
      NormalizeLift(results[i]);
      processed := processed + [Normalize(Lift(results[i]))];
      assert results[..i + 1] == results[..i] + [results[i]];
    }
    assert results[..|results|] == results;
  }

  /** `ResearcherAgent.execute`. */
  method Execute(s: ResearchState, ports: ResearcherPorts, now: string) returns (r: ResearchState)
    ensures r == Research(s, ports, now)
  {
    if ports.fault.Some? {
      return WithError(s, Name, ports.fault.value, now);
    }
    var snippets := SearchSimilar(ports.memory);
    var context := MemoryContext(snippets);
    var found := Search(s.query, ports.client);
    if found == [] {
      return s.(researchResults := [], error := NoResults,
                agentLogs := s.agentLogs + [LogEntry(Name, "error", NoResults, now, NoData)]);
    }
    var processed := ProcessResults(found);
    r := s.(researchResults := processed, memoryContext := context,
            agentLogs := s.agentLogs + [LogEntry(Name, "completed",
              "Found " + NatToString(|processed|) + " relevant sources", now,
              ResearchData(|processed|, Some(processed[0].title)))]);
  }
}
