/** The web-search wrapper (backend/utils/web_search.py): it normalises the
    provider's results, puts the provider's answer first when there is one,
    and falls back to one mock result when there is no client or the call raises. */
module WebSearch {
  import opened Common
  import opened Text

  /** A result as the provider returns it: any of its keys may be missing. */
  datatype RawResult = RawResult(title: Option<string>, url: Option<string>, content: Option<string>, score: Option<real>)

  /** A normalised result, holding the four keys the rest of the system reads. */
  datatype SearchResult = SearchResult(title: string, url: string, content: string, score: real)

  /** The provider's reply: its `results` list and its `answer`, each possibly missing. */
  datatype ProviderReply = ProviderReply(results: Option<seq<RawResult>>, answer: Option<string>)

  /** The search client: absent (no API key configured), or present and
      answering the search call with a reply or an exception. */
  datatype SearchClient = NoClient | Client(reply: Outcome<ProviderReply>)

  /** `d.get(key, "")`. */
  function OrEmpty(o: Option<string>): string
  {
    if o.Some? then o.value else ""
  }

  /** `d.get("score", 0.0)`. */
  function OrZero(o: Option<real>): real
  {
    if o.Some? then o.value else 0.0
  }

  /** One provider result with missing keys defaulted to "" and 0.0. */
  function Normalize(r: RawResult): SearchResult
  {
    SearchResult(OrEmpty(r.title), OrEmpty(r.url), OrEmpty(r.content), OrZero(r.score))
  }

  /** A normalised result seen as a dictionary: every key present. */
  function Lift(r: SearchResult): RawResult
  {
    RawResult(Some(r.title), Some(r.url), Some(r.content), Some(r.score))
  }

  /** Normalising a result that has every key changes nothing. */
  lemma NormalizeLift(r: SearchResult)
    ensures Normalize(Lift(r)) == r
  {
  }

  /** `response.get("results", [])`. */
  function ProviderResults(reply: ProviderReply): seq<RawResult>
  {
    if reply.results.Some? then reply.results.value else []
  }

  /** `response.get("answer")` is truthy: present and non-empty. */
  predicate HasAnswer(reply: ProviderReply)
  {
    reply.answer.Some? && reply.answer.value != ""
  }

  /** The result that carries the provider's own answer. */
  function AnswerResult(answer: string): SearchResult
  {
    SearchResult("AI Summary", "tavily://answer", answer, 1.0)
  }

  /** `_get_mock_results`: a single result whose title ends with the query. */
  function MockResults(query: string): (r: seq<SearchResult>)
    ensures |r| == 1
    ensures r[0].url == "https://example.com" && r[0].score == 0.8
    ensures |r[0].title| >= |query| && r[0].title[|r[0].title| - |query|..] == query
  {
    [SearchResult(
      "Mock Result for: " + query,
      "https://example.com",
      "This is a mock search result for the query: " + query + ". "
        + "To get real results, please configure TAVILY_API_KEY in your environment.",
      0.8)]
  }

  /** What `WebSearcher.search` returns: with no client, or when the
      provider call raises, the mock result; otherwise the provider's results
      normalised in order, after the answer result when there is an answer. */
  function Found(query: string, client: SearchClient): (results: seq<SearchResult>)
    ensures client.NoClient? || client.reply.Fail? ==> results == MockResults(query)
    ensures client.Client? && client.reply.Ok? ==>
      var reply := client.reply.value;
      var raw := ProviderResults(reply);
      var shift := if HasAnswer(reply) then 1 else 0;
      && |results| == |raw| + shift
      && (HasAnswer(reply) ==> results[0] == AnswerResult(reply.answer.value))
      && forall i :: 0 <= i < |raw| ==> results[i + shift] == Normalize(raw[i])
  {
    if client.NoClient? || client.reply.Fail? then MockResults(query)
    else
      var reply := client.reply.value;
      var raw := ProviderResults(reply);
      var head := if HasAnswer(reply) then [AnswerResult(reply.answer.value)] else [];
      var normalized := seq(|raw|, i requires 0 <= i < |raw| => Normalize(raw[i]));
      assert forall i :: 0 <= i < |raw| ==> (head + normalized)[i + |head|] == normalized[i];
      head + normalized
  }

  /** The search comes back empty only when a provider answered with neither
      results nor an answer: the fallbacks always give one result. */
  lemma FoundEmpty(query: string, client: SearchClient)
    ensures Found(query, client) == [] <==>
      client.Client? && client.reply.Ok? && ProviderResults(client.reply.value) == [] && !HasAnswer(client.reply.value)
  {
  }

  /** `WebSearcher.search`: never raises; the loop normalises the provider's
      results one by one. */
  method Search(query: string, client: SearchClient) returns (results: seq<SearchResult>)
    ensures results == Found(query, client)
  {
    if client.NoClient? {
      return MockResults(query);
    }
    if client.reply.Fail? {
      return MockResults(query);
    }
    var reply := client.reply.value;
    var raw := ProviderResults(reply);
    results := [];
    for i := 0 to |raw|
      invariant |results| == i
      invariant forall k :: 0 <= k < i ==> results[k] == Normalize(raw[k])
    {
      results := results + [Normalize(raw[i])];
    }
    if HasAnswer(reply) {
      results := [AnswerResult(reply.answer.value)] + results;
    }
  }
}
