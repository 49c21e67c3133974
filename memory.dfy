/** The vector-memory port (backend/utils/weaviate_client.py). Only its local
    guards are modelled: without a client, a similarity search returns no
    snippets, and a failing search is logged and also returns none. */
module Memory {
  import opened Common

  /** One stored research snippet, as `search_similar` reports it. */
  datatype Snippet = Snippet(content: string, source: string, validationScore: real, distance: real)

  /** The arguments handed to `store_snippet`. */
  datatype StoreRequest = StoreRequest(query: string, content: string, source: string, validationScore: real, timestamp: string)

  /** The Weaviate client: not connected, or connected and answering a
      near-text query with snippets or an exception. */
  datatype MemoryPort = Disconnected | Connected(similar: Outcome<seq<Snippet>>)

  /** `search_similar`: never raises; no client or a failed query gives `[]`. */
  function SearchSimilar(port: MemoryPort): (r: seq<Snippet>)
    ensures r != [] ==> port.Connected? && port.similar == Ok(r)
    ensures port.Connected? && port.similar.Ok? ==> r == port.similar.value
  {
    match port
    case Disconnected => []
    case Connected(Ok(snippets)) => snippets
    case Connected(Fail(_)) => []
  }
}
