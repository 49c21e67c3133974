/** The shared workflow state (`ResearchState` in
    backend/workflows/research_graph.py) and the pieces every agent writes
    into it: summary records, log entries and validation statistics. */
module State {
  import opened Common
  import opened WebSearch
  import opened Validation

  /** One per-source summary the Summarizer keeps. */
  datatype SummaryRecord = SummaryRecord(sourceTitle: string, sourceUrl: string, summary: string, originalScore: real)

  /** The `data` payload of a log entry; entries written on error or skip paths carry none. */
  datatype LogData =
    | NoData
    | ResearchData(sourcesCount: nat, topSource: Option<string>)
    | SummaryData(summaryCount: nat, synthesisLength: nat)
    | ValidationData(claimsValidated: nat, overallConfidence: real, supportedClaims: nat, contradictedClaims: nat)
    | PresentationData(responseLength: nat)

  /** One entry of `agent_logs`. */
  datatype LogEntry = LogEntry(agent: string, status: string, message: string, timestamp: string, data: LogData)

  /** `validation_stats`: the empty dictionary until the Validator fills it. */
  datatype ValidationStats = NoStats | Stats(totalClaims: nat, supported: nat, contradicted: nat, confidence: real)

  /** The twelve keys of the workflow state. */
  datatype ResearchState = ResearchState(
    query: string,
    researchResults: seq<SearchResult>,
    summaries: seq<SummaryRecord>,
    combinedSummary: string,
    validations: seq<ClaimCheck>,
    overallConfidence: real,
    validationStats: ValidationStats,
    finalResponse: string,
    memoryContext: string,
    agentLogs: seq<LogEntry>,
    error: string,
    currentStage: string)

  /** The state `run` and `stream_run` start from. */
  function Initial(query: string): ResearchState
  {
    ResearchState(query, [], [], "", [], 0.0, NoStats, "", "", [], "", "Initializing...")
  }

  /** The log entry an agent appends when its body raises. */
  function ErrorLog(agent: string, msg: string, now: string): LogEntry
  {
    LogEntry(agent, "error", "Error: " + msg, now, NoData)
  }

  /** The part of every agent's `except` branch they share: the input state
      with `error` set and an error entry appended to the logs. */
  function WithError(s: ResearchState, agent: string, msg: string, now: string): ResearchState
  {
    s.(error := msg, agentLogs := s.agentLogs + [ErrorLog(agent, msg, now)])
  }

  /** `r` is `s` with exactly one more log entry at the end. */
  predicate LogsOneMore(s: ResearchState, r: ResearchState)
  {
    |r.agentLogs| == |s.agentLogs| + 1 && r.agentLogs[..|s.agentLogs|] == s.agentLogs
  }
}
