/** The research workflow (backend/workflows/research_graph.py): a fixed
    chain researcher -> summarizer -> validator -> presenter over one shared
    state, run either to its final state or as a stream of per-node updates. */
module ResearchGraph {
  import opened Common
  import opened Text
  import opened WebSearch
  import opened State
  import Researcher
  import Summarizer
  import Validator
  import Presenter

  /** The node names, in the order the edges chain them. */
  const NodeNames: seq<string> := ["researcher", "summarizer", "validator", "presenter"]

  /** The stage each node writes into `current_stage` before its agent runs. */
  const StageMessages: seq<string> :=
    ["Researching web sources...", "Summarizing findings...", "Validating facts...", "Preparing final response..."]

  const NodeCount: nat := 4

  /** An exception raised by the graph runtime itself, once `after` nodes
      have finished (all four when `after` is 4 or more). */
  datatype GraphFault = NoFault | FaultAfter(after: nat, msg: string)

  /** Everything the outside world answers during one run of the workflow:
      the answers each agent gets, the float parser and formatter the
      Validator and Presenter use, the time each node reads, and a fault of
      the graph runtime. */
  datatype WorkflowPorts = WorkflowPorts(
    researcher: Researcher.ResearcherPorts,
    summarizer: Summarizer.SummarizerPorts,
    validator: Validator.ValidatorPorts,
    presenter: Presenter.PresenterPorts,
    parseFloat: string -> Option<real>,
    fmt: Formatter,
    clock: nat -> string,
    fault: GraphFault)

  /** One item of `stream_run`: the node that finished and the state it returned. */
  datatype Update = Update(node: string, state: ResearchState)

  /** Node `k`: set the stage, then run the agent. */
  function Step(k: nat, s: ResearchState, ports: WorkflowPorts): ResearchState
    requires k < NodeCount
  {
    var t := s.(currentStage := StageMessages[k]);
    if k == 0 then Researcher.Research(t, ports.researcher, ports.clock(0))
    else if k == 1 then Summarizer.Summarize(t, ports.summarizer, ports.clock(1))
    else if k == 2 then Validator.Validate(t, ports.validator, ports.parseFloat, ports.fmt, ports.clock(2))
    else Presenter.Present(t, ports.presenter, ports.fmt, ports.clock(3))
  }

  /** The state after the first `n` nodes have run on the initial state. */
  function Through(query: string, ports: WorkflowPorts, n: nat): ResearchState
    requires n <= NodeCount
  {
    if n == 0 then Initial(query) else Step(n - 1, Through(query, ports, n - 1), ports)
  }

  /** The state `run` and `stream_run` report when the graph raises: the
      initial state with the error and an error response. */
  function Fallback(query: string, msg: string): ResearchState
  {
    Initial(query).(error := msg, finalResponse := "Error during research: " + msg)
  }

  /** How many nodes finish before the graph stops. */
  function Completed(fault: GraphFault): nat
  {
    if fault.FaultAfter? && fault.after < NodeCount then fault.after else NodeCount
  }

  /** What `run` returns. */
  function Run(query: string, ports: WorkflowPorts): ResearchState
  {
    match ports.fault
    case NoFault => Through(query, ports, NodeCount)
    case FaultAfter(_, msg) => Fallback(query, msg)
  }

  /** The updates of the first `n` nodes: each node's name with the state it returned. */
  function Progress(query: string, ports: WorkflowPorts, n: nat): (r: seq<Update>)
    requires n <= NodeCount
    ensures |r| == n && forall i :: 0 <= i < n ==> r[i] == Update(NodeNames[i], Through(query, ports, i + 1))
  {
    if n == 0 then [] else Progress(query, ports, n - 1) + [Update(NodeNames[n - 1], Through(query, ports, n))]
  }

  /** What `stream_run` yields: one update per finished node, then, when
      the graph raises, one "error" update carrying the fallback state. */
  function StreamUpdates(query: string, ports: WorkflowPorts): (r: seq<Update>)
    ensures |r| == Completed(ports.fault) + (if ports.fault.FaultAfter? then 1 else 0)
  {
    Progress(query, ports, Completed(ports.fault))
    + (if ports.fault.FaultAfter? then [Update("error", Fallback(query, ports.fault.msg))] else [])
  }

  /** `stream_run` ends with the state `run` returns: the last node's state,
      or the fallback under an "error" update. */
  lemma StreamEndsWithRun(query: string, ports: WorkflowPorts)
    ensures var u := StreamUpdates(query, ports);
            && u != []
            && Last(u).state == Run(query, ports)
            && Last(u).node == (if ports.fault.NoFault? then "presenter" else "error")
  {
  }

  /** Every node keeps the query, leaves its own stage message in the
      state, and appends exactly one log entry, written by its agent. */
  lemma StepEffect(k: nat, s: ResearchState, ports: WorkflowPorts)
    requires k < NodeCount
    ensures var r := Step(k, s, ports);
            && r.query == s.query
            && r.currentStage == StageMessages[k]
            && LogsOneMore(s, r)
            && Last(r.agentLogs).agent == [Researcher.Name, Summarizer.Name, Validator.Name, Presenter.Name][k]
  {
  }

  /** After `n` nodes the state holds the query, the `n`-th stage message
      and one log entry per node, written by the agents in chain order. */
  lemma {:induction false} ThroughLogs(query: string, ports: WorkflowPorts, n: nat)
    requires n <= NodeCount
    ensures var s := Through(query, ports, n);
            && s.query == query
            && (n > 0 ==> s.currentStage == StageMessages[n - 1])
            && |s.agentLogs| == n
            && forall i :: 0 <= i < n ==>
                 s.agentLogs[i].agent == [Researcher.Name, Summarizer.Name, Validator.Name, Presenter.Name][i]
  {
    if n > 0 {
      ThroughLogs(query, ports, n - 1);
      StepEffect(n - 1, Through(query, ports, n - 1), ports);
    }
  }

  /** A run always produces a non-empty final response: the presentation,
      the synthesis or fallback text, or the error response. */
  lemma RunResponds(query: string, ports: WorkflowPorts)
    ensures Run(query, ports).finalResponse != ""
    ensures Run(query, ports).query == query
  {
    ThroughLogs(query, ports, NodeCount);
  }

  /** The ports of a run in which no agent and not the graph raises. */
  predicate NothingRaises(ports: WorkflowPorts)
  {
    && ports.fault.NoFault?
    && ports.researcher.fault.None? && ports.summarizer.fault.None?
    && ports.validator.fault.None? && ports.presenter.fault.None?
  }

  /** After an empty search, the researcher leaves no results and an error. */
  lemma EmptySearchResearch(query: string, ports: WorkflowPorts)
    requires NothingRaises(ports) && Found(query, ports.researcher.client) == []
    ensures var s := Through(query, ports, 1);
            s.researchResults == [] && s.summaries == [] && s.combinedSummary == ""
            && s.validations == [] && s.validationStats == NoStats && s.error == Researcher.NoResults
  {
    assert Through(query, ports, 0) == Initial(query);
  }

  /** With no results, the summarizer and the validator both skip. */
  lemma EmptySearchSkips(query: string, ports: WorkflowPorts)
    requires NothingRaises(ports) && Found(query, ports.researcher.client) == []
    ensures var s := Through(query, ports, 3);
            s.researchResults == [] && s.summaries == [] && s.combinedSummary == ""
            && s.validations == [] && s.overallConfidence == 0.0 && s.validationStats == NoStats
            && s.error == Researcher.NoResults
  {
    EmptySearchResearch(query, ports);
    var s1 := Through(query, ports, 1);
    var s2 := Through(query, ports, 2);
    assert s2 == Summarizer.Summarize(s1.(currentStage := StageMessages[1]), ports.summarizer, ports.clock(1));
    assert s2.summaries == [] && s2.combinedSummary == "" && s2.error == Researcher.NoResults;
    assert Through(query, ports, 3) == Validator.Validate(s2.(currentStage := StageMessages[2]), ports.validator, ports.parseFloat, ports.fmt, ports.clock(2));
  }

  /** When the web search comes back empty and nothing raises, the workflow
      degrades instead of failing: nothing is summarised or validated, the
      confidence stays 0.0, the error says no results were found, and the
      final response is the presentation of that empty state. */
  lemma EmptySearchDegrades(query: string, ports: WorkflowPorts)
    requires NothingRaises(ports) && Found(query, ports.researcher.client) == []
    ensures var r := Run(query, ports);
            && r.researchResults == [] && r.summaries == [] && r.combinedSummary == ""
            && r.validations == [] && r.overallConfidence == 0.0 && r.validationStats == NoStats
            && r.error == Researcher.NoResults
            && r.finalResponse == Presenter.Presentation(Through(query, ports, 3).(currentStage := StageMessages[3]), ports.presenter.reply, ports.fmt)
  {
    EmptySearchSkips(query, ports);
    var s3 := Through(query, ports, 3);
    assert Run(query, ports) == Presenter.Present(s3.(currentStage := StageMessages[3]), ports.presenter, ports.fmt, ports.clock(3));
  }

  /** Node `k` as the graph runs it: the wrapper sets the stage, then calls
      the agent's `execute`. */
  method RunNode(k: nat, s: ResearchState, ports: WorkflowPorts) returns (r: ResearchState)
    requires k < NodeCount
    ensures r == Step(k, s, ports)
  {
    var t := s.(currentStage := StageMessages[k]);
    if k == 0 {
      r := Researcher.Execute(t, ports.researcher, ports.clock(0));
    } else if k == 1 {
      r := Summarizer.Execute(t, ports.summarizer, ports.clock(1));
    } else if k == 2 {
      r := Validator.Validate(t, ports.validator, ports.parseFloat, ports.fmt, ports.clock(2));
    } else {
      r := Presenter.Execute(t, ports.presenter, ports.fmt, ports.clock(3));
    }
  }

  /** `ResearchWorkflow.run`: the nodes one after another from the initial
      state, or the fallback state when the graph raises. */
  method RunWorkflow(query: string, ports: WorkflowPorts) returns (r: ResearchState)
    ensures r == Run(query, ports)
  {
    var state := Initial(query);
    var n := Completed(ports.fault);
    for k := 0 to n
      invariant state == Through(query, ports, k)
    {
      state := RunNode(k, state, ports);
    }
    if ports.fault.FaultAfter? {
      return Fallback(query, ports.fault.msg);
    }
    r := state;
  }

  /** `ResearchWorkflow.stream_run`: yields each node's update as it finishes. */
  method StreamRun(query: string, ports: WorkflowPorts) returns (updates: seq<Update>)
    ensures updates == StreamUpdates(query, ports)
  {
    var state := Initial(query);
    var n := Completed(ports.fault);
    updates := [];
    for k := 0 to n
      invariant state == Through(query, ports, k)
      invariant updates == Progress(query, ports, k)
    {
      state := RunNode(k, state, ports);
      updates := updates + [Update(NodeNames[k], state)];
    }
    if ports.fault.FaultAfter? {
      updates := updates + [Update("error", Fallback(query, ports.fault.msg))];
    }
  }
}
