/** The HTTP service (backend/main.py): a table of research tasks that
    requests create, run in the background, stream, list, inspect and
    delete, and the research snippets it writes to memory. */
module App {
  import opened Common
  import opened Text
  import opened Memory
  import opened State
  import ResearchGraph
  import Presenter

  /** The `status` of a task. */
  datatype Status = Initializing | Running | Completed | Failed

  function StatusName(s: Status): string
  {
    match s
    case Initializing => "initializing"
    case Running => "running"
    case Completed => "completed"
    case Failed => "failed"
  }

  /** One entry of `active_tasks`; `completed_at` is absent until the task ends. */
  datatype Task = Task(status: Status, query: string, currentStage: string, finalResponse: string, error: string,
                       createdAt: string, completedAt: Option<string>)

  /** A handler's answer: its body, or the HTTP error it raises. */
  datatype Reply<+T> = Done(value: T) | Refused(code: nat, detail: string)

  datatype QueryResponse = QueryResponse(taskId: string, status: string, message: string)
  datatype TaskView = TaskView(taskId: string, status: string, currentStage: string, finalResponse: string, error: string)
  datatype TaskSummary = TaskSummary(taskId: string, query: string, status: string, createdAt: string)

  /** One server-sent event of `/stream/{task_id}`, with its JSON fields. */
  datatype Event =
    | StatusEvent(stage: string, message: string)
    | StageEvent(stage: string, message: string, timestamp: string)
    | LogEvent(entry: LogEntry)
    | ResponseEvent(chunk: string)
    | CompleteEvent(message: string, confidence: real, sourcesCount: nat)
    | ErrorEvent(error: string, message: string)

  /** The events after which the stream ends. */
  predicate Terminal(e: Event)
  {
    e.CompleteEvent? || e.ErrorEvent?
  }

  const NotFound: string := "Task not found"
  const EmptyQuery: string := "Query cannot be empty"
  const MemorySource: string := "research_workflow"

  /** An exception inside the event generator: raised once `after` workflow
      updates have been forwarded (when `after` is at least their number, at
      the `run` call that follows them). */
  datatype StreamFault = NoRaise | RaiseAfter(after: nat, msg: string)

  /** What the outside world answers while a task is streamed: the answers
      during `stream_run`, the answers during the `run` that follows it, the
      streamed completion of the presentation, and the generator's fault. */
  datatype StreamPorts = StreamPorts(progress: ResearchGraph.WorkflowPorts, final: ResearchGraph.WorkflowPorts,
                                     presentation: Presenter.CompletionStream, fault: StreamFault)

  /** A new task, as `create_query` stores it. */
  function NewTask(query: string, now: string): Task
  {
    Task(Initializing, query, "Starting...", "", "", now, None)
  }

  /** The snippet written to memory after a run: only when it produced a response. */
  function Stored(query: string, final: ResearchState, now: string): (r: seq<StoreRequest>)
    ensures |r| <= 1
    ensures r != [] <==> final.finalResponse != ""
  {
    if final.finalResponse != "" then [StoreRequest(query, final.finalResponse, MemorySource, final.overallConfidence, now)]
    else []
  }

  /** The row `list_tasks` shows for a task. */
  function SummaryOf(id: string, t: Task): TaskSummary
  {
    TaskSummary(id, Take(t.query, 100), StatusName(t.status), t.createdAt)
  }

  /** The events one workflow update produces: its stage, then its latest log entry if any. */
  function UpdateEvents(u: ResearchGraph.Update, now: string): (r: seq<Event>)
    ensures 1 <= |r| <= 2 && r[0] == StageEvent(u.node, u.state.currentStage, now)
    ensures forall i :: 0 <= i < |r| ==> !Terminal(r[i])
    ensures |r| == 2 <==> u.state.agentLogs != []
    ensures |r| == 2 ==> r[1] == LogEvent(Last(u.state.agentLogs))
  {
    [StageEvent(u.node, u.state.currentStage, now)]
    + (if u.state.agentLogs != [] then [LogEvent(Last(u.state.agentLogs))] else [])
  }

  /** The events of a sequence of updates, in order. */
  function ForwardedEvents(us: seq<ResearchGraph.Update>, now: string): (r: seq<Event>)
    ensures forall i :: 0 <= i < |r| ==> !Terminal(r[i])
  {
    if us == [] then [] else ForwardedEvents(us[..|us| - 1], now) + UpdateEvents(Last(us), now)
  }

  /** One `response` event per presentation chunk. */
  function ResponseEvents(chunks: seq<string>): (r: seq<Event>)
    ensures |r| == |chunks| && forall i :: 0 <= i < |r| ==> r[i] == ResponseEvent(chunks[i])
  {
    seq(|chunks|, i requires 0 <= i < |chunks| => ResponseEvent(chunks[i]))
  }

  /** How many updates the generator forwards. */
  function ForwardedCount(updates: seq<ResearchGraph.Update>, fault: StreamFault): (n: nat)
    ensures n <= |updates|
  {
    if fault.RaiseAfter? && fault.after < |updates| then fault.after else |updates|
  }

  const Opening: Event := StatusEvent("initializing", "Starting research workflow...")
  const Presenting: Event := StatusEvent("presenting", "Streaming final response...")

  /** The completion event for the final state: it reports the number of
      summaries as `sources_count`. */
  function Completion(final: ResearchState): Event
  {
    CompleteEvent("Research completed", final.overallConfidence, |final.summaries|)
  }

  /** The events after the opening one: the forwarded updates' events, then
      either the error event or the presenting status, one response event
      per chunk and the completion event. Exactly one terminal event is sent,
      and it is the last. */
  function Events(forwarded: seq<Event>, fault: StreamFault, final: ResearchState, chunks: seq<string>): (r: seq<Event>)
    requires forall i :: 0 <= i < |forwarded| ==> !Terminal(forwarded[i])
    ensures |r| >= 2 && r[0] == Opening
    ensures Terminal(Last(r)) && forall i :: 0 <= i < |r| - 1 ==> !Terminal(r[i])
    ensures Last(r).ErrorEvent? <==> fault.RaiseAfter?
    ensures fault.NoRaise? ==> Last(r) == Completion(final)
  {
    var tail := if fault.RaiseAfter? then [ErrorEvent(fault.msg, "An error occurred during research")]
                else [Presenting] + ResponseEvents(chunks) + [Completion(final)];
    [Opening] + forwarded + tail
  }

  /** The events `/stream/{task_id}` sends for a query. */
  function StreamEvents(query: string, sp: StreamPorts, now: string): seq<Event>
  {
    var updates := ResearchGraph.StreamUpdates(query, sp.progress);
    var final := ResearchGraph.Run(query, sp.final);
    Events(ForwardedEvents(updates[..ForwardedCount(updates, sp.fault)], now), sp.fault, final,
           Presenter.StreamChunks(final, sp.presentation, sp.final.fmt))
  }

  /** The task after `forwarded` updates were shown to it and the stream
      ended: failed with the fault's message, or completed with the final
      state's response. */
  function TaskAfter(t: Task, forwarded: seq<ResearchGraph.Update>, fault: StreamFault, final: ResearchState, now: string): (r: Task)
    ensures r.query == t.query && r.createdAt == t.createdAt
    ensures fault.RaiseAfter? ==> r.status == Failed && r.error == fault.msg && r.completedAt == t.completedAt
    ensures fault.RaiseAfter? && forwarded != [] ==> r.currentStage == Last(forwarded).state.currentStage
    ensures fault.RaiseAfter? && forwarded == [] ==> r.currentStage == t.currentStage
    ensures fault.NoRaise? ==>
      r == t.(status := Completed, currentStage := "Completed", finalResponse := final.finalResponse, completedAt := Some(now))
  {
    var seen := if forwarded == [] then t else t.(status := Running, currentStage := Last(forwarded).state.currentStage);
    match fault
    case RaiseAfter(_, msg) => seen.(status := Failed, error := msg)
    case NoRaise =>
      seen.(status := Completed, currentStage := "Completed", finalResponse := final.finalResponse, completedAt := Some(now))
  }

  /** The task after it has been streamed. */
  function StreamedTask(t: Task, sp: StreamPorts, now: string): Task
  {
    var updates := ResearchGraph.StreamUpdates(t.query, sp.progress);
    TaskAfter(t, updates[..ForwardedCount(updates, sp.fault)], sp.fault, ResearchGraph.Run(t.query, sp.final), now)
  }

  /** What a stream writes to memory: the final state's snippet, unless the
      generator raised first. */
  function StreamStored(query: string, sp: StreamPorts, now: string): (r: seq<StoreRequest>)
    ensures |r| <= 1
    ensures sp.fault.RaiseAfter? ==> r == []
  {
    if sp.fault.NoRaise? then Stored(query, ResearchGraph.Run(query, sp.final), now) else []
  }

  /** The stage messages of a list of events, with the stage that sent each. */
  function Stages(events: seq<Event>): seq<(string, string)>
  {
    if events == [] then []
    else Stages(events[..|events| - 1]) + (if Last(events).StageEvent? then [(Last(events).stage, Last(events).message)] else [])
  }

  lemma {:induction false} StagesAppend(a: seq<Event>, b: seq<Event>)
    ensures Stages(a + b) == Stages(a) + Stages(b)
  {
    if b != [] {
      StagesAppend(a, b[..|b| - 1]);
      assert (a + b)[..|a + b| - 1] == a + b[..|b| - 1];
    } else {
      assert a + b == a;
    }
  }

  /** The node and stage message of each update, in order. */
  function StagePairs(us: seq<ResearchGraph.Update>): (r: seq<(string, string)>)
    ensures |r| == |us| && forall i :: 0 <= i < |us| ==> r[i] == (us[i].node, us[i].state.currentStage)
  {
    if us == [] then [] else StagePairs(us[..|us| - 1]) + [(Last(us).node, Last(us).state.currentStage)]
  }

  /** One update's events carry exactly one stage: its own. */
  lemma UpdateStage(u: ResearchGraph.Update, now: string)
    ensures Stages(UpdateEvents(u, now)) == [(u.node, u.state.currentStage)]
  {
    var e := UpdateEvents(u, now);
    assert Stages([e[0]]) == [(u.node, u.state.currentStage)] by {
      assert [e[0]][..0] == [];
    }
    if |e| == 2 {
      assert e[..|e| - 1] == [e[0]];
    } else {
      assert e == [e[0]];
    }
  }

  /** Each forwarded update contributes exactly its node and current stage. */
  lemma {:induction false} ForwardedStages(us: seq<ResearchGraph.Update>, now: string)
    ensures Stages(ForwardedEvents(us, now)) == StagePairs(us)
  {
    if us != [] {
      var init := us[..|us| - 1];
      ForwardedStages(init, now);
      UpdateStage(Last(us), now);
      StagesAppend(ForwardedEvents(init, now), UpdateEvents(Last(us), now));
    }
  }

  /** Response events carry no stage. */
  lemma {:induction false} NoStages(events: seq<Event>)
    requires forall i :: 0 <= i < |events| ==> events[i].ResponseEvent?
    ensures Stages(events) == []
  {
    if events != [] {
      NoStages(events[..|events| - 1]);
    }
  }

  /** When the generator does not raise, the stages shown are exactly those
      of the forwarded updates. */
  lemma {:induction false} EventsStages(us: seq<ResearchGraph.Update>, now: string, final: ResearchState, chunks: seq<string>)
    ensures Stages(Events(ForwardedEvents(us, now), NoRaise, final, chunks)) == StagePairs(us)
  {
    var forwarded := ForwardedEvents(us, now);
    var tail := [Presenting] + ResponseEvents(chunks) + [Completion(final)];
    assert Events(forwarded, NoRaise, final, chunks) == [Opening] + forwarded + tail;
    CompletedTailNoStages(chunks, final);
    StagesAround(forwarded, tail);
    ForwardedStages(us, now);
  }

  /** The events after the forwarded ones, when nothing raised, carry no stage. */
  lemma CompletedTailNoStages(chunks: seq<string>, final: ResearchState)
    ensures Stages([Presenting] + ResponseEvents(chunks) + [Completion(final)]) == []
  {
    StagesAppend([Presenting], ResponseEvents(chunks));
    StagesAppend([Presenting] + ResponseEvents(chunks), [Completion(final)]);
    NoStages(ResponseEvents(chunks));
    assert Stages([Presenting]) == [] && Stages([Completion(final)]) == [] by {
      assert [Presenting][..0] == [] && [Completion(final)][..0] == [];
    }
  }

  /** The opening status and a stage-free tail add no stage. */
  lemma StagesAround(forwarded: seq<Event>, tail: seq<Event>)
    requires Stages(tail) == []
    ensures Stages([Opening] + forwarded + tail) == Stages(forwarded)
  {
    StagesAppend([Opening], forwarded);
    StagesAppend([Opening] + forwarded, tail);
    assert Stages([Opening]) == [] by {
      assert [Opening][..0] == [];
    }
  }

  /** When nothing raises, the client sees the four nodes in chain order,
      each with the stage message its wrapper set. */
  lemma StreamShowsEveryStage(query: string, sp: StreamPorts, now: string)
    requires sp.progress.fault.NoFault? && sp.fault.NoRaise?
    ensures var st := Stages(StreamEvents(query, sp, now));
            |st| == ResearchGraph.NodeCount &&
            forall i :: 0 <= i < ResearchGraph.NodeCount ==> st[i] == (ResearchGraph.NodeNames[i], ResearchGraph.StageMessages[i])
  {
    var updates := ResearchGraph.StreamUpdates(query, sp.progress);
    assert updates[..ForwardedCount(updates, sp.fault)] == updates;
    var final := ResearchGraph.Run(query, sp.final);
    EventsStages(updates, now, final, Presenter.StreamChunks(final, sp.presentation, sp.final.fmt));
    forall i | 0 <= i < ResearchGraph.NodeCount
      ensures updates[i].state.currentStage == ResearchGraph.StageMessages[i]
    {
      ResearchGraph.ThroughLogs(query, sp.progress, i + 1);
    }
  }

  /** No two positions of `order` hold the same id. */
  predicate Distinct(order: seq<string>)
  {
    forall i, j :: 0 <= i < j < |order| ==> order[i] != order[j]
  }

  /** A set holding exactly the elements of a sequence without repeats has
      as many elements as the sequence. */
  lemma {:induction false} DistinctCount(order: seq<string>, keys: set<string>)
    requires Distinct(order)
    requires forall x :: x in keys <==> x in order
    ensures |keys| == |order|
  {
    if order != [] {
      var x := Last(order);
      var init := order[..|order| - 1];
      assert x !in init by {
        forall i | 0 <= i < |init|
          ensures init[i] != x
        {
          assert order[i] != order[|order| - 1];
        }
      }
      forall y | y in keys - {x}
        ensures y in init
      {
        var j :| 0 <= j < |order| && order[j] == y;
        assert j != |order| - 1;
        assert init[j] == y;
      }
      DistinctCount(init, keys - {x});
    }
  }

  /** `active_tasks` together with the order its keys were inserted in,
      which is the order `list_tasks` reports them in, and the snippets
      written to memory. */
  class Server {
    var tasks: map<string, Task>
    var order: seq<string>
    var stored: seq<StoreRequest>

    /** The order lists every task id once and nothing else. */
    ghost predicate Valid()
      reads this
    {
      Distinct(order) && forall id :: id in tasks <==> id in order
    }

    constructor ()
      ensures Valid() && tasks == map[] && order == [] && stored == []
    {
      tasks := map[];
      order := [];
      stored := [];
    }

    /** `POST /query`. The new task's id is "task_" followed by `stamp`, the
        formatted creation time. */
    method CreateQuery(query: string, stream: bool, stamp: string, now: string) returns (r: Reply<QueryResponse>, scheduled: bool)
      requires Valid()
      modifies this
      ensures Valid() && stored == old(stored)
      ensures Strip(query) == "" ==>
        r == Refused(400, EmptyQuery) && !scheduled && tasks == old(tasks) && order == old(order)
      ensures Strip(query) != "" ==>
        var id := "task_" + stamp;
        && r == Done(QueryResponse(id, "created", "Research task created successfully"))
        && tasks == old(tasks)[id := NewTask(query, now)]
        && order == (if id in old(tasks) then old(order) else old(order) + [id])
        && scheduled == !stream
    {
      if Strip(query) == "" {
        return Refused(400, EmptyQuery), false;
      }
      var id := "task_" + stamp;
      if id !in tasks {
        order := order + [id];
      }
      tasks := tasks[id := NewTask(query, now)];
      scheduled := !stream;
      r := Done(QueryResponse(id, "created", "Research task created successfully"));
    }

    /** `execute_research_task`. A task that no longer exists is left alone
        (the lookup raises, and so does the handler's own update). `fault`
        is an exception that escapes the run or the memory write. */
    method ExecuteResearchTask(id: string, query: string, ports: ResearchGraph.WorkflowPorts, fault: Option<string>, now: string)
      requires Valid()
      modifies this
      ensures Valid() && order == old(order)
      ensures id !in old(tasks) ==> tasks == old(tasks) && stored == old(stored)
      ensures id in old(tasks) && fault.Some? ==>
        && tasks == old(tasks)[id := old(tasks)[id].(status := Failed, error := fault.value, completedAt := Some(now))]
        && stored == old(stored)
      ensures id in old(tasks) && fault.None? ==>
        var final := ResearchGraph.Run(query, ports);
        && tasks == old(tasks)[id := old(tasks)[id].(status := Completed, currentStage := "Completed",
             finalResponse := final.finalResponse, error := final.error, completedAt := Some(now))]
        && stored == old(stored) + Stored(query, final, now)
    {
      if id !in tasks {
        return;
      }
      tasks := tasks[id := tasks[id].(status := Running)];
      if fault.Some? {
        tasks := tasks[id := tasks[id].(status := Failed, error := fault.value, completedAt := Some(now))];
        return;
      }
      var final := ResearchGraph.RunWorkflow(query, ports);
      if final.finalResponse != "" {
        stored := stored + [StoreRequest(query, final.finalResponse, MemorySource, final.overallConfidence, now)];
      }
      tasks := tasks[id := tasks[id].(status := Completed, currentStage := "Completed",
                 finalResponse := final.finalResponse, error := final.error, completedAt := Some(now))];
    }

    /** `GET /task/{task_id}`. */
    method GetTaskStatus(id: string) returns (r: Reply<TaskView>)
      ensures id !in tasks ==> r == Refused(404, NotFound)
      ensures id in tasks ==>
        var t := tasks[id];
        r == Done(TaskView(id, StatusName(t.status), t.currentStage, t.finalResponse, t.error))
    {
      if id !in tasks {
        return Refused(404, NotFound);
      }
      var t := tasks[id];
      r := Done(TaskView(id, StatusName(t.status), t.currentStage, t.finalResponse, t.error));
    }

    /** `DELETE /task/{task_id}`. */
    method DeleteTask(id: string) returns (r: Reply<string>)
      requires Valid()
      modifies this
      ensures Valid() && stored == old(stored)
      ensures id !in old(tasks) ==> r == Refused(404, NotFound) && tasks == old(tasks) && order == old(order)
      ensures id in old(tasks) ==>
        && r == Done("Task deleted successfully")
        && tasks == old(tasks) - {id}
        && (exists i :: 0 <= i < |old(order)| && old(order)[i] == id && order == old(order)[..i] + old(order)[i + 1..])
        && |order| == |old(order)| - 1
        && forall x :: x in order <==> x in old(order) && x != id
    {
      if id !in tasks {
        return Refused(404, NotFound);
      }
      var i :| 0 <= i < |order| && order[i] == id;
      var rest := order[..i] + order[i + 1..];
      RemoveAt(order, i);
      order := rest;
      assert old(order)[i] == id && order == old(order)[..i] + old(order)[i + 1..];
      tasks := tasks - {id};
      r := Done("Task deleted successfully");
    }

    /** `GET /tasks`: one row per task, in insertion order, and their number. */
    method ListTasks() returns (items: seq<TaskSummary>, total: nat)
      requires Valid()
      ensures |items| == |order| && forall i :: 0 <= i < |items| ==> order[i] in tasks && items[i] == SummaryOf(order[i], tasks[order[i]])
      ensures total == |tasks| && total == |items|
    {
      items := [];
      for i := 0 to |order|
        invariant |items| == i
        invariant forall k :: 0 <= k < i ==> order[k] in tasks && items[k] == SummaryOf(order[k], tasks[order[k]])
      {
        items := items + [SummaryOf(order[i], tasks[order[i]])];
      }
      DistinctCount(order, tasks.Keys);
      total := |tasks|;
    }

    /** The generator's loop over the workflow updates: one stage event and
        the latest log entry per update, each marking the task running at
        that update's stage. */
    method Forward(id: string, us: seq<ResearchGraph.Update>, now: string) returns (events: seq<Event>)
      requires Valid() && id in tasks
      modifies this
      ensures Valid() && order == old(order) && stored == old(stored)
      ensures events == ForwardedEvents(us, now)
      ensures tasks == old(tasks)[id := if us == [] then old(tasks)[id]
                                        else old(tasks)[id].(status := Running, currentStage := Last(us).state.currentStage)]
    {
      events := [];
      for i := 0 to |us|
        invariant events == ForwardedEvents(us[..i], now)
        invariant id in tasks && order == old(order) && stored == old(stored)
        invariant tasks == old(tasks)[id := if i == 0 then old(tasks)[id]
                                            else old(tasks)[id].(status := Running, currentStage := us[i - 1].state.currentStage)]
      {
        assert us[..i + 1][..i] == us[..i];
        events := events + UpdateEvents(us[i], now);
        tasks := tasks[id := tasks[id].(status := Running, currentStage := us[i].state.currentStage)];
      }
      assert us[..|us|] == us;
    }

    /** `GET /stream/{task_id}`: the events sent, with the task updated as
        the updates are forwarded and the result written to memory. */
    method StreamResearch(id: string, sp: StreamPorts, now: string) returns (r: Reply<seq<Event>>)
      requires Valid()
      modifies this
      ensures Valid() && order == old(order)
      ensures id !in old(tasks) ==> r == Refused(404, NotFound) && tasks == old(tasks) && stored == old(stored)
      ensures id in old(tasks) ==>
        var t := old(tasks)[id];
        && r == Done(StreamEvents(t.query, sp, now))
        && tasks == old(tasks)[id := StreamedTask(t, sp, now)]
        && stored == old(stored) + StreamStored(t.query, sp, now)
    {
      if id !in tasks {
        return Refused(404, NotFound);
      }
      var events := StreamTask(id, tasks[id], sp, now);
      r := Done(events);
    }

    /** The event generator for an existing task `t`. */
    method StreamTask(id: string, t: Task, sp: StreamPorts, now: string) returns (events: seq<Event>)
      requires Valid() && id in tasks && tasks[id] == t
      modifies this
      ensures Valid() && order == old(order)
      ensures events == StreamEvents(t.query, sp, now)
      ensures tasks == old(tasks)[id := StreamedTask(t, sp, now)]
      ensures stored == old(stored) + StreamStored(t.query, sp, now)
    {
      ghost var start := tasks;
      var updates := ResearchGraph.StreamRun(t.query, sp.progress);
      var shown := updates[..ForwardedCount(updates, sp.fault)];
      var forwarded := Forward(id, shown, now);
      var seen := if shown == [] then t else t.(status := Running, currentStage := Last(shown).state.currentStage);
      assert tasks == start[id := seen];
      if sp.fault.RaiseAfter? {
        events := Raise(id, seen, forwarded, sp.fault);
        ghost var final := ResearchGraph.Run(t.query, sp.final);
        StreamEventsRaised(t.query, sp, now, shown);
        StreamedTaskAfter(t, sp, now, shown, final);
        Overwrite(start, id, seen, TaskAfter(t, shown, sp.fault, final, now));
      } else {
        var final := ResearchGraph.RunWorkflow(t.query, sp.final);
        var chunks := Presenter.StreamPresentation(final, sp.presentation, sp.final.fmt);
        events := Present(id, t.query, forwarded, final, chunks, now);
        StreamEventsCompleted(t.query, sp, now, shown, final);
        StreamedTaskAfter(t, sp, now, shown, final);
        Overwrite(start, id, seen, TaskAfter(t, shown, sp.fault, final, now));
      }
    }

    /** The generator's `except` branch: the error event, and the task failed. */
    method Raise(id: string, seen: Task, forwarded: seq<Event>, fault: StreamFault) returns (events: seq<Event>)
      requires Valid() && id in tasks && tasks[id] == seen && fault.RaiseAfter?
      modifies this
      ensures Valid() && order == old(order) && stored == old(stored)
      ensures events == [Opening] + forwarded + [ErrorEvent(fault.msg, "An error occurred during research")]
      ensures tasks == old(tasks)[id := seen.(status := Failed, error := fault.msg)]
    {
      tasks := tasks[id := seen.(status := Failed, error := fault.msg)];
      events := [Opening] + forwarded + [ErrorEvent(fault.msg, "An error occurred during research")];
    }

    /** The part of the generator after the updates, given the final state
        of the second run and the presentation chunks: the presenting
        status, the response events, the memory write, the task's completion
        and the completion event. */
    method Present(id: string, query: string, forwarded: seq<Event>, final: ResearchState, chunks: seq<string>, now: string)
      returns (events: seq<Event>)
      requires Valid() && id in tasks
      modifies this
      ensures Valid() && order == old(order)
      ensures events == [Opening] + forwarded + [Presenting] + ResponseEvents(chunks) + [Completion(final)]
      ensures tasks == old(tasks)[id := old(tasks)[id].(status := Completed, currentStage := "Completed",
                                        finalResponse := final.finalResponse, completedAt := Some(now))]
      ensures stored == old(stored) + Stored(query, final, now)
    {
      events := AppendResponses([Opening] + forwarded + [Presenting], chunks);
      if final.finalResponse != "" {
        stored := stored + [StoreRequest(query, final.finalResponse, MemorySource, final.overallConfidence, now)];
      }
      tasks := tasks[id := tasks[id].(status := Completed, currentStage := "Completed",
                 finalResponse := final.finalResponse, completedAt := Some(now))];
      events := events + [Completion(final)];
    }
  }

  /** Cutting position `i` out of a list without repeats leaves a list
      without repeats, one shorter, holding every other element. */
  lemma RemoveAt(order: seq<string>, i: nat)
    requires Distinct(order) && i < |order|
    ensures var rest := order[..i] + order[i + 1..];
            && Distinct(rest) && |rest| == |order| - 1
            && forall x :: x in rest <==> x in order && x != order[i]
  {
    var rest := order[..i] + order[i + 1..];
    forall x | x in order && x != order[i]
      ensures x in rest
    {
      var j :| 0 <= j < |order| && order[j] == x;
      if j < i {
        assert rest[j] == x;
      } else {
        assert rest[j - 1] == x;
      }
    }
    forall a, b | 0 <= a < b < |rest|
      ensures rest[a] != rest[b]
    {
      var a' := if a < i then a else a + 1;
      var b' := if b < i then b else b + 1;
      assert rest[a] == order[a'] && rest[b] == order[b'];
    }
  }

  /** A second update of the same key replaces the first. */
  lemma Overwrite<K, V>(m: map<K, V>, k: K, a: V, b: V)
    ensures m[k := a][k := b] == m[k := b]
  {
  }

  /** The events of a stream whose generator raised: the opening status,
      the forwarded updates and the error event. */
  lemma StreamEventsRaised(query: string, sp: StreamPorts, now: string, shown: seq<ResearchGraph.Update>)
    requires var updates := ResearchGraph.StreamUpdates(query, sp.progress);
             shown == updates[..ForwardedCount(updates, sp.fault)]
    requires sp.fault.RaiseAfter?
    ensures StreamEvents(query, sp, now)
         == [Opening] + ForwardedEvents(shown, now) + [ErrorEvent(sp.fault.msg, "An error occurred during research")]
  {
  }

  /** The events of a stream that ran to its end: the opening status, the
      forwarded updates, the presenting status, the response chunks and the
      completion event. */
  lemma StreamEventsCompleted(query: string, sp: StreamPorts, now: string, shown: seq<ResearchGraph.Update>, final: ResearchState)
    requires var updates := ResearchGraph.StreamUpdates(query, sp.progress);
             shown == updates[..ForwardedCount(updates, sp.fault)]
    requires final == ResearchGraph.Run(query, sp.final) && sp.fault.NoRaise?
    ensures StreamEvents(query, sp, now)
         == [Opening] + ForwardedEvents(shown, now) + [Presenting]
            + ResponseEvents(Presenter.StreamChunks(final, sp.presentation, sp.final.fmt)) + [Completion(final)]
  {
  }

  /** The streamed task, for given forwarded updates and final state. */
  lemma StreamedTaskAfter(t: Task, sp: StreamPorts, now: string, shown: seq<ResearchGraph.Update>, final: ResearchState)
    requires var updates := ResearchGraph.StreamUpdates(t.query, sp.progress);
             shown == updates[..ForwardedCount(updates, sp.fault)]
    requires final == ResearchGraph.Run(t.query, sp.final)
    ensures StreamedTask(t, sp, now) == TaskAfter(t, shown, sp.fault, final, now)
  {
  }

  /** The generator's loop over the presentation chunks. */
  method AppendResponses(start: seq<Event>, chunks: seq<string>) returns (events: seq<Event>)
    ensures events == start + ResponseEvents(chunks)
  {
    events := start;
    for i := 0 to |chunks|
      invariant events == start + ResponseEvents(chunks[..i])
    {
      assert ResponseEvents(chunks[..i + 1]) == ResponseEvents(chunks[..i]) + [ResponseEvent(chunks[i])];
      events := events + [ResponseEvent(chunks[i])];
    }
    assert chunks[..|chunks|] == chunks;
  }

  /** A background run always writes its response to memory: the workflow
      never ends with an empty final response. */
  lemma BackgroundRunStores(query: string, ports: ResearchGraph.WorkflowPorts, now: string)
    ensures |Stored(query, ResearchGraph.Run(query, ports), now)| == 1
  {
    ResearchGraph.RunResponds(query, ports);
  }
}
