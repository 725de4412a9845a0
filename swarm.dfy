/** The swarm: a message bus that logs every exchange between the router and the
    workers, and the orchestrator that runs a delegation plan over the bus. */
module Swarm {
  import opened Text
  import opened Router

  /** One bus entry. The wall-clock timestamp the bus also stores is not modelled. */
  datatype Message = Message(sender: string, recipient: string, kind: string, content: string)

  /** The message is addressed to `name` or sent by it. */
  predicate Involves(m: Message, name: string) {
    m.recipient == name || m.sender == name
  }

  /** The messages of `log` that involve `name`, in log order. */
  function ContextFor(log: seq<Message>, name: string): seq<Message> {
    if log == [] then []
    else ContextFor(log[..|log| - 1], name) + (if Involves(log[|log| - 1], name) then [log[|log| - 1]] else [])
  }

  /** The context of a concatenation is the concatenation of the contexts: the filter
      keeps the order of the log. */
  lemma {:induction false} ContextForAppend(a: seq<Message>, b: seq<Message>, name: string)
    ensures ContextFor(a + b, name) == ContextFor(a, name) + ContextFor(b, name)
    decreases |b|
  {
    if b == [] {
      assert a + b == a;
    } else {
      var b' := b[..|b| - 1];
      assert (a + b)[..|a + b| - 1] == a + b';
      ContextForAppend(a, b', name);
    }
  }

  /** A message is in the context exactly when it is in the log and involves `name`. */
  lemma {:induction false} ContextForMember(log: seq<Message>, name: string, m: Message)
    ensures m in ContextFor(log, name) <==> m in log && Involves(m, name)
    decreases |log|
  {
    if log != [] {
      var init := log[..|log| - 1];
      ContextForMember(init, name, m);
      assert log == init + [log[|log| - 1]];
    }
  }

  /** A message that involves `name`, appended to the log, ends `name`'s context. */
  lemma ContextForLast(log: seq<Message>, m: Message, name: string)
    requires Involves(m, name)
    ensures ContextFor(log + [m], name) == ContextFor(log, name) + [m]
  {
    assert (log + [m])[..|log + [m]| - 1] == log;
  }

  /** A message that does not involve `name` leaves `name`'s context as it was. */
  lemma ContextForIgnores(log: seq<Message>, m: Message, name: string)
    requires !Involves(m, name)
    ensures ContextFor(log + [m], name) == ContextFor(log, name)
  {
    assert (log + [m])[..|log + [m]| - 1] == log;
  }

  /** `MessageBus`: the chronological log. */
  class MessageBus {
    var messages: seq<Message>

    /** A new bus has an empty log. */
    constructor()
      ensures messages == []
    {
      messages := [];
    }

    /** `MessageBus.send`: exactly one message goes at the end; nothing earlier changes. */
    method Send(sender: string, recipient: string, kind: string, content: string)
      modifies this
      ensures messages == old(messages) + [Message(sender, recipient, kind, content)]
    {
      messages := messages + [Message(sender, recipient, kind, content)];
    }

    /** `MessageBus.get_context_for`: the order-preserving filter of the log on messages to
        or from `name` (in Python, the bus's own dictionaries). */
    method GetContextFor(name: string) returns (r: seq<Message>)
      ensures r == ContextFor(messages, name)
    {
      r := [];
      for i := 0 to |messages|
        invariant r == ContextFor(messages[..i], name)
      {
        assert messages[..i + 1][..i] == messages[..i];
        if messages[i].recipient == name || messages[i].sender == name {
          r := r + [messages[i]];
        }
      }
      assert messages[..|messages|] == messages;
    }

    /** `MessageBus.get_all_messages`: the log's messages in order. A sequence is a value,
        so later sends leave the returned sequence as it was; messages themselves are values
        here, while the Python list holds the bus's own dictionaries. */
    method GetAllMessages() returns (r: seq<Message>)
      ensures r == messages
    {
      r := messages;
    }

    /** `MessageBus.clear`: the log is emptied. */
    method Clear()
      modifies this
      ensures messages == []
    {
      messages := [];
    }
  }

  /** The roles `SwarmOrchestrator` registers a worker for. */
  const Registry: set<string> := {ProjectManager, Researcher, ProductDev, Delivery}

  /** What a worker's `execute` does with a task: it returns a result text or raises. */
  datatype WorkerReply = Reply(text: string) | Threw(error: string)

  /** A worker call, given the role, the task and the context handed to it. */
  type Worker = (string, string, seq<Message>) -> WorkerReply

  /** Why a run raises: a delegation without a task (`KeyError: 'task'`), or the
      exception a worker raised. */
  datatype Failure = MissingTask(agent: string) | WorkerRaised(agent: string, error: string)

  /** The state of the delegation loop: the bus log, the results so far, and the
      exception that ended the loop, if one did. */
  datatype Trace = Trace(log: seq<Message>, results: seq<string>, failure: Option<Failure>)

  function UnknownAgentResult(agent: string): string {
    "Error: Unknown agent '" + agent + "'"
  }

  function TaskMessage(d: Delegation): Message
    requires d.task.Some?
  {
    Message("router", d.agent, "task", d.task.value)
  }

  function ResultMessage(agent: string, result: string): Message {
    Message(agent, "router", "result", result)
  }

  /** One iteration of the loop in `SwarmOrchestrator.execute`. Once an exception has been
      raised nothing further happens. */
  function StepTrace(t: Trace, d: Delegation, workers: set<string>, work: Worker): Trace {
    if t.failure.Some? then t
    else if d.task.None? then t.(failure := Some(MissingTask(d.agent)))
    else
      var log1 := t.log + [TaskMessage(d)];
      if d.agent !in workers then Trace(log1, t.results + [UnknownAgentResult(d.agent)], None)
      else match work(d.agent, d.task.value, ContextFor(log1, d.agent))
        case Threw(e) => Trace(log1, t.results, Some(WorkerRaised(d.agent, e)))
        case Reply(r) => Trace(log1 + [ResultMessage(d.agent, r)], t.results + [r], None)
  }

  /** The loop over the delegations `ds`, starting from the bus log `log0`. */
  function Walk(log0: seq<Message>, ds: seq<Delegation>, workers: set<string>, work: Worker): Trace
    decreases |ds|
  {
    if ds == [] then Trace(log0, [], None)
    else StepTrace(Walk(log0, ds[..|ds| - 1], workers, work), ds[|ds| - 1], workers, work)
  }

  lemma WalkUnfold(log0: seq<Message>, ds: seq<Delegation>, k: nat, workers: set<string>, work: Worker)
    requires k < |ds|
    ensures Walk(log0, ds[..k + 1], workers, work)
         == StepTrace(Walk(log0, ds[..k], workers, work), ds[k], workers, work)
  {
    assert ds[..k + 1][..k] == ds[..k];
  }

  /** Once the loop raises, the rest of the plan is not run. */
  lemma {:induction false} WalkSticky(log0: seq<Message>, ds: seq<Delegation>, k: nat, workers: set<string>, work: Worker)
    requires k <= |ds| && Walk(log0, ds[..k], workers, work).failure.Some?
    ensures Walk(log0, ds, workers, work) == Walk(log0, ds[..k], workers, work)
    decreases |ds| - k
  {
    if k < |ds| {
      WalkUnfold(log0, ds, k, workers, work);
      WalkSticky(log0, ds, k + 1, workers, work);
    } else {
      assert ds[..k] == ds;
    }
  }

  /** Messages already on the bus stay where they are, and results come in delegation
      order: the trace after `k` delegations is a prefix of the final one. */
  lemma {:induction false} WalkPrefix(log0: seq<Message>, ds: seq<Delegation>, k: nat, workers: set<string>, work: Worker)
    requires k <= |ds|
    ensures Walk(log0, ds[..k], workers, work).log <= Walk(log0, ds, workers, work).log
    ensures Walk(log0, ds[..k], workers, work).results <= Walk(log0, ds, workers, work).results
    decreases |ds| - k
  {
    if k < |ds| {
      WalkUnfold(log0, ds, k, workers, work);
      WalkPrefix(log0, ds, k + 1, workers, work);
    } else {
      assert ds[..k] == ds;
    }
  }

  /** What was on the bus before the loop stays at its front. */
  lemma WalkExtendsLog(log0: seq<Message>, ds: seq<Delegation>, workers: set<string>, work: Worker)
    ensures log0 <= Walk(log0, ds, workers, work).log
  {
    WalkPrefix(log0, ds, 0, workers, work);
    assert ds[..0] == [];
  }

  /** The bus grows by two messages for a delegation to a registered worker and by one for
      an unregistered agent. */
  function Cost(ds: seq<Delegation>, workers: set<string>): nat {
    if ds == [] then 0
    else Cost(ds[..|ds| - 1], workers) + (if ds[|ds| - 1].agent in workers then 2 else 1)
  }

  /** When the loop completes, every delegation had a task, there is exactly one result
      per delegation, and the bus grew by `Cost`. */
  lemma {:induction false} WalkComplete(log0: seq<Message>, ds: seq<Delegation>, workers: set<string>, work: Worker)
    requires Walk(log0, ds, workers, work).failure.None?
    ensures forall k :: 0 <= k < |ds| ==> ds[k].task.Some?
    ensures |Walk(log0, ds, workers, work).results| == |ds|
    ensures |Walk(log0, ds, workers, work).log| == |log0| + Cost(ds, workers)
    decreases |ds|
  {
    if ds != [] {
      var init := ds[..|ds| - 1];
      WalkComplete(log0, init, workers, work);
      assert forall k :: 0 <= k < |init| ==> ds[k] == init[k];
    }
  }

  /** What delegation `k` contributes, once the loop got past it: a task message from the
      router; then, for an unregistered agent, the result `Error: Unknown agent '<name>'`
      and no result message; for a registered one, the result of the worker called with
      its context taken after the task message, and a result message carrying that text. */
  lemma WalkStep(log0: seq<Message>, ds: seq<Delegation>, k: nat, workers: set<string>, work: Worker)
    requires k < |ds| && Walk(log0, ds[..k + 1], workers, work).failure.None?
    ensures ds[k].task.Some?
    ensures var before := Walk(log0, ds[..k], workers, work);
            var after := Walk(log0, ds[..k + 1], workers, work);
            var log1 := before.log + [TaskMessage(ds[k])];
            && before.failure.None?
            && (ds[k].agent !in workers ==>
                  after.log == log1 && after.results == before.results + [UnknownAgentResult(ds[k].agent)])
            && (ds[k].agent in workers ==>
                  && TaskMessage(ds[k]) in ContextFor(log1, ds[k].agent)
                  && var reply := work(ds[k].agent, ds[k].task.value, ContextFor(log1, ds[k].agent));
                     reply.Reply?
                     && after.log == log1 + [ResultMessage(ds[k].agent, reply.text)]
                     && after.results == before.results + [reply.text])
  {
    WalkUnfold(log0, ds, k, workers, work);
    var before := Walk(log0, ds[..k], workers, work);
    ContextForLast(before.log, TaskMessage(ds[k]), ds[k].agent);
  }

  /** In a completed run, result `k` belongs to delegation `k`: the unknown-agent text for an
      unregistered agent, otherwise what the worker replied. */
  lemma WalkResultAt(log0: seq<Message>, ds: seq<Delegation>, k: nat, workers: set<string>, work: Worker)
    requires k < |ds| && Walk(log0, ds, workers, work).failure.None?
    ensures ds[k].task.Some? && |Walk(log0, ds, workers, work).results| == |ds|
    ensures var r := Walk(log0, ds, workers, work).results[k];
            var log1 := Walk(log0, ds[..k], workers, work).log + [TaskMessage(ds[k])];
            if ds[k].agent in workers then work(ds[k].agent, ds[k].task.value, ContextFor(log1, ds[k].agent)) == Reply(r)
            else r == UnknownAgentResult(ds[k].agent)
  {
    WalkComplete(log0, ds, workers, work);
    if Walk(log0, ds[..k + 1], workers, work).failure.Some? {
      WalkSticky(log0, ds, k + 1, workers, work);
      assert false;
    }
    WalkStep(log0, ds, k, workers, work);
    WalkPrefix(log0, ds, k + 1, workers, work);
    WalkComplete(log0, ds[..k], workers, work);
  }

  /** The first delegation without a task, if any. */
  function FirstMissing(ds: seq<Delegation>): (r: Option<nat>)
    ensures r.Some? ==> r.value < |ds| && ds[r.value].task.None?
                        && forall k :: 0 <= k < r.value ==> ds[k].task.Some?
    ensures r.None? ==> forall k :: 0 <= k < |ds| ==> ds[k].task.Some?
  {
    if ds == [] then None
    else if ds[0].task.None? then Some(0)
    else match FirstMissing(ds[1..])
      case None => None
      case Some(i) => Some(i + 1)
  }

  /** How a run of the swarm ends: with the synthesized answer or with an exception. */
  datatype RunOutcome = Done(answer: string) | Raised(failure: Failure)

  /** The reference for `SwarmOrchestrator.execute` on a bus holding `log0`: the outcome
      and the bus log afterwards. With `verbose` the plan is printed first, and printing a
      delegation without a task raises before anything is sent. */
  function Run(log0: seq<Message>, ds: seq<Delegation>, verbose: bool, router: string -> string,
               workers: set<string>, work: Worker): (RunOutcome, seq<Message>)
  {
    if verbose && FirstMissing(ds).Some? then
      (Raised(MissingTask(ds[FirstMissing(ds).value].agent)), log0)
    else
      var t := Walk(log0, ds, workers, work);
      if t.failure.Some? then (Raised(t.failure.value), t.log)
      else
        WalkComplete(log0, ds, workers, work);
        (Done(router(SynthesisPrompt(ds, t.results))), t.log)
  }

  /** `SwarmOrchestrator`: the bus and the registered worker roles. */
  class SwarmOrchestrator {
    const bus: MessageBus
    const workers: set<string>

    constructor()
      ensures fresh(bus) && bus.messages == [] && workers == Registry
    {
      bus := new MessageBus();
      workers := Registry;
    }

    /** `SwarmOrchestrator.execute`: plan, run each delegation over the bus, synthesize.
        `router` is the router's completion function and `work` the workers' `execute`.
        `verbose` defaults to `True` in `execute`, so a plain `execute(task)` is
        `Execute(task, true, …)`: a plan with a task-less delegation then raises before any
        message is sent (`RunMissingTask`). */
    method Execute(userTask: string, verbose: bool, router: string -> string, work: Worker)
      returns (outcome: RunOutcome)
      modifies bus
      ensures (outcome, bus.messages)
           == Run(old(bus.messages), PlanOf(router(userTask), userTask), verbose, router, workers, work)
    {
      var delegations := AnalyzeAndDelegate(userTask, router);
      outcome := ExecutePlan(delegations, verbose, router, work);
    }

    /** Steps 2 and 3 of `SwarmOrchestrator.execute` for the plan the router made. */
    method ExecutePlan(delegations: seq<Delegation>, verbose: bool, router: string -> string, work: Worker)
      returns (outcome: RunOutcome)
      modifies bus
      ensures (outcome, bus.messages) == Run(old(bus.messages), delegations, verbose, router, workers, work)
    {
      if verbose {
        for i := 0 to |delegations|
          invariant forall k :: 0 <= k < i ==> delegations[k].task.Some?
        {
          if delegations[i].task.None? {
            return Raised(MissingTask(delegations[i].agent));
          }
        }
      }
      var results, failure := RunDelegations(delegations, work);
      if failure.Some? {
        return Raised(failure.value);
      }
      WalkComplete(old(bus.messages), delegations, workers, work);
      var finalResult := SynthesizeResults(delegations, results, router);
      outcome := Done(finalResult);
    }

    /** The delegation loop of `SwarmOrchestrator.execute` (step 2): for each delegation in
        order, a task message, then the worker's result or the unknown-agent text. An
        exception (the `KeyError` of a missing task, or one a worker raises) ends the loop
        and is returned in `failure`. */
    method RunDelegations(delegations: seq<Delegation>, work: Worker)
      returns (results: seq<string>, failure: Option<Failure>)
      modifies bus
      ensures Trace(bus.messages, results, failure) == Walk(old(bus.messages), delegations, workers, work)
    {
      ghost var log0 := bus.messages;
      results := [];
      for i := 0 to |delegations|
        invariant Walk(log0, delegations[..i], workers, work) == Trace(bus.messages, results, None)
      {
        WalkUnfold(log0, delegations, i, workers, work);
        var agentName := delegations[i].agent;
        if delegations[i].task.None? {
          WalkSticky(log0, delegations, i + 1, workers, work);
          return results, Some(MissingTask(agentName));
        }
        var agentTask := delegations[i].task.value;
        bus.Send("router", agentName, "task", agentTask);
        if agentName !in workers {
          results := results + [UnknownAgentResult(agentName)];
          continue;
        }
        var context := bus.GetContextFor(agentName);
        var reply := work(agentName, agentTask, context);
        if reply.Threw? {
          WalkSticky(log0, delegations, i + 1, workers, work);
          return results, Some(WorkerRaised(agentName, reply.error));
        }
        results := results + [reply.text];
        bus.Send(agentName, "router", "result", reply.text);
      }
      assert delegations[..|delegations|] == delegations;
      failure := None;
    }

    /** `SwarmOrchestrator.get_message_log`: the bus log's messages in order. */
    method GetMessageLog() returns (r: seq<Message>)
      ensures r == bus.messages
    {
      r := bus.GetAllMessages();
    }

    /** `SwarmOrchestrator.reset`, as far as the bus goes: the log is emptied. */
    method Reset()
      modifies bus
      ensures bus.messages == []
    {
      bus.Clear();
    }
  }

  /** A run never removes or rewrites what was on the bus: the log is not cleared between
      runs, only by `Reset`. */
  lemma RunKeepsLog(log0: seq<Message>, ds: seq<Delegation>, verbose: bool, router: string -> string,
                    workers: set<string>, work: Worker)
    ensures log0 <= Run(log0, ds, verbose, router, workers, work).1
  {
    WalkExtendsLog(log0, ds, workers, work);
  }

  /** With `verbose`, a plan holding a delegation without a task raises before any message
      is sent; without it, the delegations before that one are run first. */
  lemma RunMissingTask(log0: seq<Message>, ds: seq<Delegation>, verbose: bool, router: string -> string,
                       workers: set<string>, work: Worker)
    requires FirstMissing(ds).Some?
    ensures var k := FirstMissing(ds).value;
            var run := Run(log0, ds, verbose, router, workers, work);
            && run.0.Raised?
            && (verbose ==> run == (Raised(MissingTask(ds[k].agent)), log0))
            && (!verbose && Walk(log0, ds[..k], workers, work).failure.None? ==>
                  run == (Raised(MissingTask(ds[k].agent)), Walk(log0, ds[..k], workers, work).log))
  {
    var k := FirstMissing(ds).value;
    if !verbose {
      if Walk(log0, ds, workers, work).failure.None? {
        WalkComplete(log0, ds, workers, work);
        assert false;
      }
      if Walk(log0, ds[..k], workers, work).failure.None? {
        WalkUnfold(log0, ds, k, workers, work);
        WalkSticky(log0, ds, k + 1, workers, work);
      }
    }
  }

  /** A completed run answers with the router's completion of the synthesis prompt over the
      plan and one result per delegation, and leaves the bus grown by `Cost` of the plan. */
  lemma RunCompleted(log0: seq<Message>, ds: seq<Delegation>, verbose: bool, router: string -> string,
                     workers: set<string>, work: Worker)
    requires Run(log0, ds, verbose, router, workers, work).0.Done?
    ensures var t := Walk(log0, ds, workers, work);
            && t.failure.None? && |t.results| == |ds| && Pairable(ds, t.results)
            && Run(log0, ds, verbose, router, workers, work) == (Done(router(SynthesisPrompt(ds, t.results))), t.log)
            && |t.log| == |log0| + Cost(ds, workers)
  {
    WalkComplete(log0, ds, workers, work);
  }
}
