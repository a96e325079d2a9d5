// The worker's executeRun (services/worker/internal/engine/engine.go:543-767) as a
// straight line of atomic actions. Every branch of the source replaces the rest of the
// line: after the setup, after each read of the cancel key, after the executor, after a
// rollback. The same lines drive the sequential worker (WorkerAlone, Platform) and the
// interleaved protocol (RunProtocol).

module WorkerProgram {
  import opened Basics
  import opened RunTables
  import opened StreamEvents
  import Text

  /** How the sandbox step of executeRun comes out. */
  datatype Sandbox = NotUsed | AllocationFailed | Unavailable | Allocated

  datatype Setup = Setup(sandbox: Sandbox, envBroken: bool, executor: bool)

  /** An event as the executor reports it. */
  datatype Draft = Draft(name: string, data: string)

  datatype Result = Result(status: Status, events: seq<Draft>)

  /** The executor contract: one of the four terminal statuses, and no terminal event of its own. */
  predicate LegalResult(result: Result)
  {
    && Terminal(result.status)
    && forall d :: d in result.events ==> !IsTerminalText(Text.Trim(d.name, Text.GoSpace))
  }

  datatype EnqueueStage = ReadUrl | LookForDelivery | Insert

  datatype Instr =
    | Emit(name: Name, data: string)
    | PublishEvent(event: Event)
    | PushEvent(event: Event)
    | WriteResult(status: Status)
    | WriteCron(cron: CronStatus)
    | EnqueueWebhook(stage: EnqueueStage)
    | ReadCancelFirst(executor: bool)
    | Execute
    | ReadCancelLast(result: Result)
    | RollBack
    | DropList
    | DropCancelKey

  datatype Program = Stop | Do(head: Instr, rest: Program)

  /** A lifecycle event; its JSON payload is not modelled. */
  function Notify(name: Name): Instr { Emit(name, "") }

  function TerminalName(status: Status): Name
  {
    match status
    case Interrupted => RunInterrupted
    case Success => RunCompleted
    case _ => RunFailed
  }

  /** Result, cron status, terminal event, webhook, and the deferred delete of the cancel key. */
  function Finish(status: Status, name: Name): Program
  {
    Do(WriteResult(status), Do(WriteCron(Finished(status)), Do(Notify(name), Do(EnqueueWebhook(ReadUrl), Do(DropCancelKey, Stop)))))
  }

  function AfterSandbox(setup: Setup): Program
  {
    Do(Notify(RunStarted), if setup.envBroken then Finish(Error, RunFailed) else Do(ReadCancelFirst(setup.executor), Stop))
  }

  /** The whole program up to the first branch that depends on shared state. */
  function Begin(setup: Setup): Program
  {
    match setup.sandbox
    case AllocationFailed => Finish(Error, RunAllocationFailed)
    case Unavailable => Finish(Error, RunFailed)
    case Allocated => Do(Notify(RunAllocated), AfterSandbox(setup))
    case NotUsed => AfterSandbox(setup)
  }

  function AfterFirstRead(action: Option<Action>, executor: bool): Program
  {
    match action
    case Some(CancelRollback) => Do(RollBack, Stop)
    case Some(CancelInterrupt) => Finish(Interrupted, RunInterrupted)
    case None => if executor then Do(Execute, Stop) else Finish(Error, RunFailed)
  }

  /** Executor events with a blank name are dropped, the others are sent under their trimmed name. */
  function Relay(events: seq<Draft>, rest: Program): Program
  {
    if events == [] then rest
    else
      var name := Text.Trim(events[0].name, Text.GoSpace);
      var later := Relay(events[1..], rest);
      if name == "" then later else Do(Emit(Custom(name), events[0].data), later)
  }

  function AfterLastRead(action: Option<Action>, result: Result): Program
  {
    if action == Some(CancelRollback) then Do(RollBack, Stop)
    else
      var status := if action == Some(CancelInterrupt) then Interrupted else result.status;
      Relay(result.events, Finish(status, TerminalName(status)))
  }

  function AfterRollBack(committed: bool): Program
  {
    if committed then Do(WriteCron(RolledBack), Do(Notify(RunRolledBack), Do(DropList, Do(DropCancelKey, Stop))))
    else Do(DropCancelKey, Stop)
  }

  // ---------------------------------------------------------------------------
  // Shape
  // ---------------------------------------------------------------------------

  /** The worker still has a read of the cancel key ahead of it. */
  predicate Reads(i: Instr) { i.ReadCancelFirst? || i.Execute? || i.ReadCancelLast? }

  predicate Branch(i: Instr) { Reads(i) || i.RollBack? }

  /** Neither branches, nor writes the result, nor enqueues. */
  predicate Quiet(p: Program)
  {
    p.Do? ==> !Branch(p.head) && !p.head.WriteResult? && !p.head.EnqueueWebhook? && Quiet(p.rest)
  }

  /** The result is written; at most one webhook is still to come. */
  predicate Closing(p: Program)
  {
    p.Do? ==>
      if p.head.EnqueueWebhook? then Quiet(p.rest)
      else !Branch(p.head) && !p.head.WriteResult? && Closing(p.rest)
  }

  /** Emissions, then either one branch or one result, one webhook, and nothing more. */
  predicate Shape(p: Program)
  {
    p.Do? ==>
      if Branch(p.head) then p.rest.Stop? && (p.head.ReadCancelLast? ==> LegalResult(p.head.result))
      else if p.head.WriteResult? then Terminal(p.head.status) && Closing(p.rest)
      else if p.head.EnqueueWebhook? then Quiet(p.rest)
      else Shape(p.rest)
  }

  /** The next thing that counts is the webhook: the result must have been written. */
  predicate ResultWritten(p: Program)
  {
    p.Do? && !Branch(p.head) && !p.head.WriteResult? && (p.head.EnqueueWebhook? || ResultWritten(p.rest))
  }

  /** A program fit to be handed to a worker whose run is still running. */
  predicate Fit(p: Program) { p.Do? && Shape(p) && !ResultWritten(p) }

  lemma {:induction false} ClosingHasShape(p: Program)
    requires Closing(p)
    ensures Shape(p)
  {
    if p.Do? && !p.head.EnqueueWebhook? {
      ClosingHasShape(p.rest);
    }
  }

  lemma {:induction false} QuietHasShape(p: Program)
    requires Quiet(p)
    ensures Closing(p) && Shape(p) && !ResultWritten(p)
  {
    if p.Do? {
      QuietHasShape(p.rest);
    }
  }

  lemma FinishIsFit(status: Status, name: Name)
    requires Terminal(status)
    ensures Fit(Finish(status, name))
  {
    var last := Do(DropCancelKey, Stop);
    assert Closing(Do(Notify(name), Do(EnqueueWebhook(ReadUrl), last)));
  }

  lemma {:induction false} RelayIsFit(events: seq<Draft>, rest: Program)
    requires Fit(rest)
    ensures Fit(Relay(events, rest))
  {
    if events != [] {
      RelayIsFit(events[1..], rest);
    }
  }

  lemma BeginIsFit(setup: Setup)
    ensures Fit(Begin(setup))
  {
    FinishIsFit(Error, RunAllocationFailed);
    FinishIsFit(Error, RunFailed);
    assert Fit(AfterSandbox(setup));
  }

  lemma AfterFirstReadIsFit(action: Option<Action>, executor: bool)
    ensures Fit(AfterFirstRead(action, executor))
  {
    FinishIsFit(Error, RunFailed);
    FinishIsFit(Interrupted, RunInterrupted);
  }

  lemma AfterLastReadIsFit(action: Option<Action>, result: Result)
    requires LegalResult(result)
    ensures Fit(AfterLastRead(action, result))
  {
    var status := if action == Some(CancelInterrupt) then Interrupted else result.status;
    FinishIsFit(status, TerminalName(status));
    RelayIsFit(result.events, Finish(status, TerminalName(status)));
  }

  lemma AfterRollBackIsQuiet(committed: bool)
    ensures Quiet(AfterRollBack(committed)) && Fit(AfterRollBack(committed))
  {
    assert Quiet(Do(Notify(RunRolledBack), Do(DropList, Do(DropCancelKey, Stop))));
    QuietHasShape(AfterRollBack(committed));
  }
}
