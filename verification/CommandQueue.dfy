/** How commands from other threads reach the network thread: the queue, the wake pipe and closing, step by step. */
module CommandQueue {
  /** One call of `run`, or of `stop` when it asks the engine to shut down. */
  datatype Task = Task(id: nat, stop: bool)

  /** What became of a task: run on the network thread, or refused with a state error. */
  datatype Outcome = Ran | Refused

  datatype Done = Done(task: Task, outcome: Outcome)

  /** A caller that queued its task writes the pipe, then waits for the result, then has it. */
  datatype Caller = Waking | Waiting | Returned(outcome: Outcome)

  /** Where the network thread is in its loop. */
  datatype Phase =
    | Polling                        // in poll
    | Reading                        // emptying the wake pipe
    | Swapping                       // about to take the queue
    | Running(batch: seq<Task>)      // running what it took, then the rest of the iteration
    | Closing                        // left the loop
    | Abandoning(batch: seq<Task>)   // refusing what was still queued
    | Over

  /**
   * `queue`, `closed` and `pipe` are shared; `accepted` lists what was ever queued and `finished` what is settled, in
   * order.
   */
  datatype Engine = Engine(queue: seq<Task>, closed: bool, pipe: nat, stopping: bool, phase: Phase,
                           callers: map<Task, Caller>, accepted: seq<Task>, finished: seq<Done>)

  const START: Engine := Engine([], false, 0, false, Polling, map[], [], [])

  /** One atomic step of a caller or of the network thread. */
  datatype Action =
    | Submit(task: Task)             // lock, then queue it or be refused
    | Write(task: Task, full: bool)  // wake: a full pipe takes nothing more
    | Collect(task: Task)            // the result arrives
    | Inline(task: Task)             // a command from the event callback, already on the network thread
    | Post                           // another thread wakes the loop
    | Wakes                          // poll returns
    | Read(count: nat)
    | ReadNothing
    | Swap
    | RunFirst
    | Leave(stop: bool)              // the end of an iteration
    | Close
    | AbandonFirst                   // a stop runs even now; anything else is refused
    | End

  predicate Settled(e: Engine, task: Task) {
    exists i :: 0 <= i < |e.finished| && e.finished[i].task == task
  }

  predicate Enabled(e: Engine, a: Action) {
    match a
    case Submit(t) => t !in e.callers
    case Write(t, full) => t in e.callers && e.callers[t] == Waking && (full ==> e.pipe > 0)
    case Collect(t) => t in e.callers && e.callers[t] == Waiting && Settled(e, t)
    case Inline(t) => t !in e.callers && e.phase.Running?
    case Post => true
    case Wakes => e.phase == Polling
    case Read(count) => e.phase == Reading && 0 < count <= e.pipe
    case ReadNothing => e.phase == Reading && e.pipe == 0
    case Swap => e.phase == Swapping
    case RunFirst => e.phase.Running? && e.phase.batch != []
    case Leave(stop) => e.phase.Running? && e.phase.batch == [] && (stop ==> e.stopping)
    case Close => e.phase == Closing
    case AbandonFirst => e.phase.Abandoning? && e.phase.batch != []
    case End => e.phase.Abandoning? && e.phase.batch == []
  }

  function OutcomeOf(finished: seq<Done>, task: Task): Outcome {
    if finished == [] then Refused
    else if finished[0].task == task then finished[0].outcome
    else OutcomeOf(finished[1..], task)
  }

  /** The command of `stop` shuts the agent down whether it is run or abandoned. */
  function AbandonedOutcome(t: Task): Outcome { if t.stop then Ran else Refused }

  function Next(e: Engine, a: Action): Engine
    requires Enabled(e, a)
  {
    match a
    case Submit(t) =>
      if e.closed then e.(callers := e.callers[t := Returned(Refused)])
      else e.(queue := e.queue + [t], accepted := e.accepted + [t], callers := e.callers[t := Waking])
    case Write(t, full) => e.(pipe := if full then e.pipe else e.pipe + 1, callers := e.callers[t := Waiting])
    case Collect(t) => e.(callers := e.callers[t := Returned(OutcomeOf(e.finished, t))])
    case Inline(t) => e.(callers := e.callers[t := Returned(Ran)], stopping := e.stopping || t.stop)
    case Post => e.(pipe := e.pipe + 1)
    case Wakes => e.(phase := Reading)
    case Read(count) => e.(pipe := e.pipe - count)
    case ReadNothing => e.(phase := Swapping)
    case Swap => e.(phase := Running(e.queue), queue := [])
    case RunFirst =>
      e.(phase := Running(e.phase.batch[1..]), finished := e.finished + [Done(e.phase.batch[0], Ran)],
         stopping := e.stopping || e.phase.batch[0].stop)
    case Leave(stop) => e.(phase := if stop then Closing else Polling)
    case Close => e.(closed := true, phase := Abandoning(e.queue), queue := [])
    case AbandonFirst =>
      var t := e.phase.batch[0];
      e.(phase := Abandoning(e.phase.batch[1..]), finished := e.finished + [Done(t, AbandonedOutcome(t))],
         stopping := e.stopping || t.stop)
    case End => e.(phase := Over)
  }

  // ---- What always holds ----

  function Batch(p: Phase): seq<Task> {
    if p.Running? || p.Abandoning? then p.batch else []
  }

  function Tasks(finished: seq<Done>): seq<Task> {
    seq(|finished|, i requires 0 <= i < |finished| => finished[i].task)
  }

  predicate Distinct(tasks: seq<Task>) {
    forall i, j :: 0 <= i < j < |tasks| ==> tasks[i] != tasks[j]
  }

  /** Accepted tasks are settled, taken or queued, once each and in the order of acceptance. */
  ghost predicate InOrder(e: Engine) {
    e.accepted == Tasks(e.finished) + Batch(e.phase) + e.queue && Distinct(e.accepted)
  }

  /** After closing nothing is queued, and only then is anything refused. */
  ghost predicate Shut(e: Engine) {
    && (e.closed <==> e.phase.Abandoning? || e.phase == Over)
    && (e.closed ==> e.queue == [])
    && (e.closed || e.phase == Closing ==> e.stopping)
    && (!e.closed ==> forall i :: 0 <= i < |e.finished| ==> e.finished[i].outcome == Ran)
    && (forall i :: 0 <= i < |e.finished| && e.finished[i].task.stop ==> e.finished[i].outcome == Ran)
  }

  /** Someone has queued a task and not yet written the pipe. */
  ghost predicate SomeoneWaking(e: Engine) {
    exists t :: t in e.callers && e.callers[t] == Waking
  }

  /** A task left for a later iteration is announced by the pipe, or is about to be. */
  ghost predicate Announced(e: Engine) {
    (e.phase == Polling || e.phase.Running?) && e.queue != [] ==> e.pipe > 0 || SomeoneWaking(e)
  }

  /** Callers wait for what they queued, and have the outcome their task was settled with. */
  ghost predicate Matching(e: Engine) {
    && (forall t :: t in e.accepted ==> t in e.callers)
    && (forall t :: t in e.callers && !e.callers[t].Returned? ==> t in e.accepted)
    && (forall t :: t in e.callers && e.callers[t].Returned? && t in e.accepted ==>
        Done(t, e.callers[t].outcome) in e.finished)
  }

  ghost predicate Inv(e: Engine) { InOrder(e) && Shut(e) && Announced(e) && Matching(e) }

  lemma SettledOutcome(finished: seq<Done>, task: Task)
    requires exists i :: 0 <= i < |finished| && finished[i].task == task
    ensures Done(task, OutcomeOf(finished, task)) in finished
  {
    if finished[0].task != task {
      var i :| 0 <= i < |finished| && finished[i].task == task;
      assert finished[1..][i - 1].task == task;
      SettledOutcome(finished[1..], task);
    }
  }

  // ---- Order ----

  /** Settling the first task of the batch. */
  lemma SettleFirst(finished: seq<Done>, batch: seq<Task>, queue: seq<Task>, outcome: Outcome)
    requires batch != []
    ensures Tasks(finished + [Done(batch[0], outcome)]) + batch[1..] + queue == Tasks(finished) + batch + queue
  {
    assert Tasks(finished + [Done(batch[0], outcome)]) == Tasks(finished) + [batch[0]];
    assert batch == [batch[0]] + batch[1..];
  }

  lemma TakeAll(front: seq<Task>, queue: seq<Task>)
    ensures front + [] + queue == front + queue + []
  {
  }

  lemma QueueOne(front: seq<Task>, batch: seq<Task>, queue: seq<Task>, t: Task)
    ensures front + batch + (queue + [t]) == front + batch + queue + [t]
  {
  }

  lemma DistinctAppend(tasks: seq<Task>, t: Task)
    requires Distinct(tasks) && t !in tasks
    ensures Distinct(tasks + [t])
  {
  }

  lemma StepInOrder(e: Engine, a: Action)
    requires InOrder(e) && Matching(e) && Enabled(e, a)
    ensures InOrder(Next(e, a))
  {
    match a {
      case Submit(t) =>
        QueueOne(Tasks(e.finished), Batch(e.phase), e.queue, t);
        DistinctAppend(e.accepted, t);
      case Swap => TakeAll(Tasks(e.finished), e.queue);
      case Close => TakeAll(Tasks(e.finished), e.queue);
      case RunFirst => SettleFirst(e.finished, e.phase.batch, e.queue, Ran);
      case AbandonFirst => SettleFirst(e.finished, e.phase.batch, e.queue, AbandonedOutcome(e.phase.batch[0]));
      case _ =>
    }
  }

  lemma StepShut(e: Engine, a: Action)
    requires Shut(e) && Enabled(e, a)
    ensures Shut(Next(e, a))
  {
  }

  // ---- Waking ----

  lemma StillWaking(e: Engine, d: Engine, t: Task)
    requires t in e.callers && e.callers[t] == Waking && t in d.callers && d.callers[t] == e.callers[t]
    ensures SomeoneWaking(d)
  {
  }

  lemma StepAnnounced(e: Engine, a: Action)
    requires Announced(e) && Enabled(e, a)
    ensures Announced(Next(e, a))
  {
    var d := Next(e, a);
    match a {
      case Submit(t) =>
        if !e.closed {
          assert d.callers[t] == Waking;
        } else if SomeoneWaking(e) {
          var w :| w in e.callers && e.callers[w] == Waking;
          StillWaking(e, d, w);
        }
      case Collect(t) =>
        if SomeoneWaking(e) {
          var w :| w in e.callers && e.callers[w] == Waking;
          StillWaking(e, d, w);
        }
      case Inline(t) =>
        if SomeoneWaking(e) {
          var w :| w in e.callers && e.callers[w] == Waking;
          StillWaking(e, d, w);
        }
      case _ =>
    }
  }

  lemma StepMatching(e: Engine, a: Action)
    requires Matching(e) && Enabled(e, a)
    ensures Matching(Next(e, a))
  {
    match a {
      case Collect(t) => SettledOutcome(e.finished, t);
      case _ =>
    }
  }

  lemma StepInv(e: Engine, a: Action)
    requires Inv(e) && Enabled(e, a)
    ensures Inv(Next(e, a))
  {
    StepInOrder(e, a);
    StepShut(e, a);
    StepAnnounced(e, a);
    StepMatching(e, a);
  }

  // ---- Runs ----

  predicate Possible(e: Engine, actions: seq<Action>)
    decreases |actions|
  {
    actions == [] || (Enabled(e, actions[0]) && Possible(Next(e, actions[0]), actions[1..]))
  }

  function Run(e: Engine, actions: seq<Action>): Engine
    requires Possible(e, actions)
    decreases |actions|
  {
    if actions == [] then e else Run(Next(e, actions[0]), actions[1..])
  }

  lemma {:induction false} RunInv(e: Engine, actions: seq<Action>)
    requires Inv(e) && Possible(e, actions)
    ensures Inv(Run(e, actions))
    decreases |actions|
  {
    if actions != [] {
      StepInv(e, actions[0]);
      RunInv(Next(e, actions[0]), actions[1..]);
    }
  }

  /**
   * Under every interleaving: tasks are settled in the order they were accepted and never twice; whoever has a result
   * for an accepted task has the one it was settled with; in poll with a task queued, the pipe is not empty or someone
   * is about to write it; and refusals happen only after closing, never to a stop that was accepted.
   */
  lemma HandedOverOnce(actions: seq<Action>)
    requires Possible(START, actions)
    ensures var e := Run(START, actions);
            && Tasks(e.finished) <= e.accepted && Distinct(Tasks(e.finished))
            && (forall t :: t in e.callers && e.callers[t].Returned? && t in e.accepted ==>
                  Done(t, e.callers[t].outcome) in e.finished)
            && (e.phase == Polling && e.queue != [] ==> e.pipe > 0 || SomeoneWaking(e))
            && (forall i :: 0 <= i < |e.finished| && (!e.closed || e.finished[i].task.stop) ==>
                e.finished[i].outcome == Ran)
  {
    RunInv(START, actions);
    var e := Run(START, actions);
    var done := Tasks(e.finished);
    assert e.accepted[..|done|] == done;
    forall i, j | 0 <= i < j < |done| ensures done[i] != done[j] {
      assert done[i] == e.accepted[i] && done[j] == e.accepted[j];
    }
  }

  /** When the network thread is over, every accepted task has been settled, so no caller waits in vain. */
  lemma NobodyWaitsForever(actions: seq<Action>)
    requires Possible(START, actions) && Run(START, actions).phase == Over
    ensures var e := Run(START, actions);
            && e.accepted == Tasks(e.finished)
            && forall t :: t in e.callers && e.callers[t] == Waiting ==> Enabled(e, Collect(t))
  {
    RunInv(START, actions);
    var e := Run(START, actions);
    assert e.accepted == Tasks(e.finished) + [] + [];
    forall t | t in e.callers && e.callers[t] == Waiting ensures Enabled(e, Collect(t)) {
      var i :| 0 <= i < |e.accepted| && e.accepted[i] == t;
      assert e.finished[i].task == t;
    }
  }

  /** Once closed the engine stays closed and accepts nothing more. */
  lemma {:induction false} NothingAfterClosing(e: Engine, actions: seq<Action>)
    requires Inv(e) && e.closed && Possible(e, actions)
    ensures Run(e, actions).closed && Run(e, actions).accepted == e.accepted
    decreases |actions|
  {
    if actions != [] {
      StepInv(e, actions[0]);
      NothingAfterClosing(Next(e, actions[0]), actions[1..]);
    }
  }
}
