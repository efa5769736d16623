/**
 * Synchronous calls on the UI worker and the one-job-at-a-time rule (main/ui.c:
 * `ui_run_on_worker`, `queue_ui_job`, `worker`). Callers are any number of tasks;
 * UI jobs come from the display task alone. Every semaphore or queue operation is a
 * step, and every wait may time out where the code lets it.
 */
module UiCalls {
  import opened Bytes

  const QUEUE_LENGTH: nat := 4

  /** One invocation of ui_run_on_worker. */
  type Call = nat

  datatype Job = Run(call: Call) | Ui | Internal

  datatype Phase =
    | Locking              // waiting for s_call_lock
    | Draining             // about to drop a stale completion
    | Sending              // waiting for room in the queue
    | Waiting              // accepted; waits however long it takes
    | Unlocking(result: bool)
    | Returned(result: bool)

  datatype Worker =
    | Idle
    | Running(job: Job)
    | Completing(job: Job)  // the job is over; its completion is still to be signalled

  /** queue_ui_job on the display task: the flag is set before the send and taken back if it fails. */
  datatype Admission = Free | Admitting | Withdrawing

  /** A call: where it is, and how often its function was started and finished. */
  datatype Caller = Caller(phase: Phase, starts: nat, ends: nat)

  /** Where the accepted job of the caller holding the lock is. The code never reads it. */
  datatype Place = Nowhere | Queued | InRunning | InCompleting | Signalled

  datatype State = State(
    calls: map<Call, Caller>, lock: Option<Call>, done: bool,
    queue: seq<Job>, worker: Worker, admission: Admission, busy: bool, place: Place)

  const START := State(map[], None, false, [], Idle, Free, false, Nowhere)

  datatype Step =
    | Enter(c: Call)
    | Lock(c: Call) | GiveUpLock(c: Call)
    | Drain(c: Call)
    | Send(c: Call) | GiveUpSend(c: Call)
    | TakeDone(c: Call)
    | Unlock(c: Call)
    | Admit | SendUi | RefuseUi | Withdraw
    | SendInternal
    | Receive | Finish | Signal

  predicate In(s: State, c: Call, p: Phase) { c in s.calls && s.calls[c].phase == p }
  predicate Room(s: State) { |s.queue| < QUEUE_LENGTH }

  predicate Enabled(s: State, step: Step) {
    match step
    case Enter(c) => c !in s.calls
    case Lock(c) => In(s, c, Locking) && s.lock == None
    case GiveUpLock(c) => In(s, c, Locking)
    case Drain(c) => In(s, c, Draining)
    case Send(c) => In(s, c, Sending) && Room(s)
    case GiveUpSend(c) => In(s, c, Sending)
    case TakeDone(c) => In(s, c, Waiting) && s.done
    case Unlock(c) => c in s.calls && s.calls[c].phase.Unlocking?
    case Admit => s.admission == Free && !s.busy
    case SendUi => s.admission == Admitting && Room(s)
    case RefuseUi => s.admission == Admitting
    case Withdraw => s.admission == Withdrawing
    case SendInternal => Room(s)
    case Receive => s.worker == Idle && s.queue != []
    case Finish => s.worker.Running?
    case Signal => s.worker.Completing?
  }

  function Set(s: State, c: Call, p: Phase): State
    requires c in s.calls
  {
    s.(calls := s.calls[c := s.calls[c].(phase := p)])
  }

  function Started(calls: map<Call, Caller>, job: Job): map<Call, Caller> {
    if job.Run? && job.call in calls
    then calls[job.call := calls[job.call].(starts := calls[job.call].starts + 1)] else calls
  }

  function Ended(calls: map<Call, Caller>, job: Job): map<Call, Caller> {
    if job.Run? && job.call in calls
    then calls[job.call := calls[job.call].(ends := calls[job.call].ends + 1)] else calls
  }

  function Next(s: State, step: Step): State
    requires Enabled(s, step)
  {
    match step
    case Enter(c) => s.(calls := s.calls[c := Caller(Locking, 0, 0)])
    case Lock(c) => Set(s, c, Draining).(lock := Some(c))
    case GiveUpLock(c) => Set(s, c, Returned(false))
    case Drain(c) => Set(s, c, Sending).(done := false)
    case Send(c) => Set(s, c, Waiting).(queue := s.queue + [Run(c)], place := Queued)
    case GiveUpSend(c) => Set(s, c, Unlocking(false))
    case TakeDone(c) => Set(s, c, Unlocking(true)).(done := false, place := Nowhere)
    case Unlock(c) => Set(s, c, Returned(s.calls[c].phase.result)).(lock := None)
    case Admit => s.(busy := true, admission := Admitting)
    case SendUi => s.(queue := s.queue + [Ui], admission := Free)
    case RefuseUi => s.(admission := Withdrawing)
    case Withdraw => s.(busy := false, admission := Free)
    case SendInternal => s.(queue := s.queue + [Internal])
    case Receive =>
      var job := s.queue[0];
      s.(queue := s.queue[1..], worker := Running(job), calls := Started(s.calls, job),
         place := if job.Run? then InRunning else s.place)
    case Finish =>
      var job := s.worker.job;
      s.(worker := Completing(job), calls := Ended(s.calls, job), place := if job.Run? then InCompleting else s.place)
    case Signal =>
      var job := s.worker.job;
      s.(worker := Idle, done := s.done || job.Run?, busy := s.busy && job != Ui,
         place := if job.Run? then Signalled else s.place)
  }

  // ---------------- the invariant ----------------

  /** The calls with a job in the queue, in order. */
  function RunsIn(queue: seq<Job>): seq<Call> {
    if queue == [] then [] else (if queue[0].Run? then [queue[0].call] else []) + RunsIn(queue[1..])
  }

  function UisIn(queue: seq<Job>): nat {
    if queue == [] then 0 else (if queue[0] == Ui then 1 else 0) + UisIn(queue[1..])
  }

  lemma {:induction false} InSnoc(queue: seq<Job>, job: Job)
    ensures RunsIn(queue + [job]) == RunsIn(queue) + (if job.Run? then [job.call] else [])
    ensures UisIn(queue + [job]) == UisIn(queue) + (if job == Ui then 1 else 0)
    decreases queue
  {
    if queue == [] {
      assert queue + [job] == [job] && [job][1..] == [];
    } else {
      InSnoc(queue[1..], job);
      assert (queue + [job])[1..] == queue[1..] + [job];
    }
  }

  predicate WorkerHas(w: Worker, job: Job) { w == Running(job) || w == Completing(job) }

  /** What each phase of a call says about its lock and its function. */
  predicate PhaseOk(c: Caller, holds: bool, place: Place) {
    match c.phase
    case Locking => !holds && c.starts == c.ends == 0
    case Draining => holds && c.starts == c.ends == 0 && place == Nowhere
    case Sending => holds && c.starts == c.ends == 0 && place == Nowhere
    case Waiting =>
      && holds && place != Nowhere
      && c.starts == (if place == Queued then 0 else 1)
      && c.ends == (if place == InCompleting || place == Signalled then 1 else 0)
    case Unlocking(r) => holds && place == Nowhere && c.starts == c.ends == (if r then 1 else 0)
    case Returned(r) => !holds && c.starts == c.ends == (if r then 1 else 0)
  }

  /** The job of the caller holding the lock is where `place` says, and no other call has one. */
  predicate PlaceOk(s: State) {
    && (s.place != Nowhere ==> s.lock.Some?)
    && RunsIn(s.queue) == (if s.place == Queued then [s.lock.value] else [])
    && (!s.worker.Idle? && s.worker.job.Run? ==>
          s.lock == Some(s.worker.job.call) && s.place == (if s.worker.Running? then InRunning else InCompleting))
    && (s.place == InRunning ==> s.worker == Running(Run(s.lock.value)))
    && (s.place == InCompleting ==> s.worker == Completing(Run(s.lock.value)))
    && (s.done <==> s.place == Signalled)
  }

  predicate CallsOk(s: State) {
    && PlaceOk(s)
    && (s.lock.Some? ==> s.lock.value in s.calls)
    && forall c :: c in s.calls ==> PhaseOk(s.calls[c], s.lock == Some(c), s.place)
  }

  /** The flag is up exactly while one UI job is being admitted, queued or run. */
  predicate BusyOk(s: State) {
    (if s.busy then 1 else 0) ==
    (if s.admission != Free then 1 else 0) + UisIn(s.queue) + (if WorkerHas(s.worker, Ui) then 1 else 0)
  }

  predicate Inv(s: State) { CallsOk(s) && BusyOk(s) }

  lemma SendingKeeps(s: State, step: Step)
    requires Inv(s) && Enabled(s, step) && (step.Send? || step == SendUi || step == SendInternal)
    ensures Inv(Next(s, step))
  {
    InSnoc(s.queue, if step.Send? then Run(step.c) else if step == SendUi then Ui else Internal);
  }

  lemma CallerKeeps(s: State, step: Step)
    requires Inv(s) && Enabled(s, step)
    requires step.Enter? || step.Lock? || step.GiveUpLock? || step.Drain?
          || step.GiveUpSend? || step.TakeDone? || step.Unlock?
    ensures Inv(Next(s, step))
  {
  }

  lemma WorkerKeeps(s: State, step: Step)
    requires Inv(s) && Enabled(s, step) && step in {Receive, Finish, Signal}
    ensures Inv(Next(s, step))
  {
    if step == Receive && s.queue[0].Run? {
      assert RunsIn(s.queue)[0] == s.queue[0].call && RunsIn(s.queue)[1..] == RunsIn(s.queue[1..]);
    }
  }

  lemma AdmissionKeeps(s: State, step: Step)
    requires Inv(s) && Enabled(s, step) && step in {Admit, RefuseUi, Withdraw}
    ensures Inv(Next(s, step))
  {
  }

  lemma StepKeeps(s: State, step: Step)
    requires Inv(s) && Enabled(s, step)
    ensures Inv(Next(s, step))
  {
    if step.Send? || step == SendUi || step == SendInternal {
      SendingKeeps(s, step);
    } else if step in {Receive, Finish, Signal} {
      WorkerKeeps(s, step);
    } else if step in {Admit, RefuseUi, Withdraw} {
      AdmissionKeeps(s, step);
    } else {
      CallerKeeps(s, step);
    }
    hide Inv, Next;
  }

  predicate Trace(s: State, steps: seq<Step>)
    decreases steps
  {
    steps == [] || (Enabled(s, steps[0]) && Trace(Next(s, steps[0]), steps[1..]))
  }

  function After(s: State, steps: seq<Step>): State
    requires Trace(s, steps)
    decreases steps
  {
    if steps == [] then s else After(Next(s, steps[0]), steps[1..])
  }

  lemma {:induction false} TraceKeeps(s: State, steps: seq<Step>)
    requires Inv(s) && Trace(s, steps)
    ensures Inv(After(s, steps))
    decreases steps
  {
    if steps != [] {
      StepKeeps(s, steps[0]);
      TraceKeeps(Next(s, steps[0]), steps[1..]);
    }
  }

  /** The job of a call is somewhere between the queue and its completion. */
  predicate InFlight(s: State, c: Call) {
    c in RunsIn(s.queue) || WorkerHas(s.worker, Run(c))
  }

  /**
   * Any number of callers among any other jobs: a call that returned true ran its
   * function exactly once and to completion; one that returned false never ran it,
   * and nothing of it is left that could.
   */
  lemma CallsRunOnce(steps: seq<Step>, c: Call)
    requires Trace(START, steps) && c in After(START, steps).calls
    ensures var e := After(START, steps);
            var call := e.calls[c];
            && (call.phase == Returned(true) ==> call.starts == 1 && call.ends == 1)
            && (call.phase == Returned(false) ==> call.starts == 0 && call.ends == 0)
            && (call.phase.Returned? ==> !InFlight(e, c))
            && call.ends <= call.starts <= 1
  {
    TraceKeeps(START, steps);
    assert PhaseOk(After(START, steps).calls[c], After(START, steps).lock == Some(c), After(START, steps).place);
  }

  /** The completion a caller takes is its own: none is ever left over for the next request. */
  lemma NoStaleCompletion(steps: seq<Step>, c: Call)
    requires Trace(START, steps) && c in After(START, steps).calls
    ensures var e := After(START, steps);
            && (e.calls[c].phase == Draining || e.calls[c].phase == Sending ==> !e.done)
            && (e.calls[c].phase == Waiting && e.done ==> e.calls[c].ends == 1)
  {
    TraceKeeps(START, steps);
    assert PhaseOk(After(START, steps).calls[c], After(START, steps).lock == Some(c), After(START, steps).place);
  }

  /** One UI job at a time, and the flag tells exactly when. */
  lemma OneUiJob(steps: seq<Step>)
    requires Trace(START, steps)
    ensures var e := After(START, steps);
            (if e.busy then 1 else 0) ==
            (if e.admission != Free then 1 else 0) + UisIn(e.queue) + (if WorkerHas(e.worker, Ui) then 1 else 0)
  {
    TraceKeeps(START, steps);
  }

  /** The queue never holds more than its four jobs. */
  lemma {:induction false} QueueIsBounded(s: State, steps: seq<Step>)
    requires |s.queue| <= 4 && Trace(s, steps)
    ensures |After(s, steps).queue| <= 4
    decreases steps
  {
    if steps != [] {
      var t := Next(s, steps[0]);
      assert |t.queue| <= 4;
      hide Next, Enabled;
      QueueIsBounded(t, steps[1..]);
    }
  }

  // ---------------- a call can succeed ----------------

  ghost predicate Leads(s: State, t: State) { exists steps: seq<Step> :: Trace(s, steps) && After(s, steps) == t }

  lemma LeadsSelf(s: State)
    ensures Leads(s, s)
  {
    assert Trace(s, []) && After(s, []) == s;
  }

  lemma LeadsFirst(s: State, step: Step, t: State)
    requires Enabled(s, step) && Leads(Next(s, step), t)
    ensures Leads(s, t)
  {
    hide Enabled, Next;
    var steps: seq<Step> :| Trace(Next(s, step), steps) && After(Next(s, step), steps) == t;
    assert ([step] + steps)[0] == step && ([step] + steps)[1..] == steps;
    assert Trace(s, [step] + steps) && After(s, [step] + steps) == t;
  }

  /** Nothing stands in the way of a call: the lock is free and the worker has nothing to do. */
  predicate Calm(s: State) { s.lock == None && s.queue == [] && s.worker == Idle && s.place == Nowhere }

  /** A caller's own steps, up to the acceptance of its job. */
  lemma CallIsAccepted(s: State, c: Call, t: State)
    requires Calm(s) && c !in s.calls
    requires var u := State(s.calls[c := Caller(Waiting, 0, 0)], Some(c), false, [Run(c)], Idle,
                            s.admission, s.busy, Queued);
             Leads(u, t)
    ensures Leads(s, t)
  {
    var s1 := Next(s, Enter(c));
    var s2 := Next(s1, Lock(c));
    var s3 := Next(s2, Drain(c));
    var u := Next(s3, Send(c));
    assert u.calls == s.calls[c := Caller(Waiting, 0, 0)] && u.queue == [Run(c)];
    assert Enabled(s, Enter(c)) && Enabled(s1, Lock(c)) && Enabled(s2, Drain(c)) && Enabled(s3, Send(c));
    hide Next, Leads, Enabled;
    LeadsFirst(s3, Send(c), t);
    LeadsFirst(s2, Drain(c), t);
    LeadsFirst(s1, Lock(c), t);
    LeadsFirst(s, Enter(c), t);
  }

  /** The worker's turn on a job alone in the queue. */
  lemma JobIsDone(s: State, job: Job, t: State)
    requires s.queue == [job] && s.worker == Idle
    requires Leads(Next(Next(Next(s, Receive), Finish), Signal), t)
    ensures Leads(s, t)
  {
    var s1 := Next(s, Receive);
    var s2 := Next(s1, Finish);
    assert Enabled(s, Receive) && Enabled(s1, Finish) && Enabled(s2, Signal);
    hide Next, Leads, Enabled;
    LeadsFirst(s2, Signal, t);
    LeadsFirst(s1, Finish, t);
    LeadsFirst(s, Receive, t);
  }

  /** What a turn on a call's job leaves. */
  lemma CallTurn(s: State, c: Call)
    requires c in s.calls && s.calls[c] == Caller(Waiting, 0, 0) && s.queue == [Run(c)] && s.worker == Idle
    ensures Next(Next(Next(s, Receive), Finish), Signal)
         == s.(calls := s.calls[c := Caller(Waiting, 1, 1)], queue := [], done := true, place := Signalled)
  {
    var u := Next(Next(Next(s, Receive), Finish), Signal);
    assert u.calls == s.calls[c := Caller(Waiting, 1, 1)];
  }

  /** And the caller's return. */
  lemma CallIsServed(s: State, c: Call, t: State)
    requires c in s.calls && s.calls[c] == Caller(Waiting, 0, 0) && s.lock == Some(c)
    requires s.queue == [Run(c)] && s.worker == Idle
    requires t == State(s.calls[c := Caller(Returned(true), 1, 1)], None, false, [], Idle, s.admission, s.busy, Nowhere)
    ensures Leads(s, t)
  {
    var u := s.(calls := s.calls[c := Caller(Waiting, 1, 1)], queue := [], done := true, place := Signalled);
    var v := Next(u, TakeDone(c));
    assert Enabled(u, TakeDone(c)) && Enabled(v, Unlock(c)) && Next(v, Unlock(c)).calls == t.calls;
    assert Next(v, Unlock(c)) == t;
    CallTurn(s, c);
    hide Next, Leads, Enabled;
    LeadsSelf(t);
    LeadsFirst(v, Unlock(c), t);
    LeadsFirst(u, TakeDone(c), t);
    JobIsDone(s, Run(c), t);
  }

  /**
   * Whenever the lock is free and the worker has nothing to do, a new call can be taken,
   * run once and answered true, everything else as it was.
   */
  lemma CallCanSucceed(s: State, c: Call)
    requires Calm(s) && c !in s.calls
    ensures Leads(s, s.(calls := s.calls[c := Caller(Returned(true), 1, 1)], done := false))
  {
    var u := State(s.calls[c := Caller(Waiting, 0, 0)], Some(c), false, [Run(c)], Idle, s.admission, s.busy, Queued);
    var t := s.(calls := s.calls[c := Caller(Returned(true), 1, 1)], done := false);
    assert u.calls[c := Caller(Returned(true), 1, 1)] == t.calls;
    hide Leads;
    CallIsServed(u, c, t);
    CallIsAccepted(s, c, t);
  }

  /** What a turn on a UI job leaves. */
  lemma UiTurn(s: State)
    requires s.queue == [Ui] && s.worker == Idle
    ensures Next(Next(Next(s, Receive), Finish), Signal) == s.(queue := [], busy := false)
  {
    var a := s.(queue := [], worker := Running(Ui));
    assert Next(s, Receive) == a;
    var b := a.(worker := Completing(Ui));
    assert Next(a, Finish) == b;
    assert Next(b, Signal) == b.(worker := Idle, busy := false);
    hide Next;
  }

  /** So can a UI job: it is admitted, run, and the flag is down again. */
  lemma UiJobCanRun(s: State)
    requires Calm(s) && s.admission == Free && !s.busy
    ensures Enabled(s, Admit) && Next(s, Admit).busy
    ensures var u := Next(s, Admit); Enabled(u, SendUi) && Leads(Next(u, SendUi), s)
  {
    var v := s.(busy := true, queue := [Ui]);
    var u := s.(busy := true, admission := Admitting);
    assert Next(s, Admit) == u;
    assert Enabled(u, SendUi) && Next(u, SendUi) == v by { UiSent(u); }
    hide Leads, Next;
    UiTurn(v);
    LeadsSelf(s);
    JobIsDone(v, Ui, s);
  }

  lemma UiSent(u: State)
    requires u.admission == Admitting && u.queue == []
    ensures Enabled(u, SendUi) && Next(u, SendUi) == u.(queue := [Ui], admission := Free)
  {
    assert [] + [Ui] == [Ui];
  }
}
