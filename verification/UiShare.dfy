/**
 * Opening and closing an ephemeral key from the share screen (main/ui.c:
 * `begin_share`, `on_share_close`, the retry in `role_timer_cb`, and the worker's
 * JOB_SHARE and JOB_SHARE_STOP). Requests carry a generation number. A rejected
 * open publishes and restores the generation in one step.
 *
 * REST and console calls open and stop the same key on the same worker
 * (main/otbr_rest.c:176-192, main/main.c:979-994), and carry no generation.
 */
module UiShare {
  import opened Bytes

  const QUEUE_LENGTH: nat := 4

  type Generation = nat

  datatype Job = Share(g: Generation) | Stop(g: Generation) | Call(start: bool) | OtherUi | Internal

  /** Who opened a key: the screen, in some generation, or a call. */
  datatype Key = Mine(g: Generation) | Other

  datatype Worker =
    | Idle
    | Replacing(g: Generation)                  // JOB_SHARE: about to stop the previous key
    | Starting(g: Generation)                   // about to start its own
    | Comparing(g: Generation, started: bool)   // about to compare the generation
    | Cancelling                                // cancelled with a key started: about to stop it
    | Leaving                                   // a UI job is over: about to clear the busy flag
    | Deciding(g: Generation)                   // JOB_SHARE_STOP: about to compare
    | Stopping(g: Generation)                   // equal: about to stop the key
    | Calling(start: bool)                      // JOB_CALL: about to start or stop a key
    | Elsewhere(ui: bool)                       // some other job

  datatype Last = Nothing | Opened | Closed

  /** `key` is the active key; `last` the last accepted action of the share screen. */
  datatype State = State(
    id: Generation, stopPending: bool, busy: bool, queue: seq<Job>, worker: Worker,
    key: Option<Key>, last: Last)

  const START := State(0, false, false, [], Idle, None, Nothing)

  datatype Step =
    | Open | OpenRefused | Close | Retry
    | AddCall(start: bool) | AddOtherUi | AddInternal
    | Expire                         // the key was used, ran out or was disabled
    | Receive | Work(ok: bool)       // ok: whether thread_share_start succeeds

  predicate Room(s: State) { |s.queue| < QUEUE_LENGTH }

  predicate Enabled(s: State, step: Step) {
    match step
    case Open => !s.busy && Room(s)
    case OpenRefused => s.busy || !Room(s)
    case Close => true
    case Retry => s.stopPending && Room(s)
    case AddCall(_) => Room(s)
    case AddOtherUi => !s.busy && Room(s)
    case AddInternal => Room(s)
    case Expire => true
    case Receive => s.worker == Idle && s.queue != []
    case Work(_) => s.worker != Idle
  }

  function Taken(job: Job): Worker {
    match job
    case Share(g) => Replacing(g)
    case Stop(g) => Deciding(g)
    case Call(start) => Calling(start)
    case OtherUi => Elsewhere(true)
    case Internal => Elsewhere(false)
  }

  function Worked(s: State, ok: bool): State
    requires s.worker != Idle
  {
    match s.worker
    case Replacing(g) => s.(key := None, worker := Starting(g))
    case Starting(g) => s.(key := if ok then Some(Mine(g)) else s.key, worker := Comparing(g, ok))
    case Comparing(g, started) => s.(worker := if g != s.id && started then Cancelling else Leaving)
    case Cancelling => s.(key := None, worker := Leaving)
    case Leaving => s.(busy := false, worker := Idle)
    case Deciding(g) => s.(worker := if g == s.id then Stopping(g) else Idle)
    case Stopping(g) => s.(key := None, worker := Idle)
    case Calling(start) =>
      s.(key := if !start then None else if ok then Some(Other) else s.key, worker := Idle)
    case Elsewhere(ui) => s.(worker := if ui then Leaving else Idle)
  }

  function Next(s: State, step: Step): State
    requires Enabled(s, step)
  {
    match step
    case Open =>
      s.(id := s.id + 1, stopPending := false, busy := true, queue := s.queue + [Share(s.id + 1)], last := Opened)
    case OpenRefused => s
    case Close =>
      var n := s.id + 1;
      if Room(s) then s.(id := n, queue := s.queue + [Stop(n)], last := Closed)
      else s.(id := n, stopPending := true, last := Closed)
    case Retry => s.(queue := s.queue + [Stop(s.id)], stopPending := false)
    case AddCall(start) => s.(queue := s.queue + [Call(start)])
    case AddOtherUi => s.(queue := s.queue + [OtherUi], busy := true)
    case AddInternal => s.(queue := s.queue + [Internal])
    case Expire => s.(key := None)
    case Receive => s.(queue := s.queue[1..], worker := Taken(s.queue[0]))
    case Work(ok) => Worked(s, ok)
  }

  // ---------------- the invariant ----------------

  predicate Generated(g: Generation, id: Generation, last: Last) {
    g <= id && (last == Closed ==> g < id)
  }

  predicate JobOk(job: Job, id: Generation, last: Last) {
    (job.Share? ==> Generated(job.g, id, last) && last != Nothing) && (job.Stop? ==> job.g <= id)
  }

  predicate WorkerOk(w: Worker, key: Option<Key>, id: Generation, last: Last) {
    && (w.Replacing? || w.Starting? || w.Comparing? ==> Generated(w.g, id, last))
    && (w.Deciding? || w.Stopping? ==> w.g <= id)
    && (w.Stopping? && Own(key) ==> key.value.g <= w.g)
    && (last == Nothing ==> !Sharing(w))
  }

  /** The active key is the screen's own. */
  predicate Own(key: Option<Key>) { key.Some? && key.value.Mine? }

  /** Every open in progress is of a generation given out, and of an older one after a close. */
  predicate Ages(s: State) {
    && (forall i :: 0 <= i < |s.queue| ==> JobOk(s.queue[i], s.id, s.last))
    && (Own(s.key) ==> Generated(s.key.value.g, s.id, s.last) && s.last != Nothing)
    && WorkerOk(s.worker, s.key, s.id, s.last)
  }

  predicate Shares(queue: seq<Job>) { exists i :: 0 <= i < |queue| && queue[i].Share? }

  predicate Sharing(w: Worker) { w.Replacing? || w.Starting? || w.Comparing? || w.Cancelling? }

  /** The current stop request is queued, with no open behind it. */
  predicate StopAhead(s: State) {
    exists i :: 0 <= i < |s.queue| && s.queue[i] == Stop(s.id)
                && forall j :: i < j < |s.queue| ==> !s.queue[j].Share?
  }

  /** After a close the screen's key is off for good, or something that will turn it off is on its way. */
  predicate WillClose(s: State) {
    s.last == Closed ==>
      || s.stopPending
      || StopAhead(s)
      || (s.worker == Deciding(s.id) && !Shares(s.queue))
      || (s.worker.Stopping? && !Shares(s.queue))
      || (!Own(s.key) && !Shares(s.queue) && !Sharing(s.worker))
  }

  predicate Inv(s: State) { Ages(s) && WillClose(s) }

  lemma UserStepAges(s: State, step: Step)
    requires Ages(s) && Enabled(s, step) && !step.Receive? && !step.Work?
    ensures Ages(Next(s, step))
  {
    var s' := Next(s, step);
    forall i | 0 <= i < |s'.queue| ensures JobOk(s'.queue[i], s'.id, s'.last) {
      assert i < |s.queue| ==> JobOk(s.queue[i], s.id, s.last);
    }
  }

  lemma ReceiveAges(s: State)
    requires Ages(s) && Enabled(s, Receive)
    ensures Ages(Next(s, Receive))
  {
    var s' := Next(s, Receive);
    assert JobOk(s.queue[0], s.id, s.last);
    forall i | 0 <= i < |s'.queue| ensures JobOk(s'.queue[i], s'.id, s'.last) {
      assert JobOk(s.queue[i + 1], s.id, s.last);
    }
  }

  lemma WorkAges(s: State, ok: bool)
    requires Ages(s) && s.worker != Idle
    ensures Ages(Next(s, Work(ok)))
  {
    var s' := Next(s, Work(ok));
    assert s'.queue == s.queue && s'.id == s.id && s'.last == s.last;
    hide JobOk;
  }

  lemma WorkerStepAges(s: State, step: Step)
    requires Ages(s) && Enabled(s, step) && (step.Receive? || step.Work?)
    ensures Ages(Next(s, step))
  {
    hide Ages, Next;
    if step.Receive? {
      ReceiveAges(s);
    } else {
      WorkAges(s, step.ok);
    }
  }

  lemma SharesAppend(queue: seq<Job>, job: Job)
    ensures Shares(queue + [job]) <==> Shares(queue) || job.Share?
  {
    if Shares(queue) {
      var i :| 0 <= i < |queue| && queue[i].Share?;
      assert (queue + [job])[i].Share?;
    }
    if job.Share? {
      assert (queue + [job])[|queue|].Share?;
    }
  }

  lemma SharesPop(queue: seq<Job>)
    requires queue != []
    ensures Shares(queue) <==> queue[0].Share? || Shares(queue[1..])
  {
    if Shares(queue[1..]) {
      var i :| 0 <= i < |queue[1..]| && queue[1..][i].Share?;
      assert queue[i + 1].Share?;
    }
    if Shares(queue) && !queue[0].Share? {
      var i :| 0 <= i < |queue| && queue[i].Share?;
      assert queue[1..][i - 1].Share?;
    }
  }

  lemma StopAppended(s: State)
    requires s.queue != [] && s.queue[|s.queue| - 1] == Stop(s.id)
    ensures StopAhead(s)
  {
  }

  lemma StopStays(s: State, s': State, job: Job)
    requires StopAhead(s) && s'.id == s.id && !job.Share? && (s'.queue == s.queue || s'.queue == s.queue + [job])
    ensures StopAhead(s')
  {
    var i :| 0 <= i < |s.queue| && s.queue[i] == Stop(s.id) && forall j :: i < j < |s.queue| ==> !s.queue[j].Share?;
    assert s'.queue[i] == Stop(s'.id);
  }

  /** The stop comes closer to the worker. */
  lemma StopMoves(s: State)
    requires StopAhead(s)
    ensures s.queue != []
    ensures StopAhead(s.(queue := s.queue[1..])) || (s.queue[0] == Stop(s.id) && !Shares(s.queue[1..]))
  {
    var i :| 0 <= i < |s.queue| && s.queue[i] == Stop(s.id) && forall j :: i < j < |s.queue| ==> !s.queue[j].Share?;
    if i > 0 {
      assert s.queue[1..][i - 1] == Stop(s.id);
    }
  }

  lemma UserStepCloses(s: State, step: Step)
    requires WillClose(s) && Enabled(s, step) && !step.Receive? && !step.Work?
    ensures WillClose(Next(s, step))
  {
    var s' := Next(s, step);
    SharesAppend(s.queue, OtherUi);
    SharesAppend(s.queue, Internal);
    SharesAppend(s.queue, Call(true));
    SharesAppend(s.queue, Call(false));
    if step.Retry? || (step.Close? && Room(s)) {
      StopAppended(s');
    } else if s.last == Closed && StopAhead(s) && !step.Open? && !step.OpenRefused? && !step.Close? {
      StopStays(s, s', if step.AddCall? then Call(step.start) else if step.AddOtherUi? then OtherUi else Internal);
    }
  }

  lemma WorkerStepCloses(s: State, step: Step)
    requires Inv(s) && Enabled(s, step) && (step.Receive? || step.Work?)
    ensures WillClose(Next(s, step))
  {
    var s' := Next(s, step);
    if step.Receive? {
      SharesPop(s.queue);
      if s.last == Closed && StopAhead(s) {
        StopMoves(s);
        if StopAhead(s.(queue := s.queue[1..])) {
          StopStays(s.(queue := s.queue[1..]), s', Internal);
        }
      }
    } else if s.last == Closed && StopAhead(s) {
      StopStays(s, s', Internal);
    }
  }

  lemma StepKeeps(s: State, step: Step)
    requires Inv(s) && Enabled(s, step)
    ensures Inv(Next(s, step))
  {
    if step.Receive? || step.Work? {
      WorkerStepAges(s, step);
      WorkerStepCloses(s, step);
    } else {
      UserStepAges(s, step);
      UserStepCloses(s, step);
    }
    hide Ages, WillClose, Next;
  }

  predicate Run(s: State, steps: seq<Step>)
    decreases steps
  {
    steps == [] || (Enabled(s, steps[0]) && Run(Next(s, steps[0]), steps[1..]))
  }

  function After(s: State, steps: seq<Step>): State
    requires Run(s, steps)
    decreases steps
  {
    if steps == [] then s else After(Next(s, steps[0]), steps[1..])
  }

  lemma {:induction false} RunKeeps(s: State, steps: seq<Step>)
    requires Inv(s) && Run(s, steps)
    ensures Inv(After(s, steps))
    decreases steps
  {
    if steps != [] {
      StepKeeps(s, steps[0]);
      RunKeeps(Next(s, steps[0]), steps[1..]);
    }
  }

  // ---------------- whose key is on ----------------

  /** The step by which a call opens a key. */
  predicate CallOpens(s: State, step: Step) { s.worker == Calling(true) && step == Work(true) }

  /** The steps that end whatever key is on, or put the screen's own in its place. */
  predicate Ends(s: State, step: Step) {
    || step.Expire?
    || (step.Work? && (s.worker.Replacing? || s.worker.Cancelling? || s.worker.Stopping? || s.worker == Calling(false)))
    || (s.worker.Starting? && step == Work(true))
  }

  /** Whether the last to open a key in a run was a call, with nothing having ended it since. */
  predicate CallKeyLasts(s: State, steps: seq<Step>, now: bool)
    requires Run(s, steps)
    decreases steps
  {
    if steps == [] then now
    else CallKeyLasts(Next(s, steps[0]), steps[1..], CallOpens(s, steps[0]) || (now && !Ends(s, steps[0])))
  }

  lemma CallKeyStep(s: State, step: Step)
    requires Enabled(s, step)
    ensures Next(s, step).key == Some(Other) <==> CallOpens(s, step) || (s.key == Some(Other) && !Ends(s, step))
  {
  }

  lemma {:induction false} CallKeyIsOther(s: State, steps: seq<Step>)
    requires Run(s, steps)
    ensures CallKeyLasts(s, steps, s.key == Some(Other)) <==> After(s, steps).key == Some(Other)
    decreases steps
  {
    if steps != [] {
      CallKeyStep(s, steps[0]);
      hide Next, Enabled, Ends, CallOpens;
      CallKeyIsOther(Next(s, steps[0]), steps[1..]);
    }
  }

  // ---------------- what is promised, and what is not ----------------

  predicate AtRest(s: State) { s.queue == [] && s.worker == Idle && !s.stopPending }

  /**
   * In every run of opens, closes, calls, full queues, retries and other jobs: once the
   * worker has nothing left and no stop is pending, a share screen last closed means its
   * own key is off; a key is on exactly when a call opened it and nothing has ended it.
   */
  lemma ClosedMeansOff(steps: seq<Step>)
    requires Run(START, steps)
    ensures var e := After(START, steps);
            AtRest(e) && e.last == Closed ==>
              !Own(e.key) && (e.key.Some? <==> CallKeyLasts(START, steps, false))
  {
    RunKeeps(START, steps);
    CallKeyIsOther(START, steps);
  }

  /**
   * A stop ends a key of the screen only of its own generation or an older one. A
   * call's key it ends if and only if its generation is the current one when compared.
   */
  lemma StopSparesNewerKey(steps: seq<Step>, ok: bool)
    requires Run(START, steps) && After(START, steps).worker != Idle
    ensures var e := After(START, steps);
            var e' := Next(e, Work(ok));
            && (e.worker.Deciding? && e.worker.g != e.id ==> e'.worker == Idle && e'.key == e.key)
            && (e.worker.Deciding? && Own(e.key) && e.worker.g < e.key.value.g ==> e'.worker == Idle && e'.key == e.key)
            && (e.worker.Stopping? && Own(e.key) ==> e.key.value.g <= e.worker.g)
            && (e.worker.Deciding? && e.key == Some(Other) ==>
                  (Through(e, ok).key == None <==> e.worker.g == e.id))
  {
    RunKeeps(START, steps);
    var e := After(START, steps);
    ThroughOn(e, ok);
    ThroughOn(Next(e, Work(ok)), ok);
    if Next(e, Work(ok)).worker != Idle {
      ThroughOn(Next(Next(e, Work(ok)), Work(ok)), ok);
    }
    hide Through;
  }

  // ---------------- one job at a time, and none against an open screen ----------------

  predicate IsUi(job: Job) { job.Share? || job == OtherUi }

  function UisIn(queue: seq<Job>): nat {
    if queue == [] then 0 else (if IsUi(queue[0]) then 1 else 0) + UisIn(queue[1..])
  }

  lemma {:induction false} UisSnoc(queue: seq<Job>, job: Job)
    ensures UisIn(queue + [job]) == UisIn(queue) + (if IsUi(job) then 1 else 0)
    decreases queue
  {
    if queue == [] {
      assert queue + [job] == [job] && [job][1..] == [];
    } else {
      UisSnoc(queue[1..], job);
      assert (queue + [job])[1..] == queue[1..] + [job];
    }
  }

  /** The worker is at a UI job. */
  predicate AtUi(w: Worker) { Sharing(w) || w.Leaving? || w == Elsewhere(true) }

  predicate BusyOk(s: State) {
    |s.queue| <= 4 && (if s.busy then 1 else 0) == UisIn(s.queue) + (if AtUi(s.worker) then 1 else 0)
  }

  lemma BusyUser(s: State, step: Step)
    requires BusyOk(s) && Enabled(s, step) && !step.Receive? && !step.Work?
    ensures BusyOk(Next(s, step))
  {
    UisSnoc(s.queue, Share(s.id + 1));
    UisSnoc(s.queue, Stop(if step.Close? then s.id + 1 else s.id));
    UisSnoc(s.queue, Call(step.AddCall? && step.start));
    UisSnoc(s.queue, if step.AddOtherUi? then OtherUi else Internal);
    hide UisIn, AtUi;
  }

  lemma BusyWorker(s: State, step: Step)
    requires BusyOk(s) && Enabled(s, step) && (step.Receive? || step.Work?)
    ensures BusyOk(Next(s, step))
  {
  }

  lemma BusyStep(s: State, step: Step)
    requires BusyOk(s) && Enabled(s, step)
    ensures BusyOk(Next(s, step))
  {
    hide Next, BusyOk;
    if step.Receive? || step.Work? {
      BusyWorker(s, step);
    } else {
      BusyUser(s, step);
    }
  }

  /** The flag is up exactly while one UI job is queued or running, and the queue holds four at most. */
  lemma {:induction false} OneUiJob(s: State, steps: seq<Step>)
    requires BusyOk(s) && Run(s, steps)
    ensures BusyOk(After(s, steps))
    decreases steps
  {
    if steps != [] {
      BusyStep(s, steps[0]);
      hide Next, Enabled, BusyOk;
      OneUiJob(Next(s, steps[0]), steps[1..]);
    }
  }

  /** Unless the screen was closed last, every stop on its way is for an older generation. */
  predicate StopsAreOld(s: State) {
    s.last != Closed ==>
      && !s.stopPending
      && (forall i :: 0 <= i < |s.queue| && s.queue[i].Stop? ==> s.queue[i].g < s.id)
      && (s.worker.Deciding? || s.worker.Stopping? ==> s.worker.g < s.id)
  }

  lemma StopsStep(s: State, step: Step)
    requires StopsAreOld(s) && Ages(s) && Enabled(s, step)
    ensures StopsAreOld(Next(s, step))
  {
    var s' := Next(s, step);
    if s'.last != Closed {
      forall i | 0 <= i < |s'.queue| && s'.queue[i].Stop? ensures s'.queue[i].g < s'.id {
        if step.Receive? {
          assert s.queue[i + 1] == s'.queue[i];
        } else if i < |s.queue| {
          assert s'.queue[i] == s.queue[i] && JobOk(s.queue[i], s.id, s.last);
        }
      }
    }
  }

  lemma {:induction false} StopsStayOld(s: State, steps: seq<Step>)
    requires StopsAreOld(s) && Inv(s) && Run(s, steps)
    ensures StopsAreOld(After(s, steps))
    decreases steps
  {
    if steps != [] {
      StopsStep(s, steps[0]);
      StepKeeps(s, steps[0]);
      hide Next, Enabled, Inv, StopsAreOld;
      StopsStayOld(Next(s, steps[0]), steps[1..]);
    }
  }

  /**
   * In every run, while the screen was opened last no stop is pending, and the worker's
   * stops, queued or in hand, are of older generations: none ends the key it opened.
   */
  lemma OpenIsNotStopped(steps: seq<Step>)
    requires Run(START, steps) && After(START, steps).last == Opened
    ensures var e := After(START, steps);
            && !e.stopPending
            && (forall i :: 0 <= i < |e.queue| && e.queue[i].Stop? ==> e.queue[i].g < e.id)
            && (e.worker.Deciding? || e.worker.Stopping? ==> e.worker.g < e.id)
            && (e.worker.Stopping? ==> e.key != Some(Mine(e.id)))
  {
    StopsStayOld(START, steps);
    RunKeeps(START, steps);
  }

  ghost predicate Leads(s: State, steps: seq<Step>, t: State) { Run(s, steps) && After(s, steps) == t }

  lemma {:induction false} LeadsOn(s: State, a: seq<Step>, t: State, b: seq<Step>, u: State)
    requires Leads(s, a, t) && Leads(t, b, u)
    ensures Leads(s, a + b, u)
    decreases |a|
  {
    hide Next, Enabled;
    if a == [] {
      ConcatEmpty(b);
    } else {
      DropConcat(a, b, 1);
      LeadsOn(Next(s, a[0]), a[1..], t, b, u);
    }
  }

  lemma LeadsOne(s: State, a: Step)
    requires Enabled(s, a)
    ensures Leads(s, [a], Next(s, a))
  {
    hide Next, Enabled;
    var t := Next(s, a);
    assert [a][0] == a && [a][1..] == [];
    assert Run(t, []) && After(t, []) == t;
    assert Run(s, [a]) && After(s, [a]) == After(t, [a][1..]);
  }

  lemma LeadsTwo(s: State, a: Step, b: Step)
    requires Enabled(s, a) && Enabled(Next(s, a), b)
    ensures Leads(s, [a, b], Next(Next(s, a), b))
  {
    LeadsOne(s, a);
    LeadsOne(Next(s, a), b);
    hide Leads, Next, Enabled;
    LeadsOn(s, [a], Next(s, a), [b], Next(Next(s, a), b));
    assert [a] + [b] == [a, b];
  }

  /** At rest, with nothing pending. */
  function Resting(id: Generation, key: Option<Key>, last: Last): State {
    State(id, false, false, [], Idle, key, last)
  }

  /** The screen opens a key, and the worker's turn ends; then the key runs out. */
  const OPENED: seq<Step> := [Open, Receive] + [Work(true), Work(true)] + [Work(true), Work(true)]

  lemma OpenedLeads()
    ensures Leads(START, OPENED, Resting(1, Some(Mine(1)), Opened))
  {
    LeadsTwo(START, Open, Receive);
    var s := State(1, false, true, [], Replacing(1), None, Opened);
    assert Next(Next(START, Open), Receive) == s;
    LeadsTwo(s, Work(true), Work(true));
    var t := State(1, false, true, [], Comparing(1, true), Some(Mine(1)), Opened);
    assert Next(Next(s, Work(true)), Work(true)) == t;
    LeadsTwo(t, Work(true), Work(true));
    hide Leads;
    LeadsOn(START, [Open, Receive], s, [Work(true), Work(true)], t);
    LeadsOn(START, [Open, Receive] + [Work(true), Work(true)], t,
            [Work(true), Work(true)], Resting(1, Some(Mine(1)), Opened));
  }

  /** The screen is closed, and the worker stops its key. */
  const CLOSED: seq<Step> := [Step.Close, Receive] + [Work(true), Work(true)]

  lemma ClosedLeads(key: Option<Key>)
    ensures Leads(Resting(1, key, Opened), CLOSED, Resting(2, None, Closed))
  {
    var s := Resting(1, key, Opened);
    var t := State(2, false, false, [], Deciding(2), key, Closed);
    assert Next(s, Step.Close).queue == [Stop(2)];
    assert Next(Next(s, Step.Close), Receive) == t;
    LeadsTwo(s, Step.Close, Receive);
    LeadsTwo(t, Work(true), Work(true));
    hide Leads;
    LeadsOn(s, [Step.Close, Receive], t, [Work(true), Work(true)], Resting(2, None, Closed));
  }

  /** A job that leaves the key alone, or a call that opens one, from the front of the queue. */
  lemma TurnLeads(s: State)
    requires s.worker == Idle && s.queue != [] && s.queue[0] in {Internal, Call(true)}
    ensures Leads(s, [Receive, Work(true)],
                  s.(queue := s.queue[1..], key := if s.queue[0] == Internal then s.key else Some(Other)))
  {
    LeadsTwo(s, Receive, Work(true));
  }

  /** Opened, closed and stopped; then a call opens a key. */
  const CALLED_AFTER_CLOSE: seq<Step> := OPENED + CLOSED + [AddCall(true)] + [Receive, Work(true)]

  /** At rest, no stop pending, closed last, and a key is on: a call opened it. */
  lemma AKeyIsOnAfterClose()
    ensures Leads(START, CALLED_AFTER_CLOSE, Resting(2, Some(Other), Closed))
  {
    OpenedLeads();
    ClosedLeads(Some(Mine(1)));
    var s := Resting(2, None, Closed);
    var t := s.(queue := [Call(true)]);
    LeadsOne(s, AddCall(true));
    TurnLeads(t);
    assert Next(s, AddCall(true)) == t && t.queue[1..] == [];
    hide Leads, OPENED, CLOSED;
    LeadsOn(START, OPENED, Resting(1, Some(Mine(1)), Opened), CLOSED, s);
    LeadsOn(START, OPENED + CLOSED, s, [AddCall(true)], t);
    LeadsOn(START, OPENED + CLOSED + [AddCall(true)], t, [Receive, Work(true)], Resting(2, Some(Other), Closed));
  }

  /** Four other jobs fill the queue, the screen is closed, and when one is done a call gets in. */
  const FILLED: seq<Step> := [AddInternal, AddInternal] + [AddInternal, AddInternal]
  const CROWDED: seq<Step> := FILLED + [Step.Close] + [Receive, Work(true)] + [AddCall(true)]

  lemma FilledLeads(s: State)
    requires s.queue == []
    ensures Leads(s, FILLED, s.(queue := [Internal, Internal, Internal, Internal]))
  {
    var t := s.(queue := [Internal, Internal]);
    LeadsTwo(s, AddInternal, AddInternal);
    LeadsTwo(t, AddInternal, AddInternal);
    assert Next(Next(s, AddInternal), AddInternal) == t;
    assert Next(Next(t, AddInternal), AddInternal) == s.(queue := [Internal, Internal, Internal, Internal]);
    hide Leads;
    LeadsOn(s, [AddInternal, AddInternal], t, [AddInternal, AddInternal],
            s.(queue := [Internal, Internal, Internal, Internal]));
  }

  /** A close that finds no room, then one job done and a call admitted. */
  function Crowded(): State { State(2, true, false, [Internal, Internal, Internal, Call(true)], Idle, None, Closed) }

  lemma CrowdedLeads()
    ensures Leads(Resting(1, None, Opened), CROWDED, Crowded())
  {
    var s := Resting(1, None, Opened);
    var full := s.(queue := [Internal, Internal, Internal, Internal]);
    var shut := full.(id := 2, stopPending := true, last := Closed);
    var room := shut.(queue := [Internal, Internal, Internal]);
    FilledLeads(s);
    LeadsOne(full, Step.Close);
    TurnLeads(shut);
    LeadsOne(room, AddCall(true));
    assert Next(full, Step.Close) == shut && shut.queue[1..] == room.queue && Next(room, AddCall(true)) == Crowded();
    hide Leads, FILLED;
    LeadsOn(s, FILLED, full, [Step.Close], shut);
    LeadsOn(s, FILLED + [Step.Close], shut, [Receive, Work(true)], room);
    LeadsOn(s, FILLED + [Step.Close] + [Receive, Work(true)], room, [AddCall(true)], Crowded());
  }

  const DRAINED: seq<Step> :=
    [Receive, Work(true)] + [Receive, Work(true)] + [Receive, Work(true)] + [Receive, Work(true)]

  lemma DrainedLeads()
    ensures Leads(Crowded(), DRAINED, Crowded().(queue := [], key := Some(Other)))
  {
    var a := Crowded();
    var b := a.(queue := [Internal, Internal, Call(true)]);
    var c := a.(queue := [Internal, Call(true)]);
    var d := a.(queue := [Call(true)]);
    var e := a.(queue := [], key := Some(Other));
    TurnLeads(a);
    TurnLeads(b);
    TurnLeads(c);
    TurnLeads(d);
    assert a.queue[1..] == b.queue && b.queue[1..] == c.queue && c.queue[1..] == d.queue && d.queue[1..] == e.queue;
    hide Leads;
    var turn := [Receive, Work(true)];
    LeadsOn(a, turn, b, turn, c);
    LeadsOn(a, turn + turn, c, turn, d);
    LeadsOn(a, turn + turn + turn, d, turn, e);
  }

  /** The display timer finds room for the stop, and the worker takes it. */
  const RETRIED: seq<Step> := [Retry, Receive] + [Work(true), Work(true)]

  lemma RetriedLeads()
    ensures Leads(Crowded().(queue := [], key := Some(Other)), RETRIED, Resting(2, None, Closed))
  {
    var s := Crowded().(queue := [], key := Some(Other));
    var t := State(2, false, false, [], Deciding(2), Some(Other), Closed);
    assert Next(s, Retry).queue == [Stop(2)];
    assert Next(Next(s, Retry), Receive) == t;
    LeadsTwo(s, Retry, Receive);
    LeadsTwo(t, Work(true), Work(true));
    hide Leads;
    LeadsOn(s, [Retry, Receive], t, [Work(true), Work(true)], Resting(2, None, Closed));
  }

  /**
   * A stop delayed by a full queue ends a newer key: opened by a call after the close,
   * the screen's own having run out before.
   */
  lemma ADelayedStopEndsACallsKey()
    ensures var before := OPENED + [Expire] + CROWDED + DRAINED;
            var s := State(2, true, false, [], Idle, Some(Other), Closed);
            Leads(START, before, s) && Leads(START, before + RETRIED, Resting(2, None, Closed))
  {
    OpenedLeads();
    var s := Resting(1, Some(Mine(1)), Opened);
    LeadsOne(s, Expire);
    assert Next(s, Expire) == Resting(1, None, Opened);
    CrowdedLeads();
    DrainedLeads();
    RetriedLeads();
    hide Leads, OPENED, CROWDED, DRAINED, RETRIED;
    var last := Crowded().(queue := [], key := Some(Other));
    LeadsOn(START, OPENED, s, [Expire], Resting(1, None, Opened));
    LeadsOn(START, OPENED + [Expire], Resting(1, None, Opened), CROWDED, Crowded());
    LeadsOn(START, OPENED + [Expire] + CROWDED, Crowded(), DRAINED, last);
    LeadsOn(START, OPENED + [Expire] + CROWDED + DRAINED, last, RETRIED, Resting(2, None, Closed));
  }

  /** A key whose screen was closed while it was being opened does not survive the worker's turn. */
  lemma LateOpenCancelled(steps: seq<Step>)
    requires Run(START, steps)
    ensures var e := After(START, steps);
            e.worker.Comparing? && e.worker.started && e.last == Closed ==>
              var e1 := Next(e, Work(true));
              e1.worker == Cancelling && Next(e1, Work(true)).key == None
  {
    RunKeeps(START, steps);
  }

  // ---------------- the variables, changed in place ----------------

  /** The worker's job in hand, run to its end with nothing in between. */
  function Through(s: State, ok: bool): State
    decreases Left(s.worker)
  {
    if s.worker == Idle then s else Through(Next(s, Work(ok)), ok)
  }

  function Left(w: Worker): nat {
    match w
    case Idle => 0
    case Replacing(_) => 5
    case Starting(_) => 4
    case Comparing(_, _) => 3
    case Cancelling => 2
    case Leaving => 1
    case Deciding(_) => 2
    case Stopping(_) => 1
    case Calling(_) => 1
    case Elsewhere(_) => 2
  }

  class Screen {
    var id: Generation
    var stopPending: bool
    var busy: bool
    var queue: seq<Job>
    var key: Option<Key>           // what OpenThread holds active

    ghost var worker: Worker
    ghost var last: Last

    ghost function View(): State
      reads this
    {
      State(id, stopPending, busy, queue, worker, key, last)
    }

    constructor ()
      ensures View() == START
    {
      id, stopPending, busy, queue, key := 0, false, false, [], None;
      worker, last := Idle, Nothing;
    }

    /** xQueueSend without waiting. */
    method SendJob(job: Job) returns (sent: bool)
      modifies this`queue
      ensures sent == (|old(queue)| < QUEUE_LENGTH)
      ensures queue == if sent then old(queue) + [job] else old(queue)
    {
      sent := |queue| < QUEUE_LENGTH;
      if sent {
        queue := queue + [job];
      }
    }

    method QueueUiJob(job: Job) returns (queued: bool)
      modifies this`queue, this`busy
      ensures queued == (!old(busy) && |old(queue)| < QUEUE_LENGTH)
      ensures queue == (if queued then old(queue) + [job] else old(queue)) && busy == (old(busy) || queued)
    {
      if busy {
        return false;
      }
      busy := true;
      queued := SendJob(job);
      if !queued {
        busy := false;
      }
    }

    method BeginShare(attached: bool) returns (accepted: bool)
      modifies this
      ensures accepted == (attached && !old(busy) && |old(queue)| < 4)
      ensures View() == if accepted then Next(old(View()), Open) else old(View())
    {
      if !attached || busy {
        return false;
      }
      var previousId, previousPending := id, stopPending;
      id := previousId + 1;
      stopPending := false;
      accepted := QueueUiJob(Share(id));
      if !accepted {
        id, stopPending := previousId, previousPending;
        return;
      }
      last := Opened;
    }

    method OnClose()
      modifies this
      ensures View() == Next(old(View()), Step.Close)
    {
      id := id + 1;
      var sent := SendJob(Stop(id));
      if !sent {
        stopPending := true;
      }
      last := Closed;
    }

    /** The stop retry of the display timer. */
    method OnTimer()
      modifies this
      ensures View() == if old(stopPending) && |old(queue)| < 4 then Next(old(View()), Retry) else old(View())
    {
      if stopPending {
        var sent := SendJob(Stop(id));
        if sent {
          stopPending := false;
        }
      }
    }

    /** One turn of the worker loop; `ok`: whether a key can be started. */
    method WorkerTurn(ok: bool)
      requires worker == Idle && queue != []
      modifies this
      ensures View() == Through(Next(old(View()), Receive), ok)
    {
      var job := queue[0];
      queue := queue[1..];
      match job {
      case Share(g) =>
        key := None;
        if ok {
          key := Some(Mine(g));
        }
        var cancelled := g != id;
        if cancelled && ok {
          key := None;
        }
        busy := false;
      case Stop(g) =>
        if g == id {
          key := None;
        }
      case Call(start) =>
        if !start {
          key := None;
        } else if ok {
          key := Some(Other);
        }
      case OtherUi => busy := false;
      case Internal =>
      }
      TurnIs(old(View()), ok, View());
    }
  }

  /** A turn that opens a share, with nothing in between. */
  lemma ShareTurnIs(s: State, ok: bool)
    requires s.worker.Replacing?
    ensures Through(s, ok) == s.(worker := Idle, busy := false,
                                 key := if ok && s.worker.g == s.id then Some(Mine(s.worker.g)) else None)
  {
    hide Through;
    ThroughOn(s, ok);
    var b := Next(s, Work(ok));
    ThroughOn(b, ok);
    var c := Next(b, Work(ok));
    ThroughOn(c, ok);
    var d := Next(c, Work(ok));
    ThroughOn(d, ok);
    var e := Next(d, Work(ok));
    ThroughOn(e, ok);
    if d.worker == Cancelling {
      ThroughOn(Next(e, Work(ok)), ok);
    }
  }

  /** A turn with nothing in between, job by job. */
  lemma TurnIs(s: State, ok: bool, t: State)
    requires s.worker == Idle && s.queue != []
    requires t == (match s.queue[0]
                   case Share(g) =>
                     s.(queue := s.queue[1..], busy := false, key := if ok && g == s.id then Some(Mine(g)) else None)
                   case Stop(g) => s.(queue := s.queue[1..], key := if g == s.id then None else s.key)
                   case Call(start) =>
                     s.(queue := s.queue[1..], key := if !start then None else if ok then Some(Other) else s.key)
                   case OtherUi => s.(queue := s.queue[1..], busy := false)
                   case Internal => s.(queue := s.queue[1..]))
    ensures t == Through(Next(s, Receive), ok)
  {
    hide Through;
    var a := Next(s, Receive);
    if s.queue[0].Share? {
      ShareTurnIs(a, ok);
    } else {
      ThroughOn(a, ok);
      var b := Next(a, Work(ok));
      ThroughOn(b, ok);
      if b.worker != Idle {
        ThroughOn(Next(b, Work(ok)), ok);
      }
    }
  }

  /**
   * From rest, an accepted open whose start succeeds leaves the screen's own key on, of
   * the new generation, and the flag down; an accepted close, or a call's stop, leaves
   * no key on; and a call's start leaves a call's key.
   */
  lemma FromRest(s: State)
    requires AtRest(s) && !s.busy
    ensures Enabled(s, Open) && Enabled(s, Step.Close) && Enabled(s, AddCall(true)) && Enabled(s, AddCall(false))
    ensures var t := Next(s, Open);
            Through(Next(t, Receive), true) == Resting(s.id + 1, Some(Mine(s.id + 1)), Opened)
    ensures var t := Next(s, Step.Close); Through(Next(t, Receive), true) == Resting(s.id + 1, None, Closed)
    ensures var t := Next(s, AddCall(true)); Through(Next(t, Receive), true) == Resting(s.id, Some(Other), s.last)
    ensures var t := Next(s, AddCall(false)); Through(Next(t, Receive), true) == Resting(s.id, None, s.last)
  {
    hide Through;
    TurnIs(Next(s, Open), true, Resting(s.id + 1, Some(Mine(s.id + 1)), Opened));
    TurnIs(Next(s, Step.Close), true, Resting(s.id + 1, None, Closed));
    TurnIs(Next(s, AddCall(true)), true, Resting(s.id, Some(Other), s.last));
    TurnIs(Next(s, AddCall(false)), true, Resting(s.id, None, s.last));
  }

  lemma ThroughOn(s: State, ok: bool)
    ensures Through(s, ok) == if s.worker == Idle then s else Through(Next(s, Work(ok)), ok)
  {
  }
}
