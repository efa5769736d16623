/**
 * Handing samples to the Matter event loop (main/matter_battery.cpp): any number of
 * tasks store samples and request a publication, the watchdog requests too,
 * scheduling may fail, and a flag keeps at most one job queued. Every atomic
 * operation is a step.
 */
module MatterQueue {
  import opened Bytes

  type Agent = nat

  /** Where a requesting task is inside `request_publish`. */
  datatype Phase =
    | AtReady        // about to load s_ready
    | AtExchange     // about to exchange s_pending
    | AtSchedule     // won the exchange; about to schedule
    | AtRelease      // scheduling failed; about to clear s_pending

  /** The event loop's progress through `publish`. */
  datatype Worker = Idle | Begun | Cleared | Copied(version: nat)

  /** Who will clear the pending flag. */
  datatype Holder = Requester(a: Agent) | Job | Loop

  /**
   * Samples are numbered as they are stored. `holder`, `released` and `failed` only
   * record what happened: since the newest sample was stored, a failed request has
   * cleared the flag while that sample waited, or has failed to schedule.
   */
  datatype State = State(
    ready: bool, pending: bool, queued: nat, worker: Worker, agents: map<Agent, Phase>,
    version: nat, published: nat,
    holder: Option<Holder>, copied: nat, released: bool, failed: bool)

  const START := State(false, false, 0, Idle, map[], 0, 0, None, 0, false, false)

  datatype Step =
    | Store(a: Agent)                    // a sample, on its way to request_publish
    | Watchdog(a: Agent)                 // a request without a sample
    | SetReady(a: Agent)                 // matter_battery_start, then its own request
    | Load(a: Agent) | Exchange(a: Agent) | Schedule(a: Agent, ok: bool) | Release(a: Agent)
    | Dequeue | Clear | Copy | Publish   // the event loop

  predicate At(s: State, a: Agent, p: Phase) { a in s.agents && s.agents[a] == p }

  predicate Enabled(s: State, step: Step) {
    match step
    case Store(a) => a !in s.agents
    case Watchdog(a) => a !in s.agents
    case SetReady(a) => a !in s.agents
    case Load(a) => At(s, a, AtReady)
    case Exchange(a) => At(s, a, AtExchange)
    case Schedule(a, _) => At(s, a, AtSchedule)
    case Release(a) => At(s, a, AtRelease)
    case Dequeue => s.queued > 0 && s.worker == Idle
    case Clear => s.worker == Begun
    case Copy => s.worker == Cleared
    case Publish => s.worker.Copied?
  }

  function Next(s: State, step: Step): State
    requires Enabled(s, step)
  {
    match step
    case Store(a) => s.(version := s.version + 1, agents := s.agents[a := AtReady], released := false, failed := false)
    case Watchdog(a) => s.(agents := s.agents[a := AtReady])
    case SetReady(a) => s.(ready := true, agents := s.agents[a := AtReady])
    case Load(a) => s.(agents := if s.ready then s.agents[a := AtExchange] else s.agents - {a})
    case Exchange(a) =>
      if s.pending then s.(agents := s.agents - {a})
      else s.(pending := true, holder := Some(Requester(a)), agents := s.agents[a := AtSchedule])
    case Schedule(a, ok) =>
      if ok then s.(queued := s.queued + 1, holder := Some(Job), agents := s.agents - {a})
      else s.(agents := s.agents[a := AtRelease], failed := true)
    case Release(a) => s.(pending := false, holder := None, agents := s.agents - {a},
                            released := s.released || s.version > s.copied)
    case Dequeue => s.(queued := s.queued - 1, holder := Some(Loop), worker := Begun)
    case Clear => s.(pending := false, holder := None, worker := Cleared)
    case Copy => s.(copied := s.version, worker := Copied(s.version), released := false)
    case Publish => s.(published := s.worker.version, worker := Idle)
  }

  /** The flag is a token: held by one requester, by the one queued job, or by the loop. */
  predicate TokenOk(s: State) {
    && (s.pending <==> s.holder.Some?)
    && (forall a :: a in s.agents ==>
          (s.agents[a] in {AtSchedule, AtRelease} <==> s.holder == Some(Requester(a))))
    && (s.holder.Some? && s.holder.value.Requester? ==> s.holder.value.a in s.agents)
    && s.queued == (if s.holder == Some(Job) then 1 else 0)
    && (s.worker == Begun <==> s.holder == Some(Loop))
  }

  predicate Requesting(s: State) {
    exists a :: a in s.agents && s.agents[a] in {AtReady, AtExchange}
  }

  /** A sample not yet taken up has somebody coming for it, or a release gave it up. */
  predicate Served(s: State) {
    s.version > s.copied && s.ready ==>
      Requesting(s) || s.holder.Some? || s.worker == Cleared || s.released
  }

  predicate Inv(s: State) {
    && TokenOk(s) && Served(s)
    && s.copied <= s.version
    && (s.released ==> s.copied < s.version)
    && (s.worker.Copied? ==> s.worker.version == s.copied)
    && (!s.worker.Copied? ==> s.published == s.copied)
  }

  lemma TokenKept(s: State, step: Step)
    requires Inv(s) && Enabled(s, step)
    ensures TokenOk(Next(s, step))
  {
  }

  lemma ServedKept(s: State, step: Step)
    requires Inv(s) && Enabled(s, step)
    ensures Served(Next(s, step))
  {
    var s' := Next(s, step);
    match step
    case Store(a) => assert s'.agents[a] == AtReady;
    case SetReady(a) => assert s'.agents[a] == AtReady;
    case Watchdog(a) => assert s'.agents[a] == AtReady;
    case Load(a) =>
      if s.ready {
        assert s'.agents[a] == AtExchange;
      }
    case Exchange(a) =>
    case Schedule(a, ok) =>
    case Release(a) =>
    case _ =>
      if Requesting(s) {
        var b :| b in s.agents && s.agents[b] in {AtReady, AtExchange};
        assert b in s'.agents;
      }
  }

  lemma StepKeeps(s: State, step: Step)
    requires Inv(s) && Enabled(s, step)
    ensures Inv(Next(s, step))
  {
    TokenKept(s, step);
    ServedKept(s, step);
  }

  predicate Run(s: State, steps: seq<Step>)
    decreases steps
  {
    steps == [] || (Enabled(s, steps[0]) && Run(Next(s, steps[0]), steps[1..]))
  }

  function After(s: State, steps: seq<Step>): State
    requires Run(s, steps)
    decreases steps
  {
    if steps == [] then s else After(Next(s, steps[0]), steps[1..])
  }

  lemma {:induction false} RunKeeps(s: State, steps: seq<Step>)
    requires Inv(s) && Run(s, steps)
    ensures Inv(After(s, steps))
    decreases steps
  {
    if steps != [] {
      StepKeeps(s, steps[0]);
      RunKeeps(Next(s, steps[0]), steps[1..]);
    }
  }

  /** Nothing queued, requested or being published. */
  predicate Quiet(s: State) {
    s.agents == map[] && s.queued == 0 && s.worker == Idle
  }

  /**
   * In every interleaving at most one job is queued; and once everything is quiet
   * the newest sample was published, if and only if no failed request cleared the
   * flag while that sample waited.
   */
  lemma NewestIsPublished(steps: seq<Step>)
    requires Run(START, steps)
    ensures var e := After(START, steps);
            && e.queued <= 1
            && (e.queued == 1 ==> e.pending)
            && (Quiet(e) && e.ready ==> (e.published == e.version <==> !e.released))
  {
    RunKeeps(START, steps);
  }

  /** A request that nobody else is making, up to the queue. */
  lemma RequestQueues(s: State, a: Agent) returns (s1: State, s2: State, s3: State, s4: State)
    requires s.agents == map[] && s.ready && !s.pending
    ensures Enabled(s, Watchdog(a)) && s1 == Next(s, Watchdog(a))
    ensures Enabled(s1, Load(a)) && s2 == Next(s1, Load(a))
    ensures Enabled(s2, Exchange(a)) && s3 == Next(s2, Exchange(a))
    ensures Enabled(s3, Schedule(a, true)) && s4 == Next(s3, Schedule(a, true))
    ensures s4 == s.(pending := true, queued := s.queued + 1, holder := Some(Job))
  {
    s1 := Next(s, Watchdog(a));
    s2 := Next(s1, Load(a));
    s3 := Next(s2, Exchange(a));
    s4 := Next(s3, Schedule(a, true));
    assert s4.agents == map[];
  }

  lemma RunCons(s: State, step: Step, rest: seq<Step>)
    requires Enabled(s, step) && Run(Next(s, step), rest)
    ensures Run(s, [step] + rest) && After(s, [step] + rest) == After(Next(s, step), rest)
  {
    assert ([step] + rest)[1..] == rest;
  }

  /** The loop takes one queued job to its end. */
  lemma LoopPublishes(s: State) returns (steps: seq<Step>)
    requires s.queued > 0 && s.worker == Idle
    ensures Run(s, steps)
    ensures After(s, steps) == s.(queued := s.queued - 1, pending := false, holder := None, released := false,
                                  copied := s.version, published := s.version)
  {
    var s1 := Next(s, Dequeue);
    var s2 := Next(s1, Clear);
    var s3 := Next(s2, Copy);
    steps := [];
    RunCons(s3, Publish, steps);
    steps := [Publish] + steps;
    RunCons(s2, Copy, steps);
    steps := [Copy] + steps;
    RunCons(s1, Clear, steps);
    steps := [Clear] + steps;
    RunCons(s, Dequeue, steps);
    steps := [Dequeue] + steps;
  }

  /** A sample given up that way is published by the next request that can be scheduled. */
  lemma NextRequestRecovers(s: State, a: Agent) returns (steps: seq<Step>)
    requires Inv(s) && Quiet(s) && s.ready
    ensures Run(s, steps) && Quiet(After(s, steps))
    ensures After(s, steps).published == s.version == After(s, steps).version
  {
    assert !s.pending;
    hide Inv, Next, Enabled, Run, After;
    var s1, s2, s3, s4 := RequestQueues(s, a);
    steps := LoopPublishes(s4);
    RunCons(s3, Schedule(a, true), steps);
    steps := [Schedule(a, true)] + steps;
    RunCons(s2, Exchange(a), steps);
    steps := [Exchange(a)] + steps;
    RunCons(s1, Load(a), steps);
    steps := [Load(a)] + steps;
    RunCons(s, Watchdog(a), steps);
    steps := [Watchdog(a)] + steps;
  }

  lemma RunOf8(s: State, steps: seq<Step>, s1: State, s2: State, s3: State, s4: State, s5: State, s6: State, s7: State)
    requires |steps| == 8
    requires Enabled(s, steps[0]) && s1 == Next(s, steps[0])
    requires Enabled(s1, steps[1]) && s2 == Next(s1, steps[1])
    requires Enabled(s2, steps[2]) && s3 == Next(s2, steps[2])
    requires Enabled(s3, steps[3]) && s4 == Next(s3, steps[3])
    requires Enabled(s4, steps[4]) && s5 == Next(s4, steps[4])
    requires Enabled(s5, steps[5]) && s6 == Next(s5, steps[5])
    requires Enabled(s6, steps[6]) && s7 == Next(s6, steps[6])
    requires Enabled(s7, steps[7])
    ensures Run(s, steps) && After(s, steps) == Next(s7, steps[7])
  {
    hide Enabled, Next;
    assert Run(s7, steps[7..]) && After(s7, steps[7..]) == Next(s7, steps[7]);
    assert Run(s6, steps[6..]) && After(s6, steps[6..]) == Next(s7, steps[7]);
    assert Run(s5, steps[5..]) && After(s5, steps[5..]) == Next(s7, steps[7]);
    assert Run(s4, steps[4..]) && After(s4, steps[4..]) == Next(s7, steps[7]);
    assert Run(s3, steps[3..]) && After(s3, steps[3..]) == Next(s7, steps[7]);
    assert Run(s2, steps[2..]) && After(s2, steps[2..]) == Next(s7, steps[7]);
    assert Run(s1, steps[1..]) && After(s1, steps[1..]) == Next(s7, steps[7]);
    assert steps[0..] == steps;
  }

  /**
   * The failure itself may lie before the sample: a request that failed to schedule
   * still holds the flag while another task stores a sample and finds it taken.
   */
  lemma EarlierFailureLosesLaterSample()
    ensures var steps := [SetReady(0), Load(0), Exchange(0), Schedule(0, false),
                          Store(1), Load(1), Exchange(1), Release(0)];
            && Run(START, steps)
            && var e := After(START, steps);
            Quiet(e) && e.ready && !e.failed && e.published != e.version
  {
    var steps := [SetReady(0), Load(0), Exchange(0), Schedule(0, false), Store(1), Load(1), Exchange(1), Release(0)];
    var s1 := Next(START, steps[0]);
    var s2 := Next(s1, steps[1]);
    var s3 := Next(s2, steps[2]);
    var s4 := Next(s3, steps[3]);
    var s5 := Next(s4, steps[4]);
    var s6 := Next(s5, steps[5]);
    var s7 := Next(s6, steps[6]);
    assert Next(s7, steps[7]).agents == map[];
    RunOf8(START, steps, s1, s2, s3, s4, s5, s6, s7);
  }
}
