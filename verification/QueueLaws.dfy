// Which task a claim starts, field by field, and what that means for the order of work.
module QueueLaws {
  import opened Options
  import opened FilePlans
  import opened LedgerTypes
  import opened Transactions
  import opened LedgerInvariants
  import opened LedgerProofs
  import opened Protocol
  import opened Frames
  import opened ClosingCauses
  import opened WorkCauses
  import opened IntakeLaws

  // Queued for worker `w`, eligible, with an attempt left.
  predicate Waiting(d: Db, t: TaskId, w: WorkerId) {
    t in d.tasks && d.tasks[t].status.Queued? && d.tasks[t].eligible && d.tasks[t].attempts < d.tasks[t].limit && d.tasks[t].worker == w
  }

  // No other turn of the conversation runs or is being stopped, and none before it waits.
  predicate TurnIsNext(d: Db, t: TaskId) {
    t in d.turns ==>
      forall u | u in d.turns && u != t && u in d.tasks && d.turns[u].session == d.turns[t].session && d.turns[u].generation == d.turns[t].generation ::
        && !d.tasks[u].status.Running? && !d.tasks[u].status.Cancelling?
        && (d.turns[u].sequence < d.turns[t].sequence ==> !Waiting(d, u, d.tasks[u].worker))
  }

  // Requests read side by side; an apply has its workspace to itself.
  predicate WorkspaceIsFree(d: Db, t: TaskId)
    requires t in d.tasks
  {
    forall u | u in d.tasks && OpenClaim(d, u) && d.tasks[u].workspace == d.tasks[t].workspace ::
      d.tasks[t].kind.Request? && d.tasks[u].kind.Request?
  }

  predicate MayStart(d: Db, t: TaskId, w: WorkerId) { Waiting(d, t, w) && TurnIsNext(d, t) && WorkspaceIsFree(d, t) }

  lemma MayStartExactly(d: Db, t: TaskId, w: WorkerId)
    requires Inv(d)
    ensures MayStart(d, t, w) <==> Claimable(d, t, w)
  {
    if t in d.tasks {
      forall u | u in d.tasks && OpenClaim(d, u) ensures u in d.claims && !d.claims[u].released {}
      if !TurnIsNext(d, t) {
        var u :| u in d.turns && u != t && u in d.tasks && d.turns[u].session == d.turns[t].session && d.turns[u].generation == d.turns[t].generation
          && !(!d.tasks[u].status.Running? && !d.tasks[u].status.Cancelling? && (d.turns[u].sequence < d.turns[t].sequence ==> !Waiting(d, u, d.tasks[u].worker)));
        assert SameThread(d, t, u);
      }
    }
  }

  // Smaller priority number first, then the older task, then the earlier row.
  predicate AheadInQueue(a: Task, b: Task) {
    if a.priority != b.priority then a.priority < b.priority
    else if a.created != b.created then a.created < b.created
    else a.rowid < b.rowid
  }

  // With a free slot a claim starts exactly the task that may start and is ahead of every other
  // one that may; it gets the whole attempt row, a thirty-second claim and the next attempt number.
  lemma ClaimStartsExactly(d: Db, w: WorkerId, slots: int, t: TaskId, x: ExecId)
    requires Inv(d) && x !in d.execs
    ensures var e := ClaimNext(d, w, slots, t, x);
      if |OpenClaims(d)| < slots && MayStart(d, t, w) && forall u | u in d.tasks && u != t && MayStart(d, u, w) :: AheadInQueue(d.tasks[t], d.tasks[u])
      then
        && e.tasks == d.tasks[t := d.tasks[t].(status := Running, current := Some(x), attempts := d.tasks[t].attempts + 1)]
        && e.execs == d.execs[x := Exec(t, ExecRunning, d.clock, None, true)]
        && e.claims == d.claims[t := Claim(w, d.tasks[t].owner, x, d.clock + 30, false)]
      else e == d
  {
    forall u ensures MayStart(d, u, w) <==> Claimable(d, u, w) { MayStartExactly(d, u, w); }
    assert ClaimRow(d, t);
    hide Inv, MayStart, Claimable;
    if ClaimAnswers(d, w, slots, Some(t)) && ClaimInserts(d, t, x) {}
  }

  // A claim that finds nothing to start answers so only if the slots are taken or nothing may start.
  lemma NothingToStartExactly(d: Db, w: WorkerId, slots: int)
    requires Inv(d)
    ensures ClaimAnswers(d, w, slots, None) <==> |OpenClaims(d)| >= slots || forall t :: !MayStart(d, t, w)
  {
    forall u ensures MayStart(d, u, w) <==> Claimable(d, u, w) { MayStartExactly(d, u, w); }
    hide Inv, MayStart;
  }

  // The step starts `t`.
  ghost predicate Starts(d: Db, s: Step, t: TaskId) {
    s.ClaimStep? && s.t == t && t in d.tasks && t in Next(d, s).tasks && !d.tasks[t].status.Running? && Next(d, s).tasks[t].status.Running?
  }

  // Of two tasks that may start, the one ahead in priority, age and row starts first.
  lemma AheadStartsFirst(d: Db, s: Step, t: TaskId, u: TaskId)
    requires Inv(d) && Starts(d, s, t) && u != t && MayStart(d, u, s.w)
    ensures AheadInQueue(d.tasks[t], d.tasks[u])
  {
    assert u in d.tasks;
    hide Inv, MayStart, ClaimAnswers;
    assert s.x !in d.execs;
    ClaimStartsExactly(d, s.w, s.slots, t, s.x);
    hide ClaimNext;
  }

  // Over runs: of two tasks of equal priority that may both start, the one admitted earlier
  // is started first.
  lemma OldestFirst(states: seq<Db>, steps: seq<Step>, i: nat, t: TaskId, u: TaskId, a: nat, b: nat)
    requires Run(states, steps) && i < |steps| && Starts(states[i], steps[i], t)
    requires u != t && MayStart(states[i], u, steps[i].w) && states[i].tasks[t].priority == states[i].tasks[u].priority
    requires a < i && t !in states[a].tasks && t in states[a + 1].tasks
    requires b < i && u !in states[b].tasks && u in states[b + 1].tasks
    ensures a < b
  {
    Reachable(states, steps, i);
    AheadStartsFirst(states[i], steps[i], t, u);
    assert u in states[i].tasks;
    hide Next, Inv, MayStart, Starts;
    AheadIsEarlier(states, steps, i, t, u, a, b);
  }

  lemma AheadIsEarlier(states: seq<Db>, steps: seq<Step>, i: nat, t: TaskId, u: TaskId, a: nat, b: nat)
    requires Run(states, steps) && i < |steps| && t in states[i].tasks && u in states[i].tasks && t != u
    requires states[i].tasks[t].priority == states[i].tasks[u].priority && AheadInQueue(states[i].tasks[t], states[i].tasks[u])
    requires a < i && t !in states[a].tasks && t in states[a + 1].tasks
    requires b < i && u !in states[b].tasks && u in states[b + 1].tasks
    ensures a < b
  {
    hide Next;
    if b < a {
      LaterIsBehind(states, steps, b, a, u, t);
      QueuePlaceStays(states, steps, a + 1, i, t);
      QueuePlaceStays(states, steps, a + 1, i, u);
    }
    if a == b { OneAdmissionAtATime(states, steps, a, t, u); }
  }

  lemma QueuePlaceStays(states: seq<Db>, steps: seq<Step>, i: nat, j: nat, t: TaskId)
    requires Run(states, steps) && i <= j < |states| && t in states[i].tasks
    ensures t in states[j].tasks && states[j].tasks[t].created == states[i].tasks[t].created && states[j].tasks[t].rowid == states[i].tasks[t].rowid
  {
    Later(states, steps, i, j);
    assert TaskMoves(states[i], states[j], t);
  }

  lemma OneAdmissionAtATime(states: seq<Db>, steps: seq<Step>, a: nat, t: TaskId, u: TaskId)
    requires Run(states, steps) && a < |steps| && t !in states[a].tasks && u !in states[a].tasks
    requires t in states[a + 1].tasks && u in states[a + 1].tasks
    ensures t == u
  {
    Reachable(states, steps, a + 1);
    AdmittedAt(states, steps, a, t);
    AdmittedAt(states, steps, a, u);
    assert ApartTasks(states[a + 1], t, u);
  }

  // ---------- the clock, the workers and the priorities ----------

  // The clock and the row of worker `w` after the step: the clock never goes back, and a worker
  // is heard of only when it registers for the first time or reports.
  ghost predicate ClockAndWorker(d: Db, s: Step, e: Db, w: WorkerId) {
    && e.clock == (if s.TickStep? && d.clock < s.now then s.now else d.clock)
    && if w in d.workers then
         w in e.workers && e.workers[w] == if s.HeartbeatStep? && s.w == w then Worker(d.clock, s.closed) else d.workers[w]
       else if s == RegisterStep(w) then w in e.workers && e.workers[w] == Worker(d.clock, false)
       else w !in e.workers
  }

  lemma ReportsExactly(d: Db, s: Step, w: WorkerId)
    ensures ClockAndWorker(d, s, Next(d, s), w)
  {
    if s.TickStep? || s.RegisterStep? || s.HeartbeatStep? {
      OneReports(d, s, w);
    } else {
      OthersReportNothing(d, s);
    }
    hide Next;
  }

  lemma OneReports(d: Db, s: Step, w: WorkerId)
    requires s.TickStep? || s.RegisterStep? || s.HeartbeatStep?
    ensures ClockAndWorker(d, s, Next(d, s), w)
  {
    hide Tick, RegisterWorker, Heartbeat, SubmitRequest, SubmitApply, ApproveAndSubmit, ApprovePlan, RevokePlan, ProposePlan;
    hide StartFailure, Recover, ClaimNext, Renew, Finish, Resume, CancelTask, SettleExpired, BeginApply, MarkJournal, CommitApply;
    hide FailApply, CrashApply, ResolvePlan, ClaimDelivery, SettleDelivery, Acknowledge, ResetSession, Assess;
    match s {
      case TickStep(now) => TickReports(d, now);
      case RegisterStep(v) => RegisterReports(d, v, w);
      case HeartbeatStep(v, closed) => HeartbeatReports(d, v, closed, w);
    }
  }

  lemma TickReports(d: Db, now: int)
    ensures Tick(d, now) == d.(clock := if d.clock < now then now else d.clock)
  {
  }

  lemma RegisterReports(d: Db, v: WorkerId, w: WorkerId)
    ensures ClockAndWorker(d, RegisterStep(v), RegisterWorker(d, v), w)
  {
    if v in d.workers {}
  }

  lemma HeartbeatReports(d: Db, v: WorkerId, closed: bool, w: WorkerId)
    ensures ClockAndWorker(d, HeartbeatStep(v, closed), Heartbeat(d, v, closed), w)
  {
    if v in d.workers {}
  }

  lemma OthersReportNothing(d: Db, s: Step)
    requires !s.TickStep? && !s.RegisterStep? && !s.HeartbeatStep?
    ensures Next(d, s).clock == d.clock && Next(d, s).workers == d.workers
  {
    if IntakeStep(s) { hide Next; IntakeFrame(d, s); }
    else if PlanReview(s) { hide Next; ReviewFrame(d, s); }
    else if ApplyStep(s) { hide Next; ApplyFrame(d, s); }
    else if AttemptStep(s) { hide Next; AttemptFrame(d, s); }
    else { DeliveriesReportNothing(d, s); }
  }

  lemma DeliveriesReportNothing(d: Db, s: Step)
    requires s.ClaimDeliveryStep? || s.SettleDeliveryStep? || s.AcknowledgeStep?
    ensures Next(d, s).clock == d.clock && Next(d, s).workers == d.workers
  {
    hide Tick, RegisterWorker, Heartbeat, SubmitRequest, SubmitApply, ApproveAndSubmit, ApprovePlan, RevokePlan, ProposePlan;
    hide StartFailure, Recover, ClaimNext, Renew, Finish, Resume, CancelTask, SettleExpired, BeginApply, MarkJournal, CommitApply;
    hide FailApply, CrashApply, ResolvePlan, ClaimDelivery, SettleDelivery, Acknowledge, ResetSession, Assess;
    match s {
      case ClaimDeliveryStep(t, owner, x, attempt) => ClaimDeliveryFrame(d, t, owner, x, attempt);
      case SettleDeliveryStep(x, delivered) => SettleDeliveryFrame(d, x, delivered);
      case AcknowledgeStep(t, owner) => AcknowledgeFrame(d, t, owner);
    }
  }

  // Routing sets the priority of one known task and changes nothing else.
  lemma AssessExactly(d: Db, t: TaskId, priority: int)
    ensures var e := Assess(d, t, priority);
      && e == d.(tasks := e.tasks) && e.tasks.Keys == d.tasks.Keys
      && forall u | u in d.tasks :: e.tasks[u] == if u == t then d.tasks[u].(priority := priority) else d.tasks[u]
  {
    if t in d.tasks {}
  }
}
