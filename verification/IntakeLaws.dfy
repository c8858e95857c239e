// What an intake adds to the ledger, field by field, and what a repeated message adds: nothing.
module IntakeLaws {
  import opened Options
  import opened FilePlans
  import opened LedgerTypes
  import opened Transactions
  import opened LedgerInvariants
  import opened LedgerProofs
  import opened Protocol
  import opened Frames
  import opened ClosingCauses
  import opened WorkCauses

  // The worker was heard of at most thirty seconds ago and has not closed.
  predicate Reporting(d: Db, w: WorkerId) {
    w in d.workers && !d.workers[w].closed && d.clock - d.workers[w].heartbeat <= 30
  }

  // No task carries the message.
  predicate NewMessage(d: Db, source: Option<nat>) {
    source.None? || forall t | t in d.tasks :: d.tasks[t].source != source
  }

  predicate NoApplyYet(d: Db, p: PlanId) {
    forall t | t in d.tasks && d.tasks[t].kind.Apply? :: d.tasks[t].kind.plan != p
  }

  // A fresh row: queued and eligible on the worker of its intake, with all its attempts left,
  // at the end of the queue of its priority class.
  predicate FreshRow(d: Db, r: Task, i: Intake) {
    && r.owner == i.owner && r.worker == i.worker && r.status.Queued? && r.eligible && r.current.None?
    && r.attempts == 0 && r.limit == 3 && r.priority == 100 && r.created == d.clock && r.rowid == d.rows
  }

  // The turn of a conversation that a request joins, or none.
  predicate JoinsThread(d: Db, e: Db, i: Intake) {
    match i.conversation
    case None => e.turns == d.turns && e.sessions == d.sessions
    case Some(c) =>
      var k := SessionKey(i.owner, c, i.workspace);
      var generation, next := if k in d.sessions then d.sessions[k].generation else 1, if k in d.sessions then d.sessions[k].next else 1;
      && i.task in e.turns && e.turns == d.turns[i.task := e.turns[i.task]]
      && e.turns[i.task].session == k && e.turns[i.task].generation == generation && e.turns[i.task].sequence == next
      && !e.turns[i.task].question && e.turns[i.task].completed.None?
      && e.sessions == d.sessions[k := Session(generation, next + 1, None)]
  }

  lemma BindJoins(d: Db, d1: Db, i: Intake)
    requires i.conversation.Some? && d1.turns == d.turns && d1.sessions == d.sessions
    ensures var e := Bind(d1, i.task, SessionKey(i.owner, i.conversation.value, i.workspace));
      JoinsThread(d, e, i) && e == d1.(turns := e.turns, sessions := e.sessions)
  {
    hide Newest;
  }

  // A request is admitted exactly when its worker reports, its message is new and its parent is
  // known; it adds one row with exactly the intake's fields and its place in the conversation,
  // and a refused one changes nothing.
  lemma SubmitExactly(d: Db, i: Intake)
    requires i.task !in d.tasks
    ensures var e := SubmitRequest(d, i);
      if Reporting(d, i.worker) && NewMessage(d, i.source) && (i.parent.Some? ==> i.parent.value in d.tasks) then
        && i.task in e.tasks && e.tasks == d.tasks[i.task := e.tasks[i.task]] && FreshRow(d, e.tasks[i.task], i) && e.rows == d.rows + 1
        && e.tasks[i.task].kind.Request? && e.tasks[i.task].workspace == i.workspace
        && e.tasks[i.task].source == i.source && e.tasks[i.task].parent == i.parent
        && JoinsThread(d, e, i)
      else e == d
  {
    var d1 := Insert(d, i, Request, i.parent);
    if i.conversation.Some? { BindJoins(d, d1, i); }
    hide Bind;
    if CanSubmit(d, i) {}
  }

  // An apply is admitted exactly for an approved plan of its owner and workspace that has no
  // apply yet, as a child of the request that proposed it.
  lemma SubmitApplyExactly(d: Db, i: Intake, p: PlanId)
    requires i.task !in d.tasks
    ensures var e := SubmitApply(d, i, p);
      if Reporting(d, i.worker) && NewMessage(d, i.source) && NoApplyYet(d, p)
         && p in d.plans && d.plans[p].owner == i.owner && d.plans[p].workspace == i.workspace && d.plans[p].status.PlanApproved?
      then
        && i.task in e.tasks && e.tasks == d.tasks[i.task := e.tasks[i.task]] && FreshRow(d, e.tasks[i.task], i) && e.rows == d.rows + 1
        && e.tasks[i.task].kind == Apply(p) && e.tasks[i.task].workspace == i.workspace
        && e.tasks[i.task].source == i.source && e.tasks[i.task].parent == Some(d.plans[p].task)
      else e == d
  {
    if CanSubmitApply(d, i, p) {}
  }

  // The owner's approval and the admission of the apply are one commit: both or neither.
  lemma ApproveAndSubmitExactly(d: Db, i: Intake, p: PlanId, reviewed: seq<Change>, draft: bool)
    requires i.task !in d.tasks
    ensures var e := ApproveAndSubmit(d, i, p, reviewed, draft);
      if Reporting(d, i.worker) && NoApplyYet(d, p)
         && draft && p in d.plans && d.plans[p].owner == i.owner && OpenPlan(d.plans[p].status)
         && d.plans[p].task in d.tasks && Receptive(d.tasks[d.plans[p].task].status)
         && d.clock < d.plans[p].expires && d.plans[p].hash == reviewed
      then
        && e.plans == d.plans[p := d.plans[p].(status := PlanApproved)]
        && i.task in e.tasks && e.tasks == d.tasks[i.task := e.tasks[i.task]] && FreshRow(d, e.tasks[i.task], i) && e.rows == d.rows + 1
        && e.tasks[i.task].kind == Apply(p) && e.tasks[i.task].workspace == d.plans[p].workspace
        && e.tasks[i.task].source == None && e.tasks[i.task].parent == Some(d.plans[p].task)
      else e == d
  {
    if !HasApplyTask(d, p) && CanApprove(d, p, i.owner, reviewed, draft) {
      var d1 := SetPlan(d, p, PlanApproved);
      assert ApprovePlan(d, p, i.owner, reviewed, draft) == d1;
      if CanSubmitApply(d1, i.(workspace := d.plans[p].workspace, source := None), p) {}
    }
  }

  // ---------- a message is admitted once ----------

  // The step admits a task for message `m`.
  ghost predicate Admits(d: Db, s: Step, m: nat) {
    && (s.SubmitStep? || s.SubmitApplyStep?) && s.intake.source == Some(m)
    && s.intake.task !in d.tasks && s.intake.task in Next(d, s).tasks
  }

  lemma AdmittedCarriesMessage(d: Db, s: Step, m: nat)
    requires Admits(d, s, m)
    ensures Next(d, s).tasks[s.intake.task].source == Some(m) && NewMessage(d, Some(m))
  {
    if s.SubmitStep? { SubmitExactly(d, s.intake); } else { SubmitApplyExactly(d, s.intake, s.p); }
    hide SubmitRequest, SubmitApply;
  }

  // However often a message arrives, at most one intake of the whole run adds a task for it.
  lemma MessageAdmittedOnce(states: seq<Db>, steps: seq<Step>, i: nat, j: nat, m: nat)
    requires Run(states, steps) && i < |steps| && j < |steps| && Admits(states[i], steps[i], m) && Admits(states[j], steps[j], m)
    ensures i == j
  {
    hide Next;
    assert Follows(states, steps, i) && Follows(states, steps, j);
    AdmittedCarriesMessage(states[i], steps[i], m);
    AdmittedCarriesMessage(states[j], steps[j], m);
    if i < j { SourceStays(states, steps, i + 1, j, steps[i].intake.task); }
    if j < i { SourceStays(states, steps, j + 1, i, steps[j].intake.task); }
  }

  // ---------- the queue keeps the order of admission ----------

  // The intakes of a run number their rows in order and date them by the clock.
  lemma LaterIsBehind(states: seq<Db>, steps: seq<Step>, a: nat, b: nat, t: TaskId, u: TaskId)
    requires Run(states, steps) && a < b < |steps|
    requires t !in states[a].tasks && t in states[a + 1].tasks && u !in states[b].tasks && u in states[b + 1].tasks
    ensures t in states[b + 1].tasks
    ensures var r, q := states[b + 1].tasks[t], states[b + 1].tasks[u]; r.created <= q.created && r.rowid < q.rowid
  {
    AdmittedAt(states, steps, a, t);
    AdmittedAt(states, steps, b, u);
    hide Next, Admitted;
    Later(states, steps, a, b);
    Later(states, steps, a + 1, b);
    Later(states, steps, a + 1, b + 1);
    assert TaskMoves(states[a + 1], states[b + 1], t);
  }

  lemma AdmittedAt(states: seq<Db>, steps: seq<Step>, a: nat, t: TaskId)
    requires Run(states, steps) && a < |steps| && t !in states[a].tasks && t in states[a + 1].tasks
    ensures var r := states[a + 1].tasks[t]; r.rowid == states[a].rows < states[a + 1].rows && r.created == states[a].clock
  {
    assert Follows(states, steps, a);
    Reachable(states, steps, a);
    Reachable(states, steps, a + 1);
    NewTasksAreAdmitted(states[a], steps[a], t);
    assert TaskRow(states[a + 1], t);
    hide Run, Next, Inv, WorkerReady, HasApplyTask;
  }
}
