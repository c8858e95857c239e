// What the ledger protocol guarantees over whole runs.
module Safety {
  import opened Options
  import opened FilePlans
  import opened LedgerTypes
  import opened Transactions
  import opened LedgerInvariants
  import opened LedgerProofs
  import opened StepProofs
  import opened Protocol

  // ---------- a stopped apply never touches another file ----------

  // The step is a file mutation that the guard lets the apply of plan `p` make.
  ghost predicate Touches(d: Db, s: Step, p: PlanId) {
    s.TouchStep? && s.ws in d.locks && d.locks[s.ws].plan == p && MayTouch(d, d.locks[s.ws], PlanApplying, s.draft)
  }

  ghost predicate Halted(d: Db, p: PlanId) {
    && p in d.plans
    && (!(OpenPlan(d.plans[p].status) || d.plans[p].status.PlanApplying?)
        || Withheld(d, p)
        || exists a :: HaltedTask(d, p, a))
  }

  ghost predicate HaltedTask(d: Db, p: PlanId, a: TaskId) {
    a in d.tasks && d.tasks[a].kind == Apply(p) && !d.tasks[a].status.Queued? && !d.tasks[a].status.Running?
  }

  lemma HaltedStays(d: Db, e: Db, p: PlanId)
    requires Evolves(d, e) && Halted(d, p)
    ensures Halted(e, p)
  {
    assert PlanRowMoves(d, e, p) && WithheldStays(d, e, p);
    if a: TaskId :| HaltedTask(d, p, a) {
      assert TaskMoves(d, e, a);
      assert HaltedTask(e, p, a);
    }
  }

  lemma HaltedNeverTouches(d: Db, s: Step, p: PlanId)
    requires Inv(d) && Halted(d, p)
    ensures !Touches(d, s, p)
  {
    if s.TouchStep? && s.ws in d.locks && exists a :: HaltedTask(d, p, a) {
      var a :| HaltedTask(d, p, a);
      assert ApartTasks(d, a, d.locks[s.ws].record.task);
    }
  }

  // A stopped task is no longer queued, running or awaiting approval; its plans stay as they are.
  ghost predicate StoppedIn(w: Db, e: Db, t: TaskId) {
    && e.plans == w.plans && t in w.tasks && t in e.tasks
    && e.tasks[t].kind == w.tasks[t].kind && !Receptive(e.tasks[t].status)
  }

  lemma AskedIsStopped(w: Db, t: TaskId)
    requires t in w.tasks && t in w.claims && w.claims[t].exec in w.execs
    ensures StoppedIn(w, AskToStop(w, t), t)
  {
  }

  lemma ClosedIsStopped(w: Db, t: TaskId, uncertain: bool)
    requires t in w.tasks
    ensures StoppedIn(w, CloseTask(w, t, uncertain), t)
  {
  }

  lemma StoppedHalts(d: Db, e: Db, t: TaskId, p: PlanId)
    requires t in d.tasks && p in d.plans && t in e.tasks && e.plans == RevokeOpen(d.plans, t)
    requires e.tasks[t].kind == d.tasks[t].kind && !Receptive(e.tasks[t].status)
    requires d.tasks[t].kind == Apply(p) || t == d.plans[p].task
    ensures Halted(e, p)
  {
    if d.tasks[t].kind == Apply(p) { assert HaltedTask(e, p, t); }
  }

  // A cancellation that gets past its early returns halts the task's plans, and its apply.
  lemma CancelHalts(d: Db, t: TaskId, owner: Owner, selected: bool, p: PlanId)
    requires Inv(d) && CancelActs(d, t, owner, selected) && p in d.plans && (d.tasks[t].kind == Apply(p) || t == d.plans[p].task)
    ensures Halted(CancelTask(d, t, owner, selected), p)
  {
    var w := Withdraw(d, t);
    assert TaskRow(d, t);
    WithdrawSpares(d, t);
    if Stoppable(d, t) { AskedIsStopped(w, t); } else { ClosedIsStopped(w, t, Unresolved(w, t, true)); }
    StoppedHalts(d, CancelTask(d, t, owner, selected), t, p);
  }

  // ---------- who may touch files ----------

  // At each mutation the plan is applying and unexpired, its request still accepts changes,
  // and the apply task, attempt, claim and worker are all live; no other operation of the
  // workspace is claimed and no other plan of the workspace has unsettled file effects.
  lemma TouchIsLive(d: Db, s: Step, p: PlanId)
    requires Inv(d) && Touches(d, s, p)
    ensures var h := d.locks[s.ws];
      && p in d.plans && d.plans[p].workspace == s.ws && d.plans[p].status.PlanApplying? && d.plans[p].expires > d.clock
      && d.plans[p].task in d.tasks && Receptive(d.tasks[d.plans[p].task].status)
      && LiveClaim(d, h.record.task) && d.claims[h.record.task].worker == h.record.worker
      && d.tasks[h.record.task].status.Running? && d.execs[h.record.exec].status.ExecRunning?
      && !d.workers[h.record.worker].closed && d.workers[h.record.worker].heartbeat > d.clock - HEARTBEAT_SECONDS
      && (forall u | u in d.tasks && OpenClaim(d, u) && d.tasks[u].workspace == s.ws :: u == h.record.task)
      && (forall q | q in d.plans && d.plans[q].workspace == s.ws && HeldPlan(d.plans[q].status) :: q == p)
  {
    var h := d.locks[s.ws];
    assert LockRow(d, s.ws);
    forall u | u in d.tasks && OpenClaim(d, u) && d.tasks[u].workspace == s.ws ensures u == h.record.task {
      assert ApartClaims(d, h.record.task, u);
    }
    forall q | q in d.plans && d.plans[q].workspace == s.ws && HeldPlan(d.plans[q].status) ensures q == p {
      assert ApartPlans(d, p, q);
    }
  }

  // Reader/apply exclusion in every reachable state.
  lemma ReaderApplyExclusion(states: seq<Db>, steps: seq<Step>, i: nat, t: TaskId, u: TaskId)
    requires Run(states, steps) && i < |states|
    requires t in states[i].tasks && u in states[i].tasks && OpenClaim(states[i], t) && OpenClaim(states[i], u) && t != u
    requires states[i].tasks[t].workspace == states[i].tasks[u].workspace
    ensures states[i].tasks[t].kind.Request? && states[i].tasks[u].kind.Request?
  {
    Reachable(states, steps, i);
    assert ApartClaims(states[i], t, u) && ApartClaims(states[i], u, t);
  }

  // At most one plan of a workspace has file effects that are not settled.
  lemma OneHeldPlan(states: seq<Db>, steps: seq<Step>, i: nat, p: PlanId, q: PlanId)
    requires Run(states, steps) && i < |states| && p in states[i].plans && q in states[i].plans
    requires states[i].plans[p].workspace == states[i].plans[q].workspace
    requires HeldPlan(states[i].plans[p].status) && HeldPlan(states[i].plans[q].status)
    ensures p == q
  {
    Reachable(states, steps, i);
    assert ApartPlans(states[i], p, q);
  }

  // ---------- a plan is applied at most once ----------

  // A plan keeps its reviewed content for ever, and its status only moves forward: revoked and
  // expired plans stay so, and a plan that has begun keeps its journal.
  lemma PlansMoveForward(states: seq<Db>, steps: seq<Step>, i: nat, j: nat, p: PlanId)
    requires Run(states, steps) && i <= j < |states| && p in states[i].plans
    ensures p in states[j].plans
    ensures var a, b := states[i].plans[p], states[j].plans[p];
      && a.changes == b.changes && a.hash == b.hash && a.task == b.task && PlanMoves(a.status, b.status)
      && (a.status.PlanRevoked? || a.status.PlanExpired? ==> b.status == a.status)
      && (BegunPlan(a.status) ==> BegunPlan(b.status) && p in states[j].journal && Journaled(b.changes, states[j].journal[p]))
  {
    Reachable(states, steps, j);
    Later(states, steps, i, j);
    assert PlanRowMoves(states[i], states[j], p) && PlanRow(states[j], p);
  }

  // One apply task a plan, started at most once in the whole run; plans only move forward.
  lemma ApplyOnce(states: seq<Db>, steps: seq<Step>, i: nat, j: nat, t: TaskId, u: TaskId, p: PlanId)
    requires Run(states, steps) && i <= j < |states|
    requires t in states[i].tasks && states[i].tasks[t].kind == Apply(p)
    requires u in states[j].tasks && states[j].tasks[u].kind == Apply(p)
    ensures t == u && |AttemptsOf(states[j].execs, u)| <= 1
    ensures p in states[i].plans && p in states[j].plans && PlanMoves(states[i].plans[p].status, states[j].plans[p].status)
  {
    Reachable(states, steps, i);
    Reachable(states, steps, j);
    Later(states, steps, i, j);
    assert TaskMoves(states[i], states[j], t) && PlanRowMoves(states[i], states[j], p);
    assert ApartTasks(states[j], t, u) && TaskRow(states[i], t) && TaskRow(states[j], u) && CountRow(states[j], u);
  }

  // A request whose plan has begun to touch files is never queued for another attempt.
  lemma ResumeRefusedForever(states: seq<Db>, steps: seq<Step>, i: nat, j: nat, p: PlanId, owner: Owner, w: WorkerId)
    requires Run(states, steps) && i <= j < |states|
    requires p in states[i].plans && BegunPlan(states[i].plans[p].status)
    ensures p in states[j].plans && states[j].plans[p].task == states[i].plans[p].task
    ensures !CanResume(states[j], states[i].plans[p].task, owner, w)
  {
    Reachable(states, steps, i);
    Later(states, steps, i, j);
    assert PlanRowMoves(states[i], states[j], p);
  }

  // The one unconditional status update of the apply (its `except` branch) cannot undo a
  // settled plan, because the workspace lock keeps every other writer of that status out.
  lemma FailureOnlyMarksApplying(states: seq<Db>, steps: seq<Step>, i: nat, ws: Workspace)
    requires Run(states, steps) && i < |states| && ws in states[i].locks
    ensures var p := states[i].locks[ws].plan;
      && p in states[i].plans && states[i].plans[p].status.PlanApplying?
      && FailApply(states[i], ws).plans == states[i].plans[p := states[i].plans[p].(status := PlanUncertain)]
  {
    Reachable(states, steps, i);
    assert LockRow(states[i], ws);
  }
}
