// The transactions that create and claim nothing: each is an instance of one of the
// changes to a group of tables that keep the invariant.
module CalmProofs {
  import opened Options
  import opened FilePlans
  import opened LedgerTypes
  import opened Transactions
  import opened LedgerInvariants
  import opened LedgerProofs

  // ---------- the clock and the workers ----------

  lemma TickKeeps(d: Db, now: int)
    requires Inv(d)
    ensures Keeps(d, Tick(d, now))
  {
    KeepsSelf(d);
    if now >= d.clock { ClockStepKeeps(d, d.(clock := now)); }
  }

  lemma RegisterKeeps(d: Db, w: WorkerId)
    requires Inv(d)
    ensures Keeps(d, RegisterWorker(d, w))
  {
    KeepsSelf(d);
    if w !in d.workers { ClockStepKeeps(d, d.(workers := d.workers[w := Worker(d.clock, false)])); }
  }

  lemma HeartbeatKeeps(d: Db, w: WorkerId, closed: bool)
    requires Inv(d)
    ensures Keeps(d, Heartbeat(d, w, closed))
  {
    KeepsSelf(d);
    if w in d.workers { ClockStepKeeps(d, d.(workers := d.workers[w := Worker(d.clock, closed)])); }
  }

  // ---------- tasks, claims and attempts ----------

  lemma StopChildrenTask(d: Db, cs: set<TaskId>, u: TaskId)
    requires TaskRow(d, u) && ClaimRow(d, u)
    ensures GoodTask(d, StopChildren(d, cs), u) && CalmTask(d, StopChildren(d, cs), u)
  {
  }

  lemma StopChildrenExec(d: Db, cs: set<TaskId>, x: ExecId)
    requires ExecRow(d, x) && ResultRow(d, x)
    requires x in d.execs ==> TaskRow(d, d.execs[x].task) && ClaimRow(d, d.execs[x].task)
    ensures GoodExec(d, StopChildren(d, cs), x) && CalmExec(d, StopChildren(d, cs), x)
  {
  }

  lemma StopChildrenKeeps(d: Db, cs: set<TaskId>)
    requires Inv(d)
    ensures Keeps(d, StopChildren(d, cs))
  {
    var e := StopChildren(d, cs);
    forall u: TaskId ensures GoodTask(d, e, u) && CalmTask(d, e, u) {
      assert TaskRow(d, u) && ClaimRow(d, u);
      StopChildrenTask(d, cs, u);
    }
    forall x: ExecId ensures GoodExec(d, e, x) && CalmExec(d, e, x) {
      assert ExecRow(d, x) && ResultRow(d, x);
      if x in d.execs { assert TaskRow(d, d.execs[x].task) && ClaimRow(d, d.execs[x].task); }
      StopChildrenExec(d, cs, x);
    }
    WorkChangeKeeps(d, e);
  }

  lemma CloseReviewsKeeps(d: Db, t: TaskId, uncertain: bool)
    requires Inv(d)
    ensures Keeps(d, CloseReviews(d, t, uncertain))
  {
    var e := CloseReviews(d, t, uncertain);
    forall u: TaskId ensures GoodTask(d, e, u) && CalmTask(d, e, u) { assert TaskRow(d, u) && ClaimRow(d, u); }
    forall x: ExecId ensures GoodExec(d, e, x) && CalmExec(d, e, x) { assert ExecRow(d, x) && ResultRow(d, x); }
    WorkChangeKeeps(d, e);
  }

  lemma AskToStopKeeps(d: Db, t: TaskId)
    requires Inv(d)
    requires t in d.tasks && OpenClaim(d, t) && d.claims[t].exec in d.execs && ActiveTask(d.tasks[t].status)
    ensures Keeps(d, AskToStop(d, t))
  {
    var e := AskToStop(d, t);
    assert ClaimRow(d, t);
    forall u: TaskId ensures GoodTask(d, e, u) && CalmTask(d, e, u) { assert TaskRow(d, u) && ClaimRow(d, u); }
    forall x: ExecId ensures GoodExec(d, e, x) && CalmExec(d, e, x) { assert ExecRow(d, x) && ResultRow(d, x); }
    WorkChangeKeeps(d, e);
  }

  lemma CloseTaskTask(d: Db, t: TaskId, uncertain: bool, u: TaskId)
    requires TaskRow(d, u) && ClaimRow(d, u)
    requires t in d.tasks && !TerminalTask(d.tasks[t].status) && !Leaked(d, t)
    ensures GoodTask(d, CloseTask(d, t, uncertain), u) && CalmTask(d, CloseTask(d, t, uncertain), u)
  {
  }

  lemma CloseTaskExec(d: Db, t: TaskId, uncertain: bool, x: ExecId)
    requires ExecRow(d, x) && ResultRow(d, x)
    requires t in d.tasks && !TerminalTask(d.tasks[t].status) && !Leaked(d, t)
    requires x in d.execs ==> TaskRow(d, d.execs[x].task) && ClaimRow(d, d.execs[x].task)
    ensures GoodExec(d, CloseTask(d, t, uncertain), x) && CalmExec(d, CloseTask(d, t, uncertain), x)
  {
  }

  lemma CloseTaskKeeps(d: Db, t: TaskId, uncertain: bool)
    requires Inv(d)
    requires t in d.tasks && !TerminalTask(d.tasks[t].status) && !Leaked(d, t)
    ensures Keeps(d, CloseTask(d, t, uncertain))
  {
    var e := CloseTask(d, t, uncertain);
    forall u: TaskId ensures GoodTask(d, e, u) && CalmTask(d, e, u) {
      assert TaskRow(d, u) && ClaimRow(d, u);
      CloseTaskTask(d, t, uncertain, u);
    }
    forall x: ExecId ensures GoodExec(d, e, x) && CalmExec(d, e, x) {
      assert ExecRow(d, x) && ResultRow(d, x);
      if x in d.execs { assert TaskRow(d, d.execs[x].task) && ClaimRow(d, d.execs[x].task); }
      CloseTaskExec(d, t, uncertain, x);
    }
    WorkChangeKeeps(d, e);
  }

  lemma HoldTaskKeeps(d: Db, t: TaskId, s: TaskStatus, eligible: bool)
    requires Inv(d)
    requires t in d.tasks && (s.Blocked? || s.Cancelled?) && (d.tasks[t].kind.Request? || TerminalTask(d.tasks[t].status))
    requires OpenClaim(d, t) ==> s.Blocked? && !eligible && d.claims[t].expires <= d.clock
    ensures Keeps(d, SetTask(d, t, s, eligible))
  {
    var e := SetTask(d, t, s, eligible);
    forall u: TaskId ensures GoodTask(d, e, u) && CalmTask(d, e, u) { assert TaskRow(d, u) && ClaimRow(d, u); }
    forall x: ExecId ensures GoodExec(d, e, x) && CalmExec(d, e, x) { assert ExecRow(d, x) && ResultRow(d, x); }
    WorkChangeKeeps(d, e);
  }

  lemma RecoverTask(d: Db, u: TaskId)
    requires TaskRow(d, u) && ClaimRow(d, u)
    ensures GoodTask(d, Recover(d), u) && CalmTask(d, Recover(d), u)
  {
  }

  lemma RecoverExec(d: Db, x: ExecId)
    requires ExecRow(d, x) && ResultRow(d, x)
    requires x in d.execs ==> TaskRow(d, d.execs[x].task) && ClaimRow(d, d.execs[x].task)
    ensures GoodExec(d, Recover(d), x) && CalmExec(d, Recover(d), x)
  {
  }

  lemma RecoverKeeps(d: Db)
    requires Inv(d)
    ensures Keeps(d, Recover(d))
  {
    var e := Recover(d);
    forall u: TaskId ensures GoodTask(d, e, u) && CalmTask(d, e, u) {
      assert TaskRow(d, u) && ClaimRow(d, u);
      RecoverTask(d, u);
    }
    forall x: ExecId ensures GoodExec(d, e, x) && CalmExec(d, e, x) {
      assert ExecRow(d, x) && ResultRow(d, x);
      if x in d.execs { assert TaskRow(d, d.execs[x].task) && ClaimRow(d, d.execs[x].task); }
      RecoverExec(d, x);
    }
    WorkChangeKeeps(d, e);
  }

  lemma RenewKeeps(d: Db, r: Record)
    requires Inv(d)
    ensures Keeps(d, Renew(d, r))
  {
    KeepsSelf(d);
    if CanRenew(d, r) {
      var e := d.(claims := d.claims[r.task := d.claims[r.task].(expires := d.clock + LEASE_SECONDS)]);
      forall u: TaskId ensures GoodTask(d, e, u) && CalmTask(d, e, u) { assert TaskRow(d, u) && ClaimRow(d, u); }
      forall x: ExecId ensures GoodExec(d, e, x) && CalmExec(d, e, x) { assert ExecRow(d, x) && ResultRow(d, x); }
      WorkChangeKeeps(d, e);
    }
  }

  lemma ResumeKeeps(d: Db, t: TaskId, owner: Owner, w: WorkerId)
    requires Inv(d)
    ensures Keeps(d, Resume(d, t, owner, w))
  {
    KeepsSelf(d);
    if CanResume(d, t, owner, w) {
      var e := d.(tasks := d.tasks[t := d.tasks[t].(status := Queued, eligible := true, worker := w)]);
      assert ClaimRow(d, t);
      if OpenClaim(d, t) { ActiveIsUnresolved(d, t, d.claims[t].exec, false); }
      forall u: TaskId ensures GoodTask(d, e, u) && CalmTask(d, e, u) { assert TaskRow(d, u) && ClaimRow(d, u); }
      forall x: ExecId ensures GoodExec(d, e, x) && CalmExec(d, e, x) { assert ExecRow(d, x) && ResultRow(d, x); }
      WorkChangeKeeps(d, e);
    }
  }

  lemma AssessKeeps(d: Db, t: TaskId, priority: int)
    requires Inv(d)
    ensures Keeps(d, Assess(d, t, priority))
  {
    KeepsSelf(d);
    if t in d.tasks {
      var e := d.(tasks := d.tasks[t := d.tasks[t].(priority := priority)]);
      forall u: TaskId ensures GoodTask(d, e, u) && CalmTask(d, e, u) { assert TaskRow(d, u) && ClaimRow(d, u); }
      forall x: ExecId ensures GoodExec(d, e, x) && CalmExec(d, e, x) { assert ExecRow(d, x) && ResultRow(d, x); }
      WorkChangeKeeps(d, e);
    }
  }

  // What a verdict may do to one row, whatever the effects turn out to be.
  ghost predicate VerdictShape(d: Db, q: PlanId, u: TaskId, v: Task, held: bool)
    requires u in d.tasks && q in d.plans
  {
    var r := d.tasks[u];
    || v == r
    || (u == d.plans[q].task && (v.status.Blocked? || (!held && v.status.Completed?)) && v == r.(status := v.status, eligible := false))
    || (r.kind == Apply(q) && (r.status.Blocked? || r.status.Failed?) && v == r.(status := v.status)
        && (v.status.Blocked? || TerminalTask(v.status)))
  }

  lemma VerdictHasShape(d: Db, q: PlanId, complete: bool, u: TaskId)
    requires q in d.plans && d.plans[q].task in d.tasks && u in d.tasks
    ensures VerdictShape(d, q, u, Verdict(d, q, u, complete), Unresolved(d, d.plans[q].task, true))
  {
  }

  lemma VerdictTask(d: Db, e: Db, q: PlanId, u: TaskId, held: bool)
    requires e == d.(tasks := e.tasks) && e.tasks.Keys == d.tasks.Keys
    requires q in d.plans && PlanRow(d, q) && TaskRow(d, u) && ClaimRow(d, u)
    requires u in d.tasks ==> VerdictShape(d, q, u, e.tasks[u], held)
    requires TaskRow(d, u) && u in d.tasks && d.tasks[u].parent.Some? ==> e.tasks[d.tasks[u].parent.value].rowid == d.tasks[d.tasks[u].parent.value].rowid
    requires OpenClaim(d, d.plans[q].task) ==> held && d.claims[d.plans[q].task].expires <= d.clock
    ensures GoodTask(d, e, u) && CalmTask(d, e, u)
  {
  }

  lemma VerdictKeeps(d: Db, q: PlanId, complete: bool)
    requires Inv(d)
    requires q in d.plans && d.plans[q].task in d.tasks
    requires OpenClaim(d, d.plans[q].task) ==> d.claims[d.plans[q].task].expires <= d.clock
    ensures Keeps(d, PassVerdict(d, q, complete))
  {
    var e := PassVerdict(d, q, complete);
    var parent := d.plans[q].task;
    assert PlanRow(d, q) && ClaimRow(d, parent);
    if OpenClaim(d, parent) { ActiveIsUnresolved(d, parent, d.claims[parent].exec, true); }
    var held := Unresolved(d, parent, true);
    forall u: TaskId ensures GoodTask(d, e, u) && CalmTask(d, e, u) {
      assert TaskRow(d, u) && ClaimRow(d, u);
      if u in d.tasks {
        VerdictHasShape(d, q, complete, u);
        if d.tasks[u].parent.Some? { VerdictHasShape(d, q, complete, d.tasks[u].parent.value); }
      }
      VerdictTask(d, e, q, u, held);
    }
    forall x: ExecId ensures GoodExec(d, e, x) && CalmExec(d, e, x) { assert ExecRow(d, x) && ResultRow(d, x); }
    forall p: PlanId ensures WithheldStays(d, e, p) {
      if p in d.plans && d.plans[p].task in d.tasks { VerdictHasShape(d, q, complete, d.plans[p].task); }
    }
    WorkChangeKeeps(d, e);
  }

  // ---------- plans ----------

  lemma RevokePlansKeeps(d: Db, t: TaskId)
    requires Inv(d)
    ensures Keeps(d, RevokePlans(d, t))
  {
    var e := RevokePlans(d, t);
    forall p: PlanId ensures GoodPlan(d, e, p) && CalmPlan(d, e, p) { assert PlanRow(d, p); }
    forall ws: Workspace ensures LockRow(e, ws) { assert LockRow(d, ws); }
    PlanChangeKeeps(d, e);
  }

  lemma SetPlanKeeps(d: Db, q: PlanId, s: PlanStatus)
    requires Inv(d)
    requires q in d.plans && OpenPlan(d.plans[q].status) && (s.PlanApproved? || s.PlanRevoked? || s.PlanExpired?)
    ensures Keeps(d, SetPlan(d, q, s))
  {
    var e := SetPlan(d, q, s);
    forall p: PlanId ensures GoodPlan(d, e, p) && CalmPlan(d, e, p) { assert PlanRow(d, p); }
    forall ws: Workspace ensures LockRow(e, ws) { assert LockRow(d, ws); }
    PlanChangeKeeps(d, e);
  }

  lemma RecordResolutionKeeps(d: Db, q: PlanId, complete: bool)
    requires Inv(d)
    requires q in d.plans && d.plans[q].task in d.tasks && d.plans[q].workspace !in d.locks
    requires HeldPlan(d.plans[q].status) || d.plans[q].status.PlanApplied?
    ensures Keeps(d, RecordResolution(d, q, complete))
  {
    var e := RecordResolution(d, q, complete);
    forall p: PlanId ensures GoodPlan(d, e, p) && CalmPlan(d, e, p) { assert PlanRow(d, p); }
    forall ws: Workspace ensures LockRow(e, ws) { assert LockRow(d, ws); }
    PlanChangeKeeps(d, e);
  }

  lemma ProposeKeeps(d: Db, q: PlanId, t: TaskId, owner: Owner, changes: seq<Change>, drafted: bool, draft: bool)
    requires Inv(d)
    ensures Keeps(d, ProposePlan(d, q, t, owner, changes, drafted, draft))
  {
    KeepsSelf(d);
    if CanPropose(d, q, t, owner, changes, draft) {
      var e := ProposePlan(d, q, t, owner, changes, drafted, draft);
      forall p: PlanId ensures GoodPlan(d, e, p) && CalmPlan(d, e, p) { assert PlanRow(d, p); }
      forall ws: Workspace ensures LockRow(e, ws) { assert LockRow(d, ws); }
      PlanChangeKeeps(d, e);
    }
  }

  lemma CommitApplyKeeps(d: Db, ws: Workspace, draft: bool)
    requires Inv(d)
    ensures Keeps(d, CommitApply(d, ws, draft))
  {
    KeepsSelf(d);
    if ws in d.locks && MayTouch(d, d.locks[ws], PlanApplying, draft) {
      var e := CommitApply(d, ws, draft);
      assert LockRow(d, ws);
      forall p: PlanId ensures GoodPlan(d, e, p) && CalmPlan(d, e, p) { assert PlanRow(d, p); }
      forall ws: Workspace ensures LockRow(e, ws) { assert LockRow(d, ws); }
      PlanChangeKeeps(d, e);
    }
  }

  lemma FailApplyKeeps(d: Db, ws: Workspace)
    requires Inv(d)
    ensures Keeps(d, FailApply(d, ws))
  {
    KeepsSelf(d);
    if ws in d.locks && d.locks[ws].plan in d.plans {
      var e := FailApply(d, ws);
      assert LockRow(d, ws);
      forall p: PlanId ensures GoodPlan(d, e, p) && CalmPlan(d, e, p) { assert PlanRow(d, p); }
      forall ws: Workspace ensures LockRow(e, ws) { assert LockRow(d, ws); }
      PlanChangeKeeps(d, e);
    }
  }

  lemma CrashApplyKeeps(d: Db, ws: Workspace)
    requires Inv(d)
    ensures Keeps(d, CrashApply(d, ws))
  {
    var e := CrashApply(d, ws);
    forall p: PlanId ensures GoodPlan(d, e, p) && CalmPlan(d, e, p) { assert PlanRow(d, p); }
    forall ws: Workspace ensures LockRow(e, ws) { assert LockRow(d, ws); }
    PlanChangeKeeps(d, e);
  }

  lemma MarkJournalKeeps(d: Db, ws: Workspace, i: nat)
    requires Inv(d)
    ensures Keeps(d, MarkJournal(d, ws, i))
  {
    KeepsSelf(d);
    if ws in d.locks && d.locks[ws].plan in d.journal && i < |d.journal[d.locks[ws].plan]| {
      var e := MarkJournal(d, ws, i);
      forall p: PlanId ensures GoodPlan(d, e, p) && CalmPlan(d, e, p) { assert PlanRow(d, p); }
      forall ws: Workspace ensures LockRow(e, ws) { assert LockRow(d, ws); }
      PlanChangeKeeps(d, e);
    }
  }

  // ---------- results ----------

  lemma DeliverKeeps(d: Db, x: ExecId, s: Delivery)
    requires Inv(d) && x in d.results && DeliveryMoves(d.results[x].delivery, s)
    ensures Keeps(d, d.(results := d.results[x := d.results[x].(delivery := s)]))
  {
    var e := d.(results := d.results[x := d.results[x].(delivery := s)]);
    forall y: ExecId ensures CalmExec(d, e, y) && ResultMoves(d, e, y) && ResultRow(e, y) { assert ResultRow(d, y); }
    ResultChangeKeeps(d, e);
  }

  lemma ClaimDeliveryKeeps(d: Db, t: TaskId, owner: Owner, x: ExecId, attempt: nat)
    requires Inv(d)
    ensures Keeps(d, ClaimDelivery(d, t, owner, x, attempt))
  {
    KeepsSelf(d);
    if CanSend(d, t, owner, x, attempt) { DeliverKeeps(d, x, Sending); }
  }

  lemma SettleDeliveryKeeps(d: Db, x: ExecId, delivered: bool)
    requires Inv(d)
    ensures Keeps(d, SettleDelivery(d, x, delivered))
  {
    KeepsSelf(d);
    if x in d.results && d.results[x].delivery.Sending? { DeliverKeeps(d, x, if delivered then Delivered else SendUncertain); }
  }

  lemma AcknowledgeKeeps(d: Db, t: TaskId, owner: Owner)
    requires Inv(d)
    ensures Keeps(d, Acknowledge(d, t, owner))
  {
    KeepsSelf(d);
    if t in d.tasks && d.tasks[t].owner == owner && AmbiguousDelivery(d, t) {
      DeliverKeeps(d, d.tasks[t].current.value, Acknowledged);
    }
  }
}
