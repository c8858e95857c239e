// What every reachable ledger state satisfies, and how one state may follow another.
// Each quantified clause is a named predicate of one row (or one pair of rows), so
// that a proof says exactly which rows it looks at.
module LedgerInvariants {
  import opened Options
  import opened FilePlans
  import opened LedgerTypes

  // ---------- one row at a time ----------

  ghost predicate TaskRow(d: Db, t: TaskId) {
    t in d.tasks ==>
      var r := d.tasks[t];
      && r.rowid < d.rows && r.attempts <= r.limit == MAX_ATTEMPTS && r.worker in d.workers
      && (r.parent.Some? ==> r.parent.value in d.tasks && d.tasks[r.parent.value].rowid < r.rowid)
      && (r.current.Some? ==> r.current.value in d.execs && d.execs[r.current.value].task == t)
      && (ActiveTask(r.status) ==> OpenClaim(d, t))
      && (r.status.Queued? || ActiveTask(r.status) ==> r.eligible)
      && (r.kind.Apply? ==> ApplyRow(d, r))
  }

  // An apply task mirrors its plan and is never queued again once claimed.
  ghost predicate ApplyRow(d: Db, r: Task)
    requires r.kind.Apply?
  {
    && r.kind.plan in d.plans && r.parent == Some(d.plans[r.kind.plan].task)
    && r.workspace == d.plans[r.kind.plan].workspace && r.owner == d.plans[r.kind.plan].owner
    && r.attempts <= 1 && (r.status.Queued? ==> r.attempts == 0)
  }

  // The three ways a task can hold an unreleased claim; the last one is a leaked slot.
  ghost predicate ClaimRow(d: Db, t: TaskId) {
    t in d.claims ==>
      var c := d.claims[t];
      && t in d.tasks && c.exec in d.execs && d.execs[c.exec].task == t
      && (!c.released ==>
            && d.tasks[t].current == Some(c.exec) && c.worker == d.tasks[t].worker && c.owner == d.tasks[t].owner
            && ((d.tasks[t].status.Running? && d.execs[c.exec].status.ExecRunning?)
                || (d.tasks[t].status.Cancelling? && d.execs[c.exec].status.ExecCancelling?)
                || Leaked(d, t)))
  }

  ghost predicate Leaked(d: Db, t: TaskId) {
    && OpenClaim(d, t) && d.claims[t].expires <= d.clock
    && t in d.tasks && d.tasks[t].status.Blocked? && !d.tasks[t].eligible && d.tasks[t].kind.Request?
    && d.tasks[t].current == Some(d.claims[t].exec)
    && d.claims[t].exec in d.execs && d.execs[d.claims[t].exec].task == t && ActiveExec(d.execs[d.claims[t].exec].status)
  }

  ghost predicate ExecRow(d: Db, e: ExecId) {
    e in d.execs ==>
      var x := d.execs[e];
      && x.task in d.tasks
      && (ActiveExec(x.status) || x.status.ExecAwaiting? || TerminalExec(x.status))
      && (ActiveExec(x.status) ==> OpenClaim(d, x.task) && d.claims[x.task].exec == e)
      && (!x.claimed ==> x.status.ExecFailed?)
  }

  ghost predicate PlanRow(d: Db, p: PlanId) {
    && (p in d.journal ==> p in d.plans)
    && (p in d.plans ==>
          var r := d.plans[p];
          && r.task in d.tasks && d.tasks[r.task].kind.Request?
          && r.owner == d.tasks[r.task].owner && r.workspace == d.tasks[r.task].workspace
          && r.changes == r.hash && ValidPlan(r.changes)
          && (BegunPlan(r.status) <==> p in d.journal)
          && (p in d.journal ==> Journaled(r.changes, d.journal[p])))
  }

  // The journal keeps the reviewed preimages whatever its progress marks say.
  ghost predicate Journaled(changes: seq<Change>, rows: seq<JournalRow>) {
    && |rows| == |changes|
    && forall i :: 0 <= i < |rows| ==>
         rows[i].path == changes[i].path && rows[i].before == changes[i].before && rows[i].after == changes[i].after
  }

  // A workspace lock is held by a live apply process of the plan it is applying.
  ghost predicate LockRow(d: Db, ws: Workspace) {
    ws in d.locks ==>
      var h := d.locks[ws];
      && h.plan in d.plans && d.plans[h.plan].workspace == ws && d.plans[h.plan].status.PlanApplying?
      && h.record.task in d.tasks && d.tasks[h.record.task].kind == Apply(h.plan) && !d.tasks[h.record.task].status.Queued?
  }

  ghost predicate ResultRow(d: Db, e: ExecId) {
    e in d.results ==> e in d.execs && d.results[e].task == d.execs[e].task && !ActiveExec(d.execs[e].status)
  }

  ghost predicate Rows(d: Db) {
    && (forall t: TaskId {:trigger TaskRow(d, t)} :: TaskRow(d, t))
    && (forall t: TaskId {:trigger ClaimRow(d, t)} :: ClaimRow(d, t))
    && (forall e: ExecId {:trigger ExecRow(d, e)} :: ExecRow(d, e))
    && (forall p: PlanId {:trigger PlanRow(d, p)} :: PlanRow(d, p))
    && (forall ws: Workspace {:trigger LockRow(d, ws)} :: LockRow(d, ws))
    && (forall e: ExecId {:trigger ResultRow(d, e)} :: ResultRow(d, e))
  }

  // ---------- pairs of rows ----------

  // Reader/apply exclusion.
  ghost predicate ApartClaims(d: Db, t: TaskId, u: TaskId) {
    t != u && OpenClaim(d, t) && OpenClaim(d, u) && t in d.tasks && u in d.tasks && d.tasks[t].workspace == d.tasks[u].workspace
    ==> d.tasks[t].kind.Request?
  }

  // One apply task a plan, and one row number a task.
  ghost predicate ApartTasks(d: Db, t: TaskId, u: TaskId) {
    t in d.tasks && u in d.tasks
    && ((d.tasks[t].kind.Apply? && d.tasks[t].kind == d.tasks[u].kind) || d.tasks[t].rowid == d.tasks[u].rowid)
    ==> t == u
  }

  ghost predicate ApartPlans(d: Db, p: PlanId, q: PlanId) {
    p in d.plans && q in d.plans && p != q && d.plans[p].workspace == d.plans[q].workspace
    ==> !(HeldPlan(d.plans[p].status) && HeldPlan(d.plans[q].status))
  }

  ghost predicate ApartTurns(d: Db, t: TaskId, u: TaskId) {
    SameThread(d, t, u) ==>
      && d.turns[t].sequence != d.turns[u].sequence
      && (t in d.tasks && u in d.tasks ==> !(ActiveTask(d.tasks[t].status) && ActiveTask(d.tasks[u].status)))
  }

  ghost predicate Pairs(d: Db) {
    && (forall t: TaskId, u: TaskId {:trigger ApartClaims(d, t, u)} :: ApartClaims(d, t, u))
    && (forall t: TaskId, u: TaskId {:trigger ApartTasks(d, t, u)} :: ApartTasks(d, t, u))
    && (forall p: PlanId, q: PlanId {:trigger ApartPlans(d, p, q)} :: ApartPlans(d, p, q))
    && (forall t: TaskId, u: TaskId {:trigger ApartTurns(d, t, u)} :: ApartTurns(d, t, u))
  }

  // ---------- conversations ----------

  ghost predicate TurnAt(turns: map<TaskId, Turn>, k: SessionKey, g: nat, n: nat, t: TaskId) {
    t in turns && turns[t].session == k && turns[t].generation == g && turns[t].sequence == n
  }

  ghost predicate TurnRow(d: Db, t: TaskId) {
    t in d.turns ==>
      var r := d.turns[t];
      && t in d.tasks && d.tasks[t].kind.Request? && r.session in d.sessions && 1 <= r.sequence
      && r.generation <= d.sessions[r.session].generation
      && (r.generation == d.sessions[r.session].generation ==> r.sequence < d.sessions[r.session].next)
      && (r.sequence == 1 ==> r.related == None)
      && (r.sequence > 1 ==>
            r.related.Some? && TurnAt(d.turns, r.session, r.generation, r.sequence - 1, r.related.value))
  }

  ghost predicate Filled(turns: map<TaskId, Turn>, k: SessionKey, g: nat, n: nat) {
    exists t :: TurnAt(turns, k, g, n, t)
  }

  ghost predicate FilledTo(turns: map<TaskId, Turn>, k: SessionKey, g: nat, next: nat) {
    forall n: nat {:trigger Filled(turns, k, g, n)} :: 1 <= n < next ==> Filled(turns, k, g, n)
  }

  ghost predicate PendingRow(d: Db, k: SessionKey, s: Session, t: TaskId, e: ExecId) {
    && 1 < s.next && TurnAt(d.turns, k, s.generation, s.next - 1, t)
    && d.turns[t].completed == Some(e) && d.turns[t].question
    && e in d.results && d.results[e].task == t && d.results[e].outcome.OutSucceeded?
  }

  ghost predicate SessionRow(d: Db, k: SessionKey) {
    k in d.sessions ==>
      var s := d.sessions[k];
      && 1 <= s.next && FilledTo(d.turns, k, s.generation, s.next)
      && (s.pending.Some? ==> PendingRow(d, k, s, s.pending.value.0, s.pending.value.1))
  }

  ghost predicate Conversations(d: Db) {
    && (forall t: TaskId {:trigger TurnRow(d, t)} :: TurnRow(d, t))
    && (forall k: SessionKey {:trigger SessionRow(d, k)} :: SessionRow(d, k))
  }

  // ---------- attempts ----------

  ghost function AttemptsOf(execs: map<ExecId, Exec>, t: TaskId): set<ExecId> {
    set e | e in execs && execs[e].task == t && execs[e].claimed
  }

  ghost predicate CountRow(d: Db, t: TaskId) {
    t in d.tasks ==> |AttemptsOf(d.execs, t)| == d.tasks[t].attempts
  }

  ghost predicate Counted(d: Db) {
    forall t: TaskId {:trigger CountRow(d, t)} :: CountRow(d, t)
  }

  ghost predicate Inv(d: Db) {
    Rows(d) && Pairs(d) && Conversations(d) && Counted(d)
  }

  // ---------- how a state may follow another ----------

  // A task keeps its identity; an apply that has started is never queued or run again.
  ghost predicate TaskStep(a: Task, b: Task) {
    || a == b
    || (&& b == a.(status := b.status, current := b.current, worker := b.worker, eligible := b.eligible,
                   attempts := b.attempts, priority := b.priority)
        && a.attempts <= b.attempts
        && (a.kind.Apply? && !a.status.Queued? ==> !b.status.Queued?)
        && (a.kind.Apply? && !a.status.Queued? && !a.status.Running? ==> !b.status.Running?))
  }

  // The current attempt is only ever replaced by a new one.
  ghost predicate TaskMoves(d: Db, e: Db, t: TaskId) {
    t in d.tasks ==>
      && t in e.tasks && TaskStep(d.tasks[t], e.tasks[t])
      && (e.tasks[t].current.Some? && e.tasks[t].current.value in d.execs ==> e.tasks[t].current == d.tasks[t].current)
  }

  // Terminal attempts never change; a stopping attempt ends cancelled or lost.
  ghost predicate ExecStep(a: Exec, b: Exec) {
    || a == b
    || (&& b == a.(status := b.status, ended := b.ended)
        && !TerminalExec(a.status)
        && (a.status.ExecAwaiting? ==> b.status.ExecAwaiting? || TerminalExec(b.status))
        && (a.status.ExecCancelling? ==> b.status.ExecCancelling? || b.status.ExecCancelled? || b.status.ExecLost?))
  }

  ghost predicate ExecMoves(d: Db, e: Db, x: ExecId) {
    x in d.execs ==> x in e.execs && ExecStep(d.execs[x], e.execs[x])
  }

  // A plan keeps its content; its status only moves forward.
  ghost predicate PlanStep(a: Plan, b: Plan) {
    a == b || (b == a.(status := b.status) && PlanMoves(a.status, b.status))
  }

  ghost predicate PlanRowMoves(d: Db, e: Db, p: PlanId) {
    && (p in d.journal ==> p in e.journal)
    && (p in d.plans ==> p in e.plans && PlanStep(d.plans[p], e.plans[p]))
  }

  // A result is written once; only its delivery moves, and only forward.
  ghost predicate SavedStep(a: Saved, b: Saved) {
    a == b || (b == a.(delivery := b.delivery) && DeliveryMoves(a.delivery, b.delivery))
  }

  ghost predicate ResultMoves(d: Db, e: Db, x: ExecId) {
    && (x in d.results ==> x in e.results && SavedStep(d.results[x], e.results[x]))
    && (x in d.execs && x !in d.results && x in e.results ==>
          && !TerminalExec(d.execs[x].status)
          && (d.execs[x].status.ExecCancelling? ==> e.results[x].outcome.OutCancelled? || e.results[x].outcome.OutBlocked?))
  }

  // A begun plan whose request task stopped accepting file changes.
  ghost predicate Withheld(d: Db, p: PlanId) {
    p in d.plans && BegunPlan(d.plans[p].status) && d.plans[p].task in d.tasks && !Receptive(d.tasks[d.plans[p].task].status)
  }

  ghost predicate WithheldStays(d: Db, e: Db, p: PlanId) { Withheld(d, p) ==> Withheld(e, p) }

  ghost predicate LeakStays(d: Db, e: Db, t: TaskId) { Leaked(d, t) ==> Leaked(e, t) }

  ghost predicate Evolves(d: Db, e: Db) {
    && d.clock <= e.clock && d.rows <= e.rows
    && (forall t: TaskId {:trigger TaskMoves(d, e, t)} :: TaskMoves(d, e, t))
    && (forall x: ExecId {:trigger ExecMoves(d, e, x)} :: ExecMoves(d, e, x))
    && (forall p: PlanId {:trigger PlanRowMoves(d, e, p)} :: PlanRowMoves(d, e, p))
    && (forall x: ExecId {:trigger ResultMoves(d, e, x)} :: ResultMoves(d, e, x))
    && (forall p: PlanId {:trigger WithheldStays(d, e, p)} :: WithheldStays(d, e, p))
    && (forall t: TaskId {:trigger LeakStays(d, e, t)} :: LeakStays(d, e, t))
  }
}
