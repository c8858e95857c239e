// Every transaction keeps the ledger invariant and moves rows only forward.
module LedgerProofs {
  import opened Options
  import opened FilePlans
  import opened LedgerTypes
  import opened Transactions
  import opened LedgerInvariants

  // ---------- frames ----------

  ghost predicate CalmTaskStep(a: Task, b: Task) {
    || a == b
    || (&& b == a.(status := b.status, current := b.current, worker := b.worker, eligible := b.eligible, priority := b.priority)
        && (ActiveTask(b.status) ==> ActiveTask(a.status)))
  }

  ghost predicate CalmTask(d: Db, e: Db, t: TaskId) {
    && (t in d.tasks <==> t in e.tasks)
    && (t in d.tasks ==> CalmTaskStep(d.tasks[t], e.tasks[t]))
    && (OpenClaim(e, t) ==> OpenClaim(d, t))
  }

  ghost predicate CalmExec(d: Db, e: Db, x: ExecId) {
    && (x in d.execs <==> x in e.execs)
    && (x in d.execs ==> e.execs[x] == d.execs[x] || e.execs[x] == d.execs[x].(status := e.execs[x].status, ended := e.execs[x].ended))
    && (x in d.results ==> x in e.results && (e.results[x] == d.results[x] || e.results[x] == d.results[x].(delivery := e.results[x].delivery)))
  }

  ghost predicate CalmPlan(d: Db, e: Db, p: PlanId) {
    p in e.plans && HeldPlan(e.plans[p].status) ==>
      p in d.plans && HeldPlan(d.plans[p].status) && d.plans[p].workspace == e.plans[p].workspace
  }

  // Nothing is created, claimed or made active; conversations are untouched.
  ghost predicate Calm(d: Db, e: Db) {
    && e.turns == d.turns && e.sessions == d.sessions
    && (forall t: TaskId {:trigger CalmTask(d, e, t)} :: CalmTask(d, e, t))
    && (forall x: ExecId {:trigger CalmExec(d, e, x)} :: CalmExec(d, e, x))
    && (forall p: PlanId {:trigger CalmPlan(d, e, p)} :: CalmPlan(d, e, p))
  }

  lemma CalmKeeps(d: Db, e: Db)
    requires Inv(d) && Calm(d, e)
    ensures Pairs(e) && Conversations(e) && Counted(e)
  {
    forall t: TaskId ensures TurnRow(e, t) { assert TurnRow(d, t) && CalmTask(d, e, t); }
    forall k: SessionKey ensures SessionRow(e, k) {
      assert SessionRow(d, k);
      if k in d.sessions && d.sessions[k].pending.Some? { assert CalmExec(d, e, d.sessions[k].pending.value.1); }
    }
    forall t: TaskId, u: TaskId ensures ApartClaims(e, t, u) {
      assert ApartClaims(d, t, u) && CalmTask(d, e, t) && CalmTask(d, e, u);
    }
    forall t: TaskId, u: TaskId ensures ApartTasks(e, t, u) {
      assert ApartTasks(d, t, u) && CalmTask(d, e, t) && CalmTask(d, e, u);
    }
    forall p: PlanId, q: PlanId ensures ApartPlans(e, p, q) {
      assert ApartPlans(d, p, q) && CalmPlan(d, e, p) && CalmPlan(d, e, q);
    }
    forall t: TaskId, u: TaskId ensures ApartTurns(e, t, u) {
      assert ApartTurns(d, t, u) && CalmTask(d, e, t) && CalmTask(d, e, u);
    }
    forall t: TaskId ensures CountRow(e, t) {
      assert CountRow(d, t) && CalmTask(d, e, t);
      forall x: ExecId ensures x in AttemptsOf(e.execs, t) <==> x in AttemptsOf(d.execs, t) { assert CalmExec(d, e, x); }
      assert AttemptsOf(e.execs, t) == AttemptsOf(d.execs, t);
    }
  }

  lemma ActiveIsUnresolved(d: Db, t: TaskId, e: ExecId, includeLost: bool)
    requires t in d.tasks && e in d.execs && d.execs[e].task == t && ActiveExec(d.execs[e].status)
    ensures Unresolved(d, t, includeLost)
  {
    assert InFamily(d, t, t);
    assert OpenAttempt(d, ResolutionOwner(d, t), e, includeLost);
    assert OpenEffect(d, ResolutionOwner(d, t), t, includeLost);
  }

  // ---------- what a step owes each row ----------

  ghost predicate GoodTask(d: Db, e: Db, t: TaskId) {
    TaskRow(e, t) && ClaimRow(e, t) && TaskMoves(d, e, t) && LeakStays(d, e, t)
  }

  ghost predicate GoodExec(d: Db, e: Db, x: ExecId) {
    ExecRow(e, x) && ResultRow(e, x) && ExecMoves(d, e, x) && ResultMoves(d, e, x)
  }

  ghost predicate GoodPlan(d: Db, e: Db, p: PlanId) {
    PlanRow(e, p) && PlanRowMoves(d, e, p) && WithheldStays(d, e, p)
  }

  ghost predicate Good(d: Db, e: Db) {
    && d.clock <= e.clock && d.rows <= e.rows
    && (forall t: TaskId {:trigger GoodTask(d, e, t)} :: GoodTask(d, e, t))
    && (forall x: ExecId {:trigger GoodExec(d, e, x)} :: GoodExec(d, e, x))
    && (forall p: PlanId {:trigger GoodPlan(d, e, p)} :: GoodPlan(d, e, p))
    && (forall ws: Workspace {:trigger LockRow(e, ws)} :: LockRow(e, ws))
  }

  ghost predicate Keeps(d: Db, e: Db) { Inv(e) && Evolves(d, e) }

  lemma GoodRows(d: Db, e: Db)
    requires Good(d, e)
    ensures Rows(e) && Evolves(d, e)
  {
    forall t: TaskId ensures TaskRow(e, t) && ClaimRow(e, t) && TaskMoves(d, e, t) && LeakStays(d, e, t) {
      assert GoodTask(d, e, t);
    }
    forall x: ExecId ensures ExecRow(e, x) && ResultRow(e, x) && ExecMoves(d, e, x) && ResultMoves(d, e, x) {
      assert GoodExec(d, e, x);
    }
    forall p: PlanId ensures PlanRow(e, p) && PlanRowMoves(d, e, p) && WithheldStays(d, e, p) {
      assert GoodPlan(d, e, p);
    }
  }

  lemma CalmStep(d: Db, e: Db)
    requires Inv(d) && Good(d, e) && Calm(d, e)
    ensures Keeps(d, e)
  {
    GoodRows(d, e);
    CalmKeeps(d, e);
  }

  // ---------- steps that change one group of tables ----------

  // The clock moves or workers report.
  lemma ClockStepKeeps(d: Db, e: Db)
    requires Inv(d) && e == d.(clock := e.clock, workers := e.workers)
    requires d.clock <= e.clock && d.workers.Keys <= e.workers.Keys
    ensures Keeps(d, e)
  {
    forall t: TaskId ensures GoodTask(d, e, t) && CalmTask(d, e, t) { assert TaskRow(d, t) && ClaimRow(d, t); }
    forall x: ExecId ensures GoodExec(d, e, x) && CalmExec(d, e, x) { assert ExecRow(d, x) && ResultRow(d, x); }
    forall p: PlanId ensures GoodPlan(d, e, p) && CalmPlan(d, e, p) { assert PlanRow(d, p); }
    forall ws: Workspace ensures LockRow(e, ws) { assert LockRow(d, ws); }
    CalmStep(d, e);
  }

  // Only plans, their journals, resolutions and locks change.
  ghost predicate PlanChange(d: Db, e: Db) {
    && e == d.(plans := e.plans, journal := e.journal, resolutions := e.resolutions, locks := e.locks)
    && (forall p: PlanId {:trigger GoodPlan(d, e, p)} :: GoodPlan(d, e, p))
    && (forall ws: Workspace {:trigger LockRow(e, ws)} :: LockRow(e, ws))
  }

  lemma PlanChangeGood(d: Db, e: Db)
    requires Rows(d) && PlanChange(d, e)
    ensures Good(d, e)
    ensures forall t: TaskId {:trigger CalmTask(d, e, t)} :: CalmTask(d, e, t)
    ensures forall x: ExecId {:trigger CalmExec(d, e, x)} :: CalmExec(d, e, x)
  {
    forall t: TaskId ensures GoodTask(d, e, t) && CalmTask(d, e, t) {
      assert TaskRow(d, t) && ClaimRow(d, t);
      if t in d.tasks && d.tasks[t].kind.Apply? { assert GoodPlan(d, e, d.tasks[t].kind.plan); }
    }
    forall x: ExecId ensures GoodExec(d, e, x) && CalmExec(d, e, x) { assert ExecRow(d, x) && ResultRow(d, x); }
  }

  lemma PlanChangeKeeps(d: Db, e: Db)
    requires Inv(d) && PlanChange(d, e)
    requires forall p: PlanId {:trigger CalmPlan(d, e, p)} :: CalmPlan(d, e, p)
    ensures Keeps(d, e)
  {
    PlanChangeGood(d, e);
    CalmStep(d, e);
  }

  // Only results change.
  lemma ResultChangeKeeps(d: Db, e: Db)
    requires Inv(d) && e == d.(results := e.results)
    requires forall x: ExecId {:trigger CalmExec(d, e, x)} :: CalmExec(d, e, x)
    requires forall x: ExecId {:trigger ResultMoves(d, e, x)} :: ResultMoves(d, e, x) && ResultRow(e, x)
    ensures Keeps(d, e)
  {
    forall t: TaskId ensures GoodTask(d, e, t) && CalmTask(d, e, t) { assert TaskRow(d, t) && ClaimRow(d, t); }
    forall x: ExecId ensures GoodExec(d, e, x) { assert ExecRow(d, x) && ResultMoves(d, e, x); }
    forall p: PlanId ensures GoodPlan(d, e, p) && CalmPlan(d, e, p) { assert PlanRow(d, p); }
    forall ws: Workspace ensures LockRow(e, ws) { assert LockRow(d, ws); }
    CalmStep(d, e);
  }

  // Only tasks, claims and attempts change, and nothing is created or made active.
  ghost predicate WorkChange(d: Db, e: Db) {
    && e == d.(tasks := e.tasks, claims := e.claims, execs := e.execs)
    && (forall t: TaskId {:trigger GoodTask(d, e, t)} :: GoodTask(d, e, t) && CalmTask(d, e, t))
    && (forall x: ExecId {:trigger GoodExec(d, e, x)} :: GoodExec(d, e, x) && CalmExec(d, e, x))
    && (forall p: PlanId {:trigger WithheldStays(d, e, p)} :: WithheldStays(d, e, p))
  }

  lemma WorkChangeKeeps(d: Db, e: Db)
    requires Inv(d) && WorkChange(d, e)
    ensures Keeps(d, e)
  {
    forall t: TaskId ensures CalmTask(d, e, t) { assert GoodTask(d, e, t); }
    forall x: ExecId ensures CalmExec(d, e, x) { assert GoodExec(d, e, x); }
    forall p: PlanId ensures GoodPlan(d, e, p) && CalmPlan(d, e, p) {
      assert PlanRow(d, p) && WithheldStays(d, e, p);
      if p in d.plans { assert GoodTask(d, e, d.plans[p].task); }
    }
    forall ws: Workspace ensures LockRow(e, ws) {
      assert LockRow(d, ws);
      if ws in d.locks { assert GoodTask(d, e, d.locks[ws].record.task); }
    }
    CalmStep(d, e);
  }

  lemma EvolvesTransitive(a: Db, b: Db, c: Db)
    requires Evolves(a, b) && Evolves(b, c)
    ensures Evolves(a, c)
  {
    forall t: TaskId ensures TaskMoves(a, c, t) && LeakStays(a, c, t) {
      assert TaskMoves(a, b, t) && TaskMoves(b, c, t) && LeakStays(a, b, t) && LeakStays(b, c, t);
      if t in a.tasks && c.tasks[t].current.Some? { assert ExecMoves(a, b, c.tasks[t].current.value); }
    }
    forall x: ExecId ensures ExecMoves(a, c, x) && ResultMoves(a, c, x) {
      assert ExecMoves(a, b, x) && ExecMoves(b, c, x) && ResultMoves(a, b, x) && ResultMoves(b, c, x);
    }
    forall p: PlanId ensures PlanRowMoves(a, c, p) && WithheldStays(a, c, p) {
      assert PlanRowMoves(a, b, p) && PlanRowMoves(b, c, p) && WithheldStays(a, b, p) && WithheldStays(b, c, p);
    }
  }

  lemma KeepsSelf(d: Db)
    requires Inv(d)
    ensures Keeps(d, d)
  {
  }

  lemma KeepsTransitive(a: Db, b: Db, c: Db)
    requires Keeps(a, b) && Keeps(b, c)
    ensures Keeps(a, c)
  {
    EvolvesTransitive(a, b, c);
  }
}
