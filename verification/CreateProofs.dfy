// The transactions that create tasks, turns, attempts, results and journals.
module CreateProofs {
  import opened Options
  import opened FilePlans
  import opened LedgerTypes
  import opened Transactions
  import opened LedgerInvariants
  import opened LedgerProofs
  import opened CalmProofs
  import opened StepProofs

  // ---------- a new task ----------

  ghost predicate Insertable(d: Db, i: Intake, kind: Kind, parent: Option<TaskId>) {
    && i.task !in d.tasks && i.worker in d.workers && (parent.Some? ==> parent.value in d.tasks)
    && (kind.Apply? ==>
          && !HasApplyTask(d, kind.plan) && kind.plan in d.plans && parent == Some(d.plans[kind.plan].task)
          && d.plans[kind.plan].owner == i.owner && d.plans[kind.plan].workspace == i.workspace)
  }

  lemma InsertGood(d: Db, i: Intake, kind: Kind, parent: Option<TaskId>)
    requires Rows(d) && Insertable(d, i, kind, parent)
    ensures Good(d, Insert(d, i, kind, parent))
  {
    var e := Insert(d, i, kind, parent);
    if parent.Some? { assert TaskRow(d, parent.value); }
    assert ClaimRow(d, i.task);
    forall t: TaskId ensures GoodTask(d, e, t) { assert TaskRow(d, t) && ClaimRow(d, t); }
    forall x: ExecId ensures GoodExec(d, e, x) { assert ExecRow(d, x) && ResultRow(d, x); }
    forall p: PlanId ensures GoodPlan(d, e, p) { assert PlanRow(d, p); }
    forall ws: Workspace ensures LockRow(e, ws) { assert LockRow(d, ws); }
  }

  lemma InsertKeeps(d: Db, i: Intake, kind: Kind, parent: Option<TaskId>)
    requires Inv(d) && Insertable(d, i, kind, parent)
    ensures Keeps(d, Insert(d, i, kind, parent)) && i.task !in d.turns
  {
    var e := Insert(d, i, kind, parent);
    InsertGood(d, i, kind, parent);
    GoodRows(d, e);
    assert TurnRow(d, i.task) && ClaimRow(d, i.task);
    forall t: TaskId, u: TaskId ensures ApartClaims(e, t, u) { assert ApartClaims(d, t, u); }
    forall t: TaskId, u: TaskId ensures ApartTasks(e, t, u) { assert ApartTasks(d, t, u) && TaskRow(d, t) && TaskRow(d, u); }
    forall p: PlanId, q: PlanId ensures ApartPlans(e, p, q) { assert ApartPlans(d, p, q); }
    forall t: TaskId, u: TaskId ensures ApartTurns(e, t, u) { assert ApartTurns(d, t, u); }
    forall t: TaskId ensures TurnRow(e, t) { assert TurnRow(d, t); }
    forall k: SessionKey ensures SessionRow(e, k) { assert SessionRow(d, k); }
    forall t: TaskId ensures CountRow(e, t) {
      assert CountRow(d, t);
      if t == i.task {
        forall x: ExecId ensures x !in AttemptsOf(d.execs, t) { assert ExecRow(d, x); }
        assert AttemptsOf(e.execs, t) == {};
      }
    }
  }

  // ---------- a new turn ----------

  // Only conversations differ.
  ghost predicate SameLedger(d: Db, e: Db) {
    e.(turns := d.turns, sessions := d.sessions) == d
  }

  lemma SameLedgerGood(d: Db, e: Db)
    requires Rows(d) && SameLedger(d, e)
    ensures Rows(e) && Evolves(d, e)
  {
    forall t: TaskId ensures GoodTask(d, e, t) { assert TaskRow(d, t) && ClaimRow(d, t); }
    forall x: ExecId ensures GoodExec(d, e, x) { assert ExecRow(d, x) && ResultRow(d, x); }
    forall p: PlanId ensures GoodPlan(d, e, p) { assert PlanRow(d, p); }
    forall ws: Workspace ensures LockRow(e, ws) { assert LockRow(d, ws); }
    GoodRows(d, e);
  }

  lemma SameLedgerKeeps(d: Db, e: Db)
    requires Inv(d) && SameLedger(d, e) && Conversations(e)
    requires forall t: TaskId, u: TaskId {:trigger ApartTurns(e, t, u)} :: ApartTurns(e, t, u)
    ensures Keeps(d, e)
  {
    SameLedgerGood(d, e);
    forall t: TaskId, u: TaskId ensures ApartClaims(e, t, u) { assert ApartClaims(d, t, u); }
    forall t: TaskId, u: TaskId ensures ApartTasks(e, t, u) { assert ApartTasks(d, t, u); }
    forall p: PlanId, q: PlanId ensures ApartPlans(e, p, q) { assert ApartPlans(d, p, q); }
    forall t: TaskId ensures CountRow(e, t) { assert CountRow(d, t); }
  }

  // The newest turn of the live generation is the one numbered `next - 1`.
  lemma NewestIsLast(d: Db, k: SessionKey)
    requires Conversations(d)
    ensures var s := SessionOf(d, k);
      && (s.next == 1 ==> Newest(d, k, s.generation) == None)
      && (s.next > 1 ==>
            && Newest(d, k, s.generation).Some?
            && TurnAt(d.turns, k, s.generation, s.next - 1, Newest(d, k, s.generation).value))
  {
    var s := SessionOf(d, k);
    assert SessionRow(d, k);
    forall t: TaskId | InGeneration(d, k, s.generation, t) ensures 1 <= d.turns[t].sequence < s.next {
      assert TurnRow(d, t);
    }
    if s.next > 1 {
      assert Filled(d.turns, k, s.generation, s.next - 1);
      var t: TaskId :| TurnAt(d.turns, k, s.generation, s.next - 1, t);
      assert IsNewest(d, k, s.generation, t);
      var u := Newest(d, k, s.generation).value;
      assert IsNewest(d, k, s.generation, u);
      assert InGeneration(d, k, s.generation, u) && InGeneration(d, k, s.generation, t);
    }
  }

  lemma BindKeeps(d: Db, t: TaskId, k: SessionKey)
    requires Inv(d) && t in d.tasks && t !in d.turns && d.tasks[t].status.Queued? && d.tasks[t].kind.Request?
    ensures Keeps(d, Bind(d, t, k))
  {
    var e := Bind(d, t, k);
    var s := SessionOf(d, k);
    NewestIsLast(d, k);
    assert SessionRow(d, k);
    forall u: TaskId ensures TurnRow(e, u) { assert TurnRow(d, u); }
    forall j: SessionKey ensures SessionRow(e, j) {
      assert SessionRow(d, j);
      if j in e.sessions {
        var g, next := e.sessions[j].generation, e.sessions[j].next;
        forall n: nat | 1 <= n < next ensures Filled(e.turns, j, g, n) {
          if j == k && n == s.next {
            assert TurnAt(e.turns, j, g, n, t);
          } else {
            assert Filled(d.turns, j, g, n);
            var u: TaskId :| TurnAt(d.turns, j, g, n, u);
            assert TurnAt(e.turns, j, g, n, u);
          }
        }
      }
    }
    forall u: TaskId, v: TaskId ensures ApartTurns(e, u, v) {
      assert ApartTurns(d, u, v) && TurnRow(d, u) && TurnRow(d, v);
    }
    SameLedgerKeeps(d, e);
  }

  lemma ResetKeeps(d: Db, k: SessionKey)
    requires Inv(d)
    ensures Keeps(d, ResetSession(d, k))
  {
    var e := ResetSession(d, k);
    forall u: TaskId ensures TurnRow(e, u) { assert TurnRow(d, u); }
    forall j: SessionKey ensures SessionRow(e, j) { assert SessionRow(d, j); }
    forall u: TaskId, v: TaskId ensures ApartTurns(e, u, v) { assert ApartTurns(d, u, v); }
    SameLedgerKeeps(d, e);
  }

  // Turns keep their places while their reply marks change.
  lemma FilledStays(a: map<TaskId, Turn>, b: map<TaskId, Turn>, k: SessionKey, g: nat, next: nat)
    requires FilledTo(a, k, g, next)
    requires forall u: TaskId | u in a :: u in b && a[u].session == b[u].session && a[u].generation == b[u].generation && a[u].sequence == b[u].sequence
    ensures FilledTo(b, k, g, next)
  {
    forall n: nat | 1 <= n < next ensures Filled(b, k, g, n) {
      assert Filled(a, k, g, n);
      var u: TaskId :| TurnAt(a, k, g, n, u);
      assert TurnAt(b, k, g, n, u);
    }
  }

  lemma CompleteTurnSession(d: Db, t: TaskId, x: ExecId, o: Outcome, question: bool, j: SessionKey)
    requires LiveTurn(d, t) && SessionRow(d, j) && TurnRow(d, t)
    requires j in d.sessions && d.sessions[j].pending.Some? ==> ApartTurns(d, t, d.sessions[j].pending.value.0)
    requires x in d.results && d.results[x].task == t && d.results[x].outcome == o
    ensures SessionRow(CompleteTurn(d, t, x, o, question), j)
  {
    if j in d.sessions {
      FilledStays(d.turns, MarkTurn(d, t, x, question), j, d.sessions[j].generation, d.sessions[j].next);
    }
  }

  lemma CompleteTurnKeeps(d: Db, t: TaskId, x: ExecId, o: Outcome, question: bool)
    requires Inv(d) && x in d.results && d.results[x].task == t && d.results[x].outcome == o
    ensures Keeps(d, CompleteTurn(d, t, x, o, question))
  {
    if LiveTurn(d, t) {
      var e := CompleteTurn(d, t, x, o, question);
      forall u: TaskId ensures TurnRow(e, u) { assert TurnRow(d, u) && TurnRow(d, t); }
      forall j: SessionKey ensures SessionRow(e, j) {
        assert SessionRow(d, j) && TurnRow(d, t);
        if j in d.sessions && d.sessions[j].pending.Some? { assert ApartTurns(d, t, d.sessions[j].pending.value.0); }
        CompleteTurnSession(d, t, x, o, question, j);
      }
      forall u: TaskId, v: TaskId ensures ApartTurns(e, u, v) { assert ApartTurns(d, u, v); }
      SameLedgerKeeps(d, e);
    } else {
      KeepsSelf(d);
    }
  }

  // ---------- intake ----------

  lemma SubmitKeeps(d: Db, i: Intake)
    requires Inv(d)
    ensures Keeps(d, SubmitRequest(d, i))
  {
    if CanSubmit(d, i) {
      var d1 := Insert(d, i, Request, i.parent);
      InsertKeeps(d, i, Request, i.parent);
      if i.conversation.Some? {
        var k := SessionKey(i.owner, i.conversation.value, i.workspace);
        BindKeeps(d1, i.task, k);
        KeepsTransitive(d, d1, Bind(d1, i.task, k));
      }
    } else {
      KeepsSelf(d);
    }
  }

  lemma SubmitApplyKeeps(d: Db, i: Intake, p: PlanId)
    requires Inv(d)
    ensures Keeps(d, SubmitApply(d, i, p))
  {
    if CanSubmitApply(d, i, p) {
      assert PlanRow(d, p);
      InsertKeeps(d, i, Apply(p), Some(d.plans[p].task));
    } else {
      KeepsSelf(d);
    }
  }

  lemma ApproveAndSubmitKeeps(d: Db, i: Intake, p: PlanId, reviewed: seq<Change>, draft: bool)
    requires Inv(d)
    ensures Keeps(d, ApproveAndSubmit(d, i, p, reviewed, draft))
  {
    if !HasApplyTask(d, p) && CanApprove(d, p, i.owner, reviewed, draft) {
      var d1 := ApprovePlan(d, p, i.owner, reviewed, draft);
      var j := i.(workspace := d.plans[p].workspace, source := None);
      ApproveKeeps(d, p, i.owner, reviewed, draft);
      SubmitApplyKeeps(d1, j, p);
      KeepsTransitive(d, d1, SubmitApply(d1, j, p));
    }
    KeepsSelf(d);
  }

  // ---------- a new attempt ----------

  lemma StartGood(d: Db, t: TaskId, x: ExecId, w: WorkerId)
    requires Rows(d) && t in d.tasks && ReadyInQueue(d, t) && d.tasks[t].worker == w && x !in d.execs
    ensures Good(d, StartAttempt(d, t, x, w))
  {
    var e := StartAttempt(d, t, x, w);
    assert TaskRow(d, t) && ClaimRow(d, t) && ResultRow(d, x);
    forall u: TaskId ensures GoodTask(d, e, u) { assert TaskRow(d, u) && ClaimRow(d, u); }
    forall y: ExecId ensures GoodExec(d, e, y) { assert ExecRow(d, y) && ResultRow(d, y); }
    forall p: PlanId ensures GoodPlan(d, e, p) { assert PlanRow(d, p); }
    forall ws: Workspace ensures LockRow(e, ws) { assert LockRow(d, ws); }
  }

  lemma StartPairs(d: Db, t: TaskId, x: ExecId, w: WorkerId)
    requires Pairs(d) && t in d.tasks && ReadyInQueue(d, t) && !HasEarlierWork(d, t) && !Excluded(d, t)
    ensures Pairs(StartAttempt(d, t, x, w))
  {
    var e := StartAttempt(d, t, x, w);
    forall u: TaskId, v: TaskId ensures ApartClaims(e, u, v) { assert ApartClaims(d, u, v); }
    forall u: TaskId, v: TaskId ensures ApartTasks(e, u, v) { assert ApartTasks(d, u, v); }
    forall p: PlanId, q: PlanId ensures ApartPlans(e, p, q) { assert ApartPlans(d, p, q); }
    forall u: TaskId, v: TaskId ensures ApartTurns(e, u, v) {
      assert ApartTurns(d, u, v);
      if SameThread(e, u, v) { assert SameThread(d, u, v) && SameThread(d, v, u); }
    }
  }

  // New attempts, results and journals leave the conversations as they are.
  lemma ConversationsFrame(d: Db, e: Db)
    requires Inv(d) && e.turns == d.turns && e.sessions == d.sessions
    requires forall t | t in d.tasks :: t in e.tasks && e.tasks[t].kind == d.tasks[t].kind
    requires forall x | x in d.results :: x in e.results && e.results[x] == d.results[x]
    ensures Conversations(e)
  {
    forall u: TaskId ensures TurnRow(e, u) { assert TurnRow(d, u); }
    forall k: SessionKey ensures SessionRow(e, k) { assert SessionRow(d, k); }
  }

  lemma StartCounted(d: Db, t: TaskId, x: ExecId, w: WorkerId)
    requires Counted(d) && t in d.tasks && x !in d.execs
    ensures Counted(StartAttempt(d, t, x, w))
  {
    var e := StartAttempt(d, t, x, w);
    forall u: TaskId ensures CountRow(e, u) {
      assert CountRow(d, u);
      if u == t {
        assert AttemptsOf(e.execs, t) == AttemptsOf(d.execs, t) + {x};
      } else {
        assert AttemptsOf(e.execs, u) == AttemptsOf(d.execs, u);
      }
    }
  }

  lemma ClaimNextKeeps(d: Db, w: WorkerId, slots: int, t: TaskId, x: ExecId)
    requires Inv(d)
    ensures Keeps(d, ClaimNext(d, w, slots, t, x))
  {
    if ClaimAnswers(d, w, slots, Some(t)) && ClaimInserts(d, t, x) {
      var e := StartAttempt(d, t, x, w);
      StartGood(d, t, x, w);
      GoodRows(d, e);
      StartPairs(d, t, x, w);
      ConversationsFrame(d, e);
      StartCounted(d, t, x, w);
    } else {
      KeepsSelf(d);
    }
  }

  lemma StartFailureGood(d: Db, t: TaskId, owner: Owner, x: ExecId)
    requires Rows(d) && CanRecordFailure(d, t, owner, x)
    ensures Good(d, RecordFailure(d, t, x))
  {
    var e := RecordFailure(d, t, x);
    forall u: TaskId ensures GoodTask(d, e, u) { assert TaskRow(d, u) && ClaimRow(d, u); }
    forall y: ExecId ensures GoodExec(d, e, y) { assert ExecRow(d, y) && ResultRow(d, y); }
    forall p: PlanId ensures GoodPlan(d, e, p) { assert PlanRow(d, p); }
    forall ws: Workspace ensures LockRow(e, ws) { assert LockRow(d, ws); }
  }

  lemma RecordFailureKeeps(d: Db, t: TaskId, owner: Owner, x: ExecId)
    requires Inv(d) && CanRecordFailure(d, t, owner, x)
    ensures Keeps(d, RecordFailure(d, t, x))
  {
    var e := RecordFailure(d, t, x);
    StartFailureGood(d, t, owner, x);
    GoodRows(d, e);
    ConversationsFrame(d, e);
    forall u: TaskId, v: TaskId ensures ApartClaims(e, u, v) { assert ApartClaims(d, u, v); }
    forall u: TaskId, v: TaskId ensures ApartTasks(e, u, v) { assert ApartTasks(d, u, v); }
    forall p: PlanId, q: PlanId ensures ApartPlans(e, p, q) { assert ApartPlans(d, p, q); }
    forall u: TaskId, v: TaskId ensures ApartTurns(e, u, v) { assert ApartTurns(d, u, v); }
    forall u: TaskId ensures CountRow(e, u) {
      assert CountRow(d, u);
      assert AttemptsOf(e.execs, u) == AttemptsOf(d.execs, u);
    }
  }

  lemma StartFailureKeeps(d: Db, t: TaskId, owner: Owner, x: ExecId)
    requires Inv(d)
    ensures Keeps(d, StartFailure(d, t, owner, x))
  {
    KeepsSelf(d);
    if CanRecordFailure(d, t, owner, x) { RecordFailureKeeps(d, t, owner, x); }
  }

  // ---------- a new journal ----------

  lemma BeginKeeps(d: Db, r: Record, p: PlanId, owner: Owner, draft: bool, intact: bool)
    requires Inv(d)
    ensures Keeps(d, BeginApply(d, r, p, owner, draft, intact))
  {
    KeepsSelf(d);
    if CanBegin(d, r, p, owner, draft, intact) {
      var e := BeginApply(d, r, p, owner, draft, intact);
      assert PlanRow(d, p);
      forall q: PlanId ensures GoodPlan(d, e, q) { assert PlanRow(d, q); }
      forall ws: Workspace ensures LockRow(e, ws) { assert LockRow(d, ws); }
      PlanChangeGood(d, e);
      GoodRows(d, e);
      ConversationsFrame(d, e);
      forall u: TaskId, v: TaskId ensures ApartClaims(e, u, v) { assert ApartClaims(d, u, v); }
      forall u: TaskId, v: TaskId ensures ApartTasks(e, u, v) { assert ApartTasks(d, u, v); }
      forall q: PlanId, q': PlanId ensures ApartPlans(e, q, q') { assert ApartPlans(d, q, q'); }
      forall u: TaskId, v: TaskId ensures ApartTurns(e, u, v) { assert ApartTurns(d, u, v); }
      forall u: TaskId ensures CountRow(e, u) { assert CountRow(d, u); }
    }
  }

  // ---------- a new result ----------

  ghost predicate Committable(d: Db, r: Record, o: Outcome) {
    && CanFinish(d, r) && r.exec !in d.results
    && (d.execs[r.exec].status.ExecCancelling? ==> o.OutCancelled? || o.OutBlocked?)
  }

  lemma ResultTask(d: Db, r: Record, o: Outcome, t: TaskId)
    requires Committable(d, r, o) && TaskRow(d, t) && ClaimRow(d, t) && TaskRow(d, r.task) && ClaimRow(d, r.task)
    ensures GoodTask(d, Commit(d, r, o), t) && CalmTask(d, Commit(d, r, o), t)
  {
    var e := Commit(d, r, o);
    assert t != r.task && t in d.tasks ==> e.tasks[t] == d.tasks[t] || e.tasks[t] == d.tasks[t].(status := Completed);
  }

  lemma ResultExec(d: Db, r: Record, o: Outcome, x: ExecId)
    requires Committable(d, r, o) && ExecRow(d, x) && ResultRow(d, x) && ClaimRow(d, r.task)
    ensures GoodExec(d, Commit(d, r, o), x) && CalmExec(d, Commit(d, r, o), x)
  {
    assert Commit(d, r, o).tasks.Keys == d.tasks.Keys;
  }

  lemma ResultPlan(d: Db, r: Record, o: Outcome, p: PlanId)
    requires Committable(d, r, o) && PlanRow(d, p) && ClaimRow(d, r.task)
    ensures GoodPlan(d, Commit(d, r, o), p) && CalmPlan(d, Commit(d, r, o), p)
  {
  }

  lemma ResultGood(d: Db, r: Record, o: Outcome)
    requires Rows(d) && Committable(d, r, o)
    ensures Good(d, Commit(d, r, o)) && Calm(d, Commit(d, r, o))
  {
    var e := Commit(d, r, o);
    assert TaskRow(d, r.task) && ClaimRow(d, r.task);
    forall t: TaskId ensures GoodTask(d, e, t) && CalmTask(d, e, t) {
      assert TaskRow(d, t) && ClaimRow(d, t);
      ResultTask(d, r, o, t);
    }
    forall x: ExecId ensures GoodExec(d, e, x) && CalmExec(d, e, x) {
      assert ExecRow(d, x) && ResultRow(d, x);
      ResultExec(d, r, o, x);
    }
    forall p: PlanId ensures GoodPlan(d, e, p) && CalmPlan(d, e, p) {
      assert PlanRow(d, p);
      ResultPlan(d, r, o, p);
    }
    forall ws: Workspace ensures LockRow(e, ws) { assert LockRow(d, ws); }
  }

  lemma FinishKeeps(d: Db, r: Record, outcome: Outcome, question: bool, draftLive: bool)
    requires Inv(d)
    ensures Keeps(d, Finish(d, r, outcome, question, draftLive))
  {
    if FinishCommits(d, r, outcome, draftLive) {
      var o := Committed(d, r, outcome, draftLive);
      var d1 := Commit(d, r, o);
      ResultGood(d, r, o);
      CalmStep(d, d1);
      CompleteTurnKeeps(d1, r.task, r.exec, o, question);
      KeepsTransitive(d, d1, CompleteTurn(d1, r.task, r.exec, o, question));
    } else {
      KeepsSelf(d);
    }
  }
}
