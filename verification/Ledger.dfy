// The ledger as the object the transactions update in place: one field a table, one method
// a transaction. Each method is proved equal to its function in `Transactions`.
module LedgerStore {
  import opened Options
  import opened FilePlans
  import opened LedgerTypes
  import opened Transactions
  import opened LedgerInvariants
  import opened LedgerProofs
  import opened CalmProofs
  import opened StepProofs
  import opened CreateProofs
  import opened Protocol
  import opened Effects
  import opened Scheduling

  datatype CancelAnswer = CancelRefused | CancelNothing(status: TaskStatus) | CancelAsked | CancelClosed(status: TaskStatus)

  // `db` is the committed content of the database file. A transaction works on its own
  // copy of the tables and commits by assigning it; returning without that rolls back.
  class Ledger {
    var db: Db

    ghost predicate Valid()
      reads this
    {
      Inv(db)
    }

    constructor ()
      ensures db == EMPTY && Valid()
    {
      db := EMPTY;
      EmptyInv();
    }

    // ---------- workers and the clock ----------

    method Tick(now: int)
      requires Valid()
      modifies this
      ensures db == Transactions.Tick(old(db), now) && Valid()
    {
      hide Inv;
      TickKeeps(db, now);
      if now >= db.clock { db := db.(clock := now); }
    }

    // A worker identifier is never reused.
    method RegisterWorker(w: WorkerId)
      requires Valid()
      modifies this
      ensures db == Transactions.RegisterWorker(old(db), w) && Valid()
    {
      hide Inv;
      RegisterKeeps(db, w);
      if w !in db.workers { db := db.(workers := db.workers[w := Worker(db.clock, false)]); }
    }

    method Heartbeat(w: WorkerId, closed: bool)
      requires Valid()
      modifies this
      ensures db == Transactions.Heartbeat(old(db), w, closed) && Valid()
    {
      hide Inv;
      HeartbeatKeeps(db, w, closed);
      if w in db.workers { db := db.(workers := db.workers[w := Worker(db.clock, closed)]); }
    }

    // ---------- intake ----------

    // `bind_conn`: the new turn takes the next number and links to the newest turn.
    method BindTurn(d: Db, t: TaskId, key: SessionKey) returns (e: Db)
      requires Inv(d)
      ensures e == Bind(d, t, key)
    {
      NewestIsLast(d, key);
      var s := SessionOf(d, key);
      var related := None;
      if u: TaskId :| u in d.turns && IsNewest(d, key, s.generation, u) {
        NewestIsUnique(d, key, s.generation, u);
        related := Some(u);
      }
      e := d.(turns := d.turns[t := Turn(key, s.generation, s.next, related, false, None)],
              sessions := d.sessions[key := Session(s.generation, s.next + 1, None)]);
    }

    method Submit(i: Intake) returns (accepted: bool)
      requires Valid()
      modifies this
      ensures db == SubmitRequest(old(db), i) && Valid() && accepted == CanSubmit(old(db), i)
    {
      hide Inv, Bind, Insert;
      SubmitKeeps(db, i);
      accepted := CanSubmit(db, i);
      if accepted {
        var d := Insert(db, i, Request, i.parent);
        InsertKeeps(db, i, Request, i.parent);
        if i.conversation.Some? { d := BindTurn(d, i.task, SessionKey(i.owner, i.conversation.value, i.workspace)); }
        db := d;
      }
    }

    method SubmitApply(i: Intake, p: PlanId) returns (accepted: bool)
      requires Valid()
      modifies this
      ensures db == Transactions.SubmitApply(old(db), i, p) && Valid() && accepted == CanSubmitApply(old(db), i, p)
    {
      hide Inv, Insert;
      SubmitApplyKeeps(db, i, p);
      accepted := CanSubmitApply(db, i, p);
      if accepted { db := Insert(db, i, Apply(p), Some(db.plans[p].task)); }
    }

    // An existing apply task of the plan is returned instead of a second one.
    method ApproveAndSubmit(i: Intake, p: PlanId, reviewed: seq<Change>, draft: bool) returns (created: bool)
      requires Valid()
      modifies this
      ensures db == Transactions.ApproveAndSubmit(old(db), i, p, reviewed, draft) && Valid()
      ensures created ==> !HasApplyTask(old(db), p) && HasApplyTask(db, p)
      ensures !created ==> db == old(db)
    {
      hide Inv;
      ApproveAndSubmitKeeps(db, i, p, reviewed, draft);
      created := false;
      if !HasApplyTask(db, p) && CanApprove(db, p, i.owner, reviewed, draft) {
        var d := SetPlan(db, p, PlanApproved);
        var j := i.(workspace := db.plans[p].workspace, source := None);
        if CanSubmitApply(d, j, p) {
          created := true;
          d := Insert(d, j, Apply(p), Some(d.plans[p].task));
          assert d.tasks[j.task].kind == Apply(p);
          db := d;
        }
      }
    }

    // ---------- recovery ----------

    method Recover() returns (count: nat)
      requires Valid()
      modifies this
      ensures db == Transactions.Recover(old(db)) && Valid()
      ensures count == |InterruptedTasks(old(db))|
    {
      hide Inv, RecoverSome, Transactions.Recover, Interrupted;
      var tasks, execs, claims := db.tasks, db.execs, db.claims;
      var rows := InterruptedTasks(db);
      var todo := rows;
      RecoverNone(db);
      RecoverAll(db);
      assert rows - todo == {};
      while todo != {}
        invariant todo <= rows && db == old(db)
        invariant tasks == RecoverSome(db, rows - todo).tasks
        invariant execs == RecoverSome(db, rows - todo).execs
        invariant claims == RecoverSome(db, rows - todo).claims
        decreases |todo|
      {
        var t :| t in todo;
        ghost var done := rows - todo;
        RecoverOne(db, done, t);
        assert rows - (todo - {t}) == done + {t};
        var current := tasks[t].current;
        tasks := tasks[t := tasks[t].(status := Blocked, eligible := false)];
        if current.Some? {
          if !TerminalExec(execs[current.value].status) {
            execs := execs[current.value := execs[current.value].(status := ExecLost, ended := Some(db.clock))];
          }
          if t in claims { claims := claims[t := claims[t].(released := true)]; }
        }
        todo := todo - {t};
      }
      count := |rows|;
      assert rows - todo == rows;
      RecoverKeeps(db);
      db := db.(tasks := tasks, execs := execs, claims := claims);
    }

    // ---------- the queue ----------

    // The rows are visited in queue order; the first one that is not held back is started.
    method Claim(w: WorkerId, slots: int, e: ExecId) returns (answer: Option<TaskId>)
      requires Valid() && e !in db.execs
      modifies this
      ensures ClaimAnswers(old(db), w, slots, answer) && Valid()
      ensures db == (match answer case None => old(db) case Some(t) => StartAttempt(old(db), t, e, w))
    {
      hide Inv, StartAttempt, HasEarlierWork, Excluded, ReadyInQueue;
      if |OpenClaims(db)| >= slots { return None; }
      var rows := set t | t in db.tasks && Candidate(db, t, w);
      while rows != {}
        invariant rows <= (set t | t in db.tasks && Candidate(db, t, w)) && db == old(db)
        invariant forall t | t in db.tasks && Claimable(db, t, w) :: t in rows
        decreases |rows|
      {
        ghost var first := QueueHasFirst(db, rows);
        assert IsFirst(db, rows, first);
        var t :| t in rows && forall u | u in rows && u != t :: Before(db.tasks[t], db.tasks[u]);
        if !HasEarlierWork(db, t) && !Excluded(db, t) {
          ClaimNeverConflicts(db, w, slots, t, e);
          ClaimNextKeeps(db, w, slots, t, e);
          db := StartAttempt(db, t, e, w);
          return Some(t);
        }
        rows := rows - {t};
      }
      return None;
    }

    method Renew(r: Record) returns (kept: bool)
      requires Valid()
      modifies this
      ensures db == Transactions.Renew(old(db), r) && Valid() && kept == CanRenew(old(db), r)
    {
      hide Inv;
      RenewKeeps(db, r);
      kept := CanRenew(db, r);
      if kept { db := db.(claims := db.claims[r.task := db.claims[r.task].(expires := db.clock + LEASE_SECONDS)]); }
    }

    // The fence, the outcome that may be committed, and the rows of the commit.
    method Finish(r: Record, reported: Outcome, question: bool, draftLive: bool) returns (saved: bool)
      requires Valid()
      modifies this
      ensures db == Transactions.Finish(old(db), r, reported, question, draftLive) && Valid()
      ensures saved == FinishCommits(old(db), r, reported, draftLive)
    {
      hide Inv, Unresolved, LivePlan, CompleteTurn;
      FinishKeeps(db, r, reported, question, draftLive);
      if !CanFinish(db, r) { return false; }
      var outcome := reported;
      if outcome.OutAwaiting? && !LivePlan(db, r.task) && !draftLive { outcome := OutCancelled; }
      if outcome.OutCancelled? {
        var effectTask := EffectTask(db, r.task);
        if effectTask in db.tasks && Unresolved(SetExec(db, r.exec, ExecCancelled), effectTask, true) { outcome := OutBlocked; }
      }
      if db.execs[r.exec].status.ExecCancelling? && !outcome.OutCancelled? { outcome := OutBlocked; }
      assert outcome == Committed(db, r, reported, draftLive);
      if r.exec in db.results { return false; }
      var tasks := db.tasks[r.task := db.tasks[r.task].(status := TaskAfter(outcome), eligible := false)];
      if outcome.OutSucceeded? && tasks[r.task].kind.Apply? {
        var p := tasks[r.task].kind.plan;
        if !(p in db.plans && db.plans[p].status.PlanApplied?) { return false; }
        var parent := db.plans[p].task;
        if parent in tasks && tasks[parent].status.AwaitingApproval? {
          tasks := tasks[parent := tasks[parent].(status := Completed)];
        }
      }
      CommitTasks(db, r, outcome, tasks);
      saved := true;
      var d := SetExec(db, r.exec, ExecAfter(outcome)).(
        tasks := tasks,
        claims := db.claims[r.task := db.claims[r.task].(released := true)],
        results := db.results[r.exec := Saved(r.task, outcome, Unsent)]);
      db := CompleteTurn(d, r.task, r.exec, outcome, question);
    }

    // ---------- owner controls ----------

    method RecordStartFailure(t: TaskId, owner: Owner, e: ExecId) returns (saved: bool)
      requires Valid()
      modifies this
      ensures db == StartFailure(old(db), t, owner, e) && Valid() && saved == CanRecordFailure(old(db), t, owner, e)
    {
      hide Inv;
      StartFailureKeeps(db, t, owner, e);
      saved := CanRecordFailure(db, t, owner, e);
      if saved { db := RecordFailure(db, t, e); }
    }

    // The second transaction of `resume`.
    method Requeue(t: TaskId, owner: Owner, w: WorkerId) returns (accepted: bool)
      requires Valid()
      modifies this
      ensures db == Transactions.Resume(old(db), t, owner, w) && Valid() && accepted == CanResume(old(db), t, owner, w)
    {
      hide Inv, Unresolved;
      ResumeKeeps(db, t, owner, w);
      accepted := CanResume(db, t, owner, w);
      if accepted { db := db.(tasks := db.tasks[t := db.tasks[t].(status := Queued, eligible := true, worker := w)]); }
    }

    method Resume(t: TaskId, owner: Owner, w: WorkerId) returns (accepted: bool)
      requires Valid()
      modifies this
      ensures db == Transactions.Resume(Transactions.Recover(old(db)), t, owner, w) && Valid()
      ensures accepted == CanResume(Transactions.Recover(old(db)), t, owner, w)
    {
      var count := Recover();
      accepted := Requeue(t, owner, w);
    }

    // A queued child is withdrawn; an active one and its running attempts are asked to stop.
    static method StopChild(d: Db, c: TaskId) returns (e: Db)
      requires c in d.tasks
      ensures e == StopChildren(d, {c})
    {
      var tasks, execs := d.tasks, d.execs;
      if d.tasks[c].status.Queued? {
        tasks := tasks[c := tasks[c].(status := Cancelled, eligible := false)];
      } else if ActiveTask(d.tasks[c].status) {
        tasks := tasks[c := tasks[c].(status := Cancelling)];
        execs := map x | x in d.execs :: if d.execs[x].task == c && d.execs[x].status.ExecRunning? then d.execs[x].(status := ExecCancelling) else d.execs[x];
      }
      StopChildrenOfOne(d, c, tasks, execs);
      e := d.(tasks := tasks, execs := execs);
    }

    method Cancel(t: TaskId, owner: Owner, selected: bool) returns (answer: CancelAnswer)
      requires Valid()
      modifies this
      ensures db == CancelTask(old(db), t, owner, selected) && Valid()
      ensures answer.CancelRefused? <==> t !in old(db).tasks || old(db).tasks[t].owner != owner || !selected
      ensures answer.CancelAsked? || answer.CancelClosed? <==> CancelActs(old(db), t, owner, selected)
      ensures answer.CancelNothing? ==> t in old(db).tasks && answer.status == old(db).tasks[t].status
      ensures answer.CancelAsked? ==> t in db.tasks && db.tasks[t].status.Cancelling?
      ensures answer.CancelClosed? ==> t in db.tasks && db.tasks[t].status == answer.status && (answer.status.Blocked? || answer.status.Cancelled?)
    {
      hide Inv, Unresolved, LiveClaim, Stopped, StopChildren, RevokedChildren, RevokedOf, Withdraw;
      CancelKeeps(db, t, owner, selected);
      if t !in db.tasks || db.tasks[t].owner != owner || !selected { return CancelRefused; }
      var status := db.tasks[t].status;
      if TerminalTask(status) || (status.Blocked? && Unresolved(db, t, true)) { return CancelNothing(status); }
      var active := Stoppable(db, t);
      var d := db;
      var plans := OpenPlansOf(db, t);
      var todo := plans;
      StoppedNone(db, t);
      while todo != {}
        invariant todo <= plans && db == old(db) && d == Stopped(db, t, plans - todo, {})
        decreases |todo|
      {
        var p :| p in todo;
        ghost var done := plans - todo;
        StopPlan(db, t, done, p);
        assert plans - (todo - {p}) == done + {p};
        d := SetPlan(d, p, PlanRevoked);
        var children := set c | c in d.tasks && d.tasks[c].parent == Some(t) && d.tasks[c].kind == Apply(p);
        var left := children;
        while left != {}
          invariant left <= children && db == old(db) && d == Stopped(db, t, done + {p}, left)
          decreases |left|
        {
          var c :| c in left;
          StopOneMore(db, t, done + {p}, left, c);
          d := StopChild(d, c);
          left := left - {c};
        }
        todo := todo - {p};
      }
      StoppedAll(db, t);
      assert plans - todo == plans;
      assert d == Withdraw(db, t);
      WithdrawKeepsTask(db, t);
      if active {
        db := AskToStop(d, t);
        return CancelAsked;
      }
      var uncertain := Unresolved(d, t, true);
      db := CloseTask(d, t, uncertain);
      return CancelClosed(if uncertain then Blocked else Cancelled);
    }

    // ---------- plan decisions ----------

    method Propose(p: PlanId, t: TaskId, owner: Owner, changes: seq<Change>, drafted: bool, draft: bool) returns (accepted: bool)
      requires Valid()
      modifies this
      ensures db == ProposePlan(old(db), p, t, owner, changes, drafted, draft) && Valid()
      ensures accepted == CanPropose(old(db), p, t, owner, changes, draft)
    {
      hide Inv, ValidPlan;
      ProposeKeeps(db, p, t, owner, changes, drafted, draft);
      accepted := CanPropose(db, p, t, owner, changes, draft);
      if accepted {
        var plans := map q | q in db.plans ::
          if db.plans[q].task == t && OpenPlan(db.plans[q].status) then db.plans[q].(status := PlanRevoked) else db.plans[q];
        assert plans == RevokeOpen(db.plans, t);
        db := db.(plans := plans[p := Plan(t, owner, db.tasks[t].workspace, changes, changes,
                                           if !drafted && CreatesOnly(changes) then PlanApproved else PlanPending, db.clock + PLAN_SECONDS, db.clock)]);
      }
    }

    method Approve(p: PlanId, owner: Owner, reviewed: seq<Change>, draft: bool) returns (accepted: bool)
      requires Valid()
      modifies this
      ensures db == ApprovePlan(old(db), p, owner, reviewed, draft) && Valid()
      ensures accepted == CanApprove(old(db), p, owner, reviewed, draft)
    {
      hide Inv;
      ApproveKeeps(db, p, owner, reviewed, draft);
      accepted := CanApprove(db, p, owner, reviewed, draft);
      if accepted { db := SetPlan(db, p, PlanApproved); }
    }

    static method CloseReviewAttempts(d: Db, t: TaskId, uncertain: bool) returns (e: Db)
      ensures e == CloseReviews(d, t, uncertain)
    {
      var execs := d.execs;
      var rows := set x | x in d.execs && d.execs[x].task == t && d.execs[x].status.ExecAwaiting?;
      var todo := rows;
      while todo != {}
        invariant todo <= rows && execs.Keys == d.execs.Keys
        invariant forall x | x in d.execs && x !in rows - todo :: execs[x] == d.execs[x]
        invariant forall x | x in rows - todo ::
          execs[x] == d.execs[x].(status := if uncertain then ExecLost else ExecCancelled, ended := Some(d.clock))
        decreases |todo|
      {
        var x :| x in todo;
        execs := execs[x := execs[x].(status := if uncertain then ExecLost else ExecCancelled, ended := Some(d.clock))];
        todo := todo - {x};
      }
      assert rows - todo == rows;
      ReviewsClosed(d, t, uncertain, rows, execs);
      e := d.(execs := execs);
    }

    // `_settle_closed_plan`
    static method SettleClosedPlan(d: Db, t: TaskId) returns (e: Db)
      ensures e == Settle(d, t)
    {
      hide Unresolved, StopChildren, CloseReviews;
      if t !in d.tasks || HasUnfinishedPlan(d, t) || LiveClaim(d, t) { return d; }
      if TerminalTask(d.tasks[t].status) {
        var uncertain := Unresolved(d, t, true);
        e := CloseReviewAttempts(d, t, uncertain);
        ReviewsKeepTasks(d, t, uncertain);
        if uncertain { e := SetTask(e, t, Blocked, d.tasks[t].eligible); }
        return e;
      }
      var children := ChildrenOf(d, t);
      var left := children;
      e := d;
      StopNobody(d);
      while left != {}
        invariant left <= children && e == StopChildren(d, children - left)
        decreases |left|
      {
        var c :| c in left;
        StopMore(d, children - left, c);
        assert children - (left - {c}) == (children - left) + {c};
        e := StopChild(e, c);
        left := left - {c};
      }
      assert children - left == children;
      StopKeepsLinks(d, children, t);
      var uncertain := Unresolved(e, t, true);
      ReviewsKeepTasks(e, t, uncertain);
      e := CloseReviewAttempts(e, t, uncertain);
      e := SetTask(e, t, if uncertain then Blocked else Cancelled, false);
    }

    method Revoke(p: PlanId, owner: Owner) returns (accepted: bool)
      requires Valid()
      modifies this
      ensures db == RevokePlan(old(db), p, owner) && Valid()
      ensures accepted <==> p in old(db).plans && old(db).plans[p].owner == owner && OpenPlan(old(db).plans[p].status)
    {
      hide Inv, Settle;
      RevokeKeeps(db, p, owner);
      accepted := p in db.plans && db.plans[p].owner == owner && OpenPlan(db.plans[p].status);
      if accepted { db := SettleClosedPlan(SetPlan(db, p, PlanRevoked), db.plans[p].task); }
    }

    // The plans `ps` and then the tasks `ts` are taken in the order the queries return them.
    method SettleExpired(ps: seq<PlanId>, ts: seq<TaskId>) returns (settled: nat)
      requires Valid()
      modifies this
      ensures db == Transactions.SettleExpired(old(db), ps, ts) && Valid()
      ensures settled == 0 || (settled == |ps| && Enumerates(ps, set p | p in old(db).plans && ExpiredPlan(old(db), p)))
    {
      hide Inv, Settle, ExpirePlans, SettleAll, Enumerates;
      SettleExpiredKeeps(db, ps, ts);
      if !Enumerates(ps, set p | p in db.plans && ExpiredPlan(db, p)) { return 0; }
      var d := db;
      settled := 0;
      assert ps[0..] == ps;
      while settled < |ps|
        invariant settled <= |ps| && db == old(db) && ExpirePlans(d, ps[settled..]) == ExpirePlans(db, ps)
      {
        ExpireNext(d, ps[settled..]);
        assert ps[settled..][1..] == ps[settled + 1..];
        var p := ps[settled];
        if p in d.plans && OpenPlan(d.plans[p].status) {
          d := SettleClosedPlan(SetPlan(d, p, PlanExpired), d.plans[p].task);
        }
        settled := settled + 1;
      }
      ExpireNext(d, ps[settled..]);
      if !Enumerates(ts, set t | t in d.tasks && StaleReview(d, t)) { return 0; }
      ghost var d1 := d;
      var i := 0;
      assert ts[0..] == ts;
      while i < |ts|
        invariant i <= |ts| && db == old(db) && SettleAll(d, ts[i..]) == SettleAll(d1, ts)
      {
        SettleNext(d, ts[i..]);
        assert ts[i..][1..] == ts[i + 1..];
        d := SettleClosedPlan(d, ts[i]);
        i := i + 1;
      }
      SettleNext(d, ts[i..]);
      db := d;
    }

    static method PassChildVerdicts(ghost d: Db, parentClosed: Db, p: PlanId, complete: bool, children: set<TaskId>) returns (e: Db)
      requires p in d.plans && d.plans[p].task !in children && parentClosed == VerdictSome(d, p, complete, {d.plans[p].task})
      requires forall t | t in children ::
        t in d.tasks && d.tasks[t].kind == Apply(p) && (d.tasks[t].status.Blocked? || d.tasks[t].status.Failed?)
      ensures e == VerdictSome(d, p, complete, children + {d.plans[p].task})
    {
      hide Unresolved, Verdict, VerdictSome;
      e := parentClosed;
      var todo := children;
      ghost var done := {d.plans[p].task};
      while todo != {}
        invariant todo <= children && done == (children - todo) + {d.plans[p].task} && e == VerdictSome(d, p, complete, done)
        decreases |todo|
      {
        var t :| t in todo;
        VerdictChild(d, p, complete, done, t);
        var childUnresolved := Unresolved(e, t, true);
        e := e.(tasks := e.tasks[t := e.tasks[t].(status := if childUnresolved then Blocked else if complete then Completed else Cancelled)]);
        todo, done := todo - {t}, done + {t};
      }
      assert done == children + {d.plans[p].task};
    }

    // `complete`: every file was observed at its after-image.
    method Resolve(p: PlanId, owner: Owner, complete: bool) returns (accepted: bool)
      requires Valid()
      modifies this
      ensures db == ResolvePlan(old(db), p, owner, complete) && Valid() && accepted == CanResolve(old(db), p, owner)
    {
      hide Inv, Unresolved, LiveClaim, ResolvedExecs, CanResolve, RecordResolution, Verdict, PassVerdict, VerdictSome;
      ResolveKeeps(db, p, owner, complete);
      accepted := CanResolve(db, p, owner);
      if !accepted { return; }
      ResolvableTask(db, p, owner);
      var parent := db.plans[p].task;
      var related := set t | t in db.tasks && db.tasks[t].kind == Apply(p) && (db.tasks[t].status.Blocked? || db.tasks[t].status.Failed?);
      var d := SetPlan(db, p, if complete then PlanApplied else PlanReconciled).(
        resolutions := db.resolutions + {Resolution(parent, p, ResolvedExecs(db, p))});
      RecordedAs(db, p, complete);
      var d1 := d;
      assert d1 == RecordResolution(db, p, complete);
      var unresolved := Unresolved(d, parent, true);
      VerdictParent(d1, p, complete);
      d := SetTask(d, parent, if complete && !unresolved then Completed else Blocked, false);
      d := PassChildVerdicts(d1, d, p, complete, related - {parent});
      VerdictAll(d1, p, complete);
      assert (related - {parent}) + {parent} == related + {parent};
      db := d;
    }

    // ---------- the transactions of an apply ----------

    method Begin(r: Record, p: PlanId, owner: Owner, draft: bool, intact: bool) returns (begun: bool)
      requires Valid()
      modifies this
      ensures db == BeginApply(old(db), r, p, owner, draft, intact) && Valid() && begun == CanBegin(old(db), r, p, owner, draft, intact)
    {
      hide Inv, MayTouch, JournalOf;
      BeginKeeps(db, r, p, owner, draft, intact);
      begun := CanBegin(db, r, p, owner, draft, intact);
      if begun {
        BeginnablePlan(db, r, p, owner, draft, intact);
        db := SetPlan(db, p, PlanApplying).(journal := db.journal[p := JournalOf(db.plans[p].changes)],
                                            locks := db.locks[db.plans[p].workspace := Holder(r, p, owner)]);
      }
    }

    method MarkApplied(ws: Workspace, i: nat)
      requires Valid()
      modifies this
      ensures db == MarkJournal(old(db), ws, i) && Valid()
    {
      hide Inv;
      MarkJournalKeeps(db, ws, i);
      if ws in db.locks && db.locks[ws].plan in db.journal && i < |db.journal[db.locks[ws].plan]| {
        var p := db.locks[ws].plan;
        db := db.(journal := db.journal[p := db.journal[p][i := db.journal[p][i].(applied := true)]]);
      }
    }

    method CommitFiles(ws: Workspace, draft: bool) returns (committed: bool)
      requires Valid()
      modifies this
      ensures db == CommitApply(old(db), ws, draft) && Valid()
      ensures committed == (ws in old(db).locks && MayTouch(old(db), old(db).locks[ws], PlanApplying, draft))
    {
      hide Inv;
      CommitApplyKeeps(db, ws, draft);
      committed := ws in db.locks && MayTouch(db, db.locks[ws], PlanApplying, draft);
      if committed { db := SetPlan(db, db.locks[ws].plan, PlanApplied).(locks := db.locks - {ws}); }
    }

    method MarkUncertain(ws: Workspace)
      requires Valid()
      modifies this
      ensures db == FailApply(old(db), ws) && Valid()
    {
      hide Inv;
      FailApplyKeeps(db, ws);
      if ws in db.locks && db.locks[ws].plan in db.plans {
        db := SetPlan(db, db.locks[ws].plan, PlanUncertain).(locks := db.locks - {ws});
      }
    }

    // The process holding the workspace lock dies.
    method DropLock(ws: Workspace)
      requires Valid()
      modifies this
      ensures db == CrashApply(old(db), ws) && Valid()
    {
      hide Inv;
      CrashApplyKeeps(db, ws);
      db := db.(locks := db.locks - {ws});
    }

    // ---------- delivery ----------

    method ClaimDelivery(t: TaskId, owner: Owner, e: ExecId, attempt: nat) returns (won: bool)
      requires Valid()
      modifies this
      ensures db == Transactions.ClaimDelivery(old(db), t, owner, e, attempt) && Valid() && won == CanSend(old(db), t, owner, e, attempt)
    {
      hide Inv;
      ClaimDeliveryKeeps(db, t, owner, e, attempt);
      won := CanSend(db, t, owner, e, attempt);
      if won { db := db.(results := db.results[e := db.results[e].(delivery := Sending)]); }
    }

    method SettleDelivery(e: ExecId, delivered: bool)
      requires Valid()
      modifies this
      ensures db == Transactions.SettleDelivery(old(db), e, delivered) && Valid()
    {
      hide Inv;
      SettleDeliveryKeeps(db, e, delivered);
      if e in db.results && db.results[e].delivery.Sending? {
        db := db.(results := db.results[e := db.results[e].(delivery := if delivered then Delivered else SendUncertain)]);
      }
    }

    method Acknowledge(t: TaskId, owner: Owner) returns (accepted: bool)
      requires Valid()
      modifies this
      ensures db == Transactions.Acknowledge(old(db), t, owner) && Valid()
      ensures accepted <==>
        && t in db.tasks && db.tasks[t].owner == owner && db.tasks[t].current.Some? && db.tasks[t].current.value in db.results
        && db.results[db.tasks[t].current.value].delivery.Acknowledged?
    {
      hide Inv;
      AcknowledgeKeeps(db, t, owner);
      if t !in db.tasks || db.tasks[t].owner != owner || db.tasks[t].current.None? || db.tasks[t].current.value !in db.results { return false; }
      var e := db.tasks[t].current.value;
      if db.results[e].delivery.Acknowledged? { return true; }
      accepted := AmbiguousDelivery(db, t);
      if accepted { db := db.(results := db.results[e := db.results[e].(delivery := Acknowledged)]); }
    }

    // ---------- conversation and routing ----------

    method Reset(key: SessionKey) returns (generation: nat)
      requires Valid()
      modifies this
      ensures db == ResetSession(old(db), key) && Valid() && generation == db.sessions[key].generation
    {
      hide Inv;
      ResetKeeps(db, key);
      generation := SessionOf(db, key).generation + 1;
      db := db.(sessions := db.sessions[key := Session(generation, 1, None)]);
    }

    method Assess(t: TaskId, priority: int)
      requires Valid()
      modifies this
      ensures db == Transactions.Assess(old(db), t, priority) && Valid()
    {
      hide Inv;
      AssessKeeps(db, t, priority);
      if t in db.tasks { db := db.(tasks := db.tasks[t := db.tasks[t].(priority := priority)]); }
    }
  }

  // ---------- recovery, row by row ----------

  function InterruptedTasks(d: Db): set<TaskId> { set t | t in d.tasks && Interrupted(d, t) }

  ghost function RecoverSome(d: Db, done: set<TaskId>): Db {
    d.(tasks := map t | t in d.tasks :: if t in done then d.tasks[t].(status := Blocked, eligible := false) else d.tasks[t],
       execs := map e | e in d.execs ::
         if d.execs[e].task in done && d.execs[e].task in d.tasks && d.tasks[d.execs[e].task].current == Some(e) && !TerminalExec(d.execs[e].status)
         then d.execs[e].(status := ExecLost, ended := Some(d.clock)) else d.execs[e],
       claims := map t | t in d.claims ::
         if t in done && t in d.tasks && d.tasks[t].current.Some? then d.claims[t].(released := true) else d.claims[t])
  }

  lemma RecoverNone(d: Db)
    ensures RecoverSome(d, {}) == d
  {
    assert RecoverSome(d, {}).tasks == d.tasks && RecoverSome(d, {}).execs == d.execs && RecoverSome(d, {}).claims == d.claims;
  }

  lemma RecoverAll(d: Db)
    ensures RecoverSome(d, InterruptedTasks(d)) == Transactions.Recover(d)
    ensures var e := Transactions.Recover(d); e == d.(tasks := e.tasks, execs := e.execs, claims := e.claims)
  {
    hide Interrupted;
    assert RecoverSome(d, InterruptedTasks(d)).execs == Transactions.Recover(d).execs;
  }

  // What one more interrupted row changes.
  lemma RecoverOne(d: Db, done: set<TaskId>, t: TaskId)
    requires Inv(d) && t in d.tasks && t !in done
    ensures var a, b := RecoverSome(d, done), RecoverSome(d, done + {t});
      var x := d.tasks[t].current;
      && t in a.tasks && a.tasks[t] == d.tasks[t]
      && b.tasks == a.tasks[t := d.tasks[t].(status := Blocked, eligible := false)]
      && (x.Some? ==> x.value in a.execs && a.execs[x.value] == d.execs[x.value])
      && b.execs == (if x.Some? && !TerminalExec(d.execs[x.value].status)
                     then a.execs[x.value := d.execs[x.value].(status := ExecLost, ended := Some(d.clock))] else a.execs)
      && b.claims == (if x.Some? && t in a.claims then a.claims[t := a.claims[t].(released := true)] else a.claims)
  {
    assert TaskRow(d, t);
  }

  // ---------- helpers of single transactions ----------

  lemma NewestIsUnique(d: Db, key: SessionKey, g: nat, t: TaskId)
    requires Inv(d) && IsNewest(d, key, g, t)
    ensures Newest(d, key, g) == Some(t)
  {
    var u := Newest(d, key, g).value;
    assert IsNewest(d, key, g, u) && ApartTurns(d, t, u);
  }

  lemma CommitTasks(d: Db, r: Record, o: Outcome, tasks: map<TaskId, Task>)
    requires CanFinish(d, r)
    requires var t1 := d.tasks[r.task := d.tasks[r.task].(status := TaskAfter(o), eligible := false)];
      var parent := EffectTask(d, r.task);
      tasks == if o.OutSucceeded? && d.tasks[r.task].kind.Apply? && parent in t1 && t1[parent].status.AwaitingApproval?
               then t1[parent := t1[parent].(status := Completed)] else t1
    ensures tasks == Commit(d, r, o).tasks
  {
  }

  lemma StopChildrenOfOne(d: Db, c: TaskId, tasks: map<TaskId, Task>, execs: map<ExecId, Exec>)
    requires c in d.tasks
    requires tasks == d.tasks[c := StopTask(d.tasks[c])]
    requires execs == if ActiveTask(d.tasks[c].status)
      then map x | x in d.execs :: if d.execs[x].task == c && d.execs[x].status.ExecRunning? then d.execs[x].(status := ExecCancelling) else d.execs[x]
      else d.execs
    ensures d.(tasks := tasks, execs := execs) == StopChildren(d, {c})
  {
    assert tasks == StopTasks(d.tasks, {c});
    assert execs == StopExecs(d, {c});
  }

  // ---------- cancellation, plan by plan and child by child ----------

  function OpenPlansOf(d: Db, t: TaskId): set<PlanId> { set p | p in d.plans && d.plans[p].task == t && OpenPlan(d.plans[p].status) }

  // The apply tasks of the plans in `ps`.
  ghost function RevokedOf(d: Db, t: TaskId, ps: set<PlanId>): set<TaskId> {
    set c | c in d.tasks && d.tasks[c].parent == Some(t) && d.tasks[c].kind.Apply? && d.tasks[c].kind.plan in ps
  }

  ghost function RevokeSome(plans: map<PlanId, Plan>, ps: set<PlanId>): map<PlanId, Plan> {
    map p | p in plans :: if p in ps then plans[p].(status := PlanRevoked) else plans[p]
  }

  // The plans `ps` are revoked and their children stopped, except those in `left`.
  ghost function Stopped(d: Db, t: TaskId, ps: set<PlanId>, left: set<TaskId>): Db {
    StopChildren(d, RevokedOf(d, t, ps) - left).(plans := RevokeSome(d.plans, ps))
  }

  lemma StoppedNone(d: Db, t: TaskId)
    ensures Stopped(d, t, OpenPlansOf(d, t) - OpenPlansOf(d, t), {}) == d
  {
    assert RevokedOf(d, t, {}) == {};
    assert StopTasks(d.tasks, {}) == d.tasks && StopExecs(d, {}) == d.execs;
  }

  lemma StoppedAll(d: Db, t: TaskId)
    ensures Stopped(d, t, OpenPlansOf(d, t), {}) == Withdraw(d, t)
  {
    assert RevokedOf(d, t, OpenPlansOf(d, t)) - {} == RevokedChildren(d, t);
  }

  lemma StopKeepsLinks(d: Db, cs: set<TaskId>, c: TaskId)
    ensures var e := StopChildren(d, cs);
      && (c in e.tasks <==> c in d.tasks)
      && (c in d.tasks ==> e.tasks[c].kind == d.tasks[c].kind && e.tasks[c].parent == d.tasks[c].parent)
  {
  }

  lemma StopPlan(d: Db, t: TaskId, ps: set<PlanId>, p: PlanId)
    requires p in d.plans && p !in ps
    ensures var a := Stopped(d, t, ps, {});
      var kids := set c | c in a.tasks && a.tasks[c].parent == Some(t) && a.tasks[c].kind == Apply(p);
      p in a.plans && kids <= RevokedOf(d, t, ps + {p}) && SetPlan(a, p, PlanRevoked) == Stopped(d, t, ps + {p}, kids)
  {
    hide StopChildren;
    var a := Stopped(d, t, ps, {});
    var cs := RevokedOf(d, t, ps) - {};
    forall c ensures (c in a.tasks <==> c in d.tasks)
      && (c in d.tasks ==> a.tasks[c].kind == d.tasks[c].kind && a.tasks[c].parent == d.tasks[c].parent)
    { StopKeepsLinks(d, cs, c); }
    var kids := set c | c in a.tasks && a.tasks[c].parent == Some(t) && a.tasks[c].kind == Apply(p);
    assert RevokedOf(d, t, ps + {p}) - kids == cs;
    assert RevokeSome(d.plans, ps + {p}) == a.plans[p := a.plans[p].(status := PlanRevoked)];
  }

  lemma StopMore(d: Db, cs: set<TaskId>, c: TaskId)
    requires c in d.tasks && c !in cs
    ensures c in StopChildren(d, cs).tasks && StopChildren(StopChildren(d, cs), {c}) == StopChildren(d, cs + {c})
  {
    var a := StopChildren(d, cs);
    assert StopTasks(a.tasks, {c}) == StopTasks(d.tasks, cs + {c});
    assert StopExecs(a, {c}) == StopExecs(d, cs + {c});
  }

  lemma StopOneMore(d: Db, t: TaskId, ps: set<PlanId>, left: set<TaskId>, c: TaskId)
    requires c in left && c in RevokedOf(d, t, ps)
    ensures var a := Stopped(d, t, ps, left); c in a.tasks && StopChildren(a, {c}) == Stopped(d, t, ps, left - {c})
  {
    var cs := RevokedOf(d, t, ps) - left;
    StopMore(d, cs, c);
    assert RevokedOf(d, t, ps) - (left - {c}) == cs + {c};
  }

  lemma WithdrawKeepsTask(d: Db, t: TaskId)
    requires Inv(d) && t in d.tasks
    ensures var w := Withdraw(d, t);
      t in w.tasks && w.tasks[t].status == d.tasks[t].status
      && (LiveClaim(d, t) && d.claims[t].exec in d.execs ==> t in w.claims && w.claims[t] == d.claims[t] && d.claims[t].exec in w.execs)
  {
    assert TaskRow(d, t);
    WithdrawSpares(d, t);
  }

  // ---------- closing plans ----------

  lemma ReviewsClosed(d: Db, t: TaskId, uncertain: bool, rows: set<ExecId>, execs: map<ExecId, Exec>)
    requires rows == set x | x in d.execs && d.execs[x].task == t && d.execs[x].status.ExecAwaiting?
    requires execs.Keys == d.execs.Keys && forall x | x in d.execs && x !in rows :: execs[x] == d.execs[x]
    requires forall x | x in rows ::
      execs[x] == d.execs[x].(status := if uncertain then ExecLost else ExecCancelled, ended := Some(d.clock))
    ensures d.(execs := execs) == CloseReviews(d, t, uncertain)
  {
    assert execs == CloseReviews(d, t, uncertain).execs;
  }

  lemma ReviewsKeepTasks(d: Db, t: TaskId, uncertain: bool)
    ensures CloseReviews(d, t, uncertain).tasks == d.tasks
  {
  }

  lemma StopNobody(d: Db)
    ensures StopChildren(d, {}) == d
    ensures forall cs: set<TaskId> :: cs - cs == {}
  {
    assert StopTasks(d.tasks, {}) == d.tasks && StopExecs(d, {}) == d.execs;
  }

  lemma ExpireNext(d: Db, ps: seq<PlanId>)
    ensures ExpirePlans(d, ps) == if ps == [] then d else ExpirePlans(ExpirePlan(d, ps[0]), ps[1..])
  {
  }

  lemma SettleNext(d: Db, ts: seq<TaskId>)
    ensures SettleAll(d, ts) == if ts == [] then d else SettleAll(Settle(d, ts[0]), ts[1..])
  {
  }

  // ---------- resolution, task by task ----------

  ghost function VerdictSome(d: Db, p: PlanId, complete: bool, done: set<TaskId>): Db
    requires p in d.plans
  {
    d.(tasks := map t | t in d.tasks :: if t in done then Verdict(d, p, t, complete) else d.tasks[t])
  }

  lemma ResolvableTask(d: Db, p: PlanId, owner: Owner)
    requires CanResolve(d, p, owner)
    ensures p in d.plans && d.plans[p].task in d.tasks
  {
  }

  lemma RecordedAs(d: Db, p: PlanId, complete: bool)
    requires p in d.plans && d.plans[p].task in d.tasks
    ensures RecordResolution(d, p, complete) == SetPlan(d, p, if complete then PlanApplied else PlanReconciled).(
      resolutions := d.resolutions + {Resolution(d.plans[p].task, p, ResolvedExecs(d, p))})
  {
  }

  lemma VerdictParent(d: Db, p: PlanId, complete: bool)
    requires p in d.plans && d.plans[p].task in d.tasks
    ensures var t := d.plans[p].task;
      SetTask(d, t, if complete && !Unresolved(d, t, true) then Completed else Blocked, false) == VerdictSome(d, p, complete, {t})
  {
    hide Unresolved;
    var t := d.plans[p].task;
    assert Verdict(d, p, t, complete) == d.tasks[t].(status := if complete && !Unresolved(d, t, true) then Completed else Blocked, eligible := false);
    hide Verdict;
    assert SetTask(d, t, if complete && !Unresolved(d, t, true) then Completed else Blocked, false).tasks == VerdictSome(d, p, complete, {t}).tasks;
  }

  // Verdicts change no evidence, so the order in which they are passed does not matter.
  lemma VerdictsKeepEvidence(d: Db, p: PlanId, complete: bool, done: set<TaskId>, t: TaskId)
    requires p in d.plans && t in d.tasks
    ensures Unresolved(VerdictSome(d, p, complete, done), t, true) <==> Unresolved(d, t, true)
  {
    var e := VerdictSome(d, p, complete, done);
    forall u: TaskId ensures SameLinks(d, e, u) && SameLinks(e, d, u) { if u in d.tasks && d.plans[p].task in d.tasks { VerdictHasShape(d, p, complete, u); } }
    assert NoNewEffects(d, e, {}) && NoNewEffects(e, d, {});
    if Unresolved(e, t, true) { UnresolvedBack(d, e, {}, t); }
    if Unresolved(d, t, true) { UnresolvedBack(e, d, {}, t); }
  }

  lemma VerdictChild(d: Db, p: PlanId, complete: bool, done: set<TaskId>, t: TaskId)
    requires p in d.plans && t in d.tasks && t !in done && t != d.plans[p].task
    requires d.tasks[t].kind == Apply(p) && (d.tasks[t].status.Blocked? || d.tasks[t].status.Failed?)
    ensures var a := VerdictSome(d, p, complete, done);
      && t in a.tasks
      && VerdictSome(d, p, complete, done + {t}) ==
           a.(tasks := a.tasks[t := a.tasks[t].(status := if Unresolved(a, t, true) then Blocked else if complete then Completed else Cancelled)])
  {
    VerdictsKeepEvidence(d, p, complete, done, t);
    hide Unresolved;
    var a := VerdictSome(d, p, complete, done);
    assert VerdictSome(d, p, complete, done + {t}).tasks == a.tasks[t := Verdict(d, p, t, complete)];
  }

  lemma VerdictAll(d: Db, p: PlanId, complete: bool)
    requires p in d.plans && d.plans[p].task in d.tasks
    ensures var related := set t | t in d.tasks && d.tasks[t].kind == Apply(p) && (d.tasks[t].status.Blocked? || d.tasks[t].status.Failed?);
      VerdictSome(d, p, complete, related + {d.plans[p].task}) == PassVerdict(d, p, complete)
  {
    hide Unresolved;
  }

  lemma BeginnablePlan(d: Db, r: Record, p: PlanId, owner: Owner, draft: bool, intact: bool)
    requires CanBegin(d, r, p, owner, draft, intact)
    ensures p in d.plans
  {
  }
}
