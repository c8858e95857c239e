// What the owner's controls do, field by field: approving, revoking, cancelling, expiring and
// resolving.
module ControlLaws {
  import opened Options
  import opened FilePlans
  import opened LedgerTypes
  import opened Transactions
  import opened LedgerInvariants
  import opened LedgerProofs
  import opened CalmProofs
  import opened StepProofs
  import opened Protocol
  import opened Frames
  import opened Effects
  import opened ClosingCauses

  // ---------- evidence that a step does not change ----------

  ghost predicate SameEvidence(d: Db, e: Db) { NoNewEffects(d, e, {}) && NoNewEffects(e, d, {}) }

  lemma SameEvidenceSameEffects(d: Db, e: Db, t: TaskId)
    requires SameEvidence(d, e) && t in d.tasks && t in e.tasks
    ensures Unresolved(d, t, true) <==> Unresolved(e, t, true)
  {
    if Unresolved(e, t, true) { UnresolvedBack(d, e, {}, t); }
    if Unresolved(d, t, true) { UnresolvedBack(e, d, {}, t); }
  }

  lemma StoppingKeepsEvidence(d: Db, cs: set<TaskId>)
    ensures SameEvidence(d, StopChildren(d, cs))
  {
  }

  predicate OnlyCloses(a: Plan, b: Plan) {
    b == a || (OpenPlan(a.status) && (b == a.(status := PlanRevoked) || b == a.(status := PlanExpired)))
  }

  lemma ClosingKeepsEvidence(d: Db, e: Db)
    requires Inv(d) && e == d.(plans := e.plans) && e.plans.Keys == d.plans.Keys
    requires forall p | p in d.plans :: OnlyCloses(d.plans[p], e.plans[p])
    ensures SameEvidence(d, e)
  {
    forall p: PlanId ensures NoNewJournal(d, e, p, {}) && NoNewJournal(e, d, p, {}) { assert PlanRow(d, p); }
    forall x: ExecId ensures NoNewAttempt(d, e, x, {}) && NoNewAttempt(e, d, x, {}) {}
    forall t: TaskId ensures SameLinks(d, e, t) && SameLinks(e, d, t) {}
  }

  lemma EvidenceOn(a: Db, b: Db, c: Db, t: TaskId)
    requires SameEvidence(a, b) && SameEvidence(b, c) && t in a.tasks
    ensures t in b.tasks && t in c.tasks && (Unresolved(a, t, true) <==> Unresolved(c, t, true))
  {
    assert SameLinks(a, b, t) && SameLinks(b, c, t);
    hide NoNewEffects;
    SameEvidenceSameEffects(a, b, t);
    SameEvidenceSameEffects(b, c, t);
  }

  // ---------- stopping the children ----------

  // How a withdrawn or stopped child looks afterwards.
  predicate Stopped(a: Task, b: Task) {
    match a.status
    case Queued => b == a.(status := Cancelled, eligible := false)
    case Running | Cancelling => b == a.(status := Cancelling)
    case _ => b == a
  }

  // The attempts of a stopped child that run are asked to stop.
  predicate AskedIf(asked: bool, a: Exec, b: Exec) {
    b == if asked && a.status.ExecRunning? then a.(status := ExecCancelling) else a
  }

  // The children of a cancelled task that go with it: the applies of its plans under review.
  predicate GoesAlong(d: Db, t: TaskId, c: TaskId) {
    && c in d.tasks && d.tasks[c].parent == Some(t) && d.tasks[c].kind.Apply? && d.tasks[c].kind.plan in d.plans
    && d.plans[d.tasks[c].kind.plan].task == t && OpenPlan(d.plans[d.tasks[c].kind.plan].status)
  }

  // A plan of `t` under review is revoked, any other stays.
  predicate RevokedIf(t: TaskId, a: Plan, b: Plan) {
    b == if a.task == t && OpenPlan(a.status) then a.(status := PlanRevoked) else a
  }

  // ---------- cancellation ----------

  // The cancellation is refused or has nothing left to do.
  predicate CancelEndsEarly(d: Db, t: TaskId, owner: Owner, selected: bool) {
    || t !in d.tasks || d.tasks[t].owner != owner || !selected
    || d.tasks[t].status.Completed? || d.tasks[t].status.Failed? || d.tasks[t].status.Cancelled?
    || (d.tasks[t].status.Blocked? && Unresolved(d, t, true))
  }

  // The task's current attempt is at work under a live claim and can acknowledge the stop.
  predicate CanAnswer(d: Db, t: TaskId)
    requires t in d.tasks
  {
    && t in d.claims && !d.claims[t].released && d.clock < d.claims[t].expires && d.tasks[t].current == Some(d.claims[t].exec)
    && d.claims[t].exec in d.execs && (d.execs[d.claims[t].exec].status.ExecRunning? || d.execs[d.claims[t].exec].status.ExecCancelling?)
  }

  // The task's own rows: asked to stop if its attempt can answer; otherwise closed at once, held
  // if its effects are uncertain, with its claim released and every open attempt ended now.
  ghost predicate CancelsOwn(d: Db, e: Db, t: TaskId)
    requires t in d.tasks
  {
    var uncertain := Unresolved(d, t, true);
    && t in e.tasks
    && if CanAnswer(d, t) then
         && e.tasks[t] == d.tasks[t].(status := Cancelling) && e.claims == d.claims
         && d.claims[t].exec in e.execs && e.execs[d.claims[t].exec] == d.execs[d.claims[t].exec].(status := ExecCancelling)
       else
         && e.tasks[t] == d.tasks[t].(status := if uncertain then Blocked else Cancelled, eligible := false)
         && e.claims == (if t in d.claims then d.claims[t := d.claims[t].(released := true)] else d.claims)
         && forall x | x in d.execs && d.execs[x].task == t :: x in e.execs && e.execs[x] ==
              if TerminalExec(d.execs[x].status) then d.execs[x]
              else d.execs[x].(status := if uncertain then ExecLost else ExecCancelled, ended := Some(d.clock))
  }

  // The rows of the others: plans under review are revoked, their applies stopped.
  ghost predicate CancelsAlong(d: Db, e: Db, t: TaskId) {
    && e.plans.Keys == d.plans.Keys && (forall p | p in d.plans :: RevokedIf(t, d.plans[p], e.plans[p]))
    && e.tasks.Keys == d.tasks.Keys
    && (forall c | c in d.tasks && c != t :: if GoesAlong(d, t, c) then Stopped(d.tasks[c], e.tasks[c]) else e.tasks[c] == d.tasks[c])
    && e.execs.Keys == d.execs.Keys
    && (forall x | x in d.execs && d.execs[x].task != t :: AskedIf(GoesAlong(d, t, d.execs[x].task) && ActiveTask(d.tasks[d.execs[x].task].status), d.execs[x], e.execs[x]))
  }

  // A cancellation by the owner that does not end early revokes, stops and closes exactly this.
  lemma CancelExactly(d: Db, t: TaskId, owner: Owner, selected: bool)
    requires Inv(d)
    ensures var e := CancelTask(d, t, owner, selected);
      if CancelEndsEarly(d, t, owner, selected) then e == d
      else t in d.tasks && CancelsOwn(d, e, t) && CancelsAlong(d, e, t)
           && e == d.(tasks := e.tasks, execs := e.execs, plans := e.plans, claims := e.claims)
  {
    if CancelActs(d, t, owner, selected) {
      var w := Withdraw(d, t);
      WithdrawRows(d, t);
      WithdrawFrame(d, t);
      WithdrawKeepsEffects(d, t);
      hide Withdraw, Unresolved, Inv;
      if Stoppable(d, t) { AskRows(d, w, t); } else { CloseRows(d, w, t, Unresolved(w, t, true)); }
    }
  }

  // What the revocation of the plans leaves of each row.
  ghost predicate Withdrawn(d: Db, w: Db, t: TaskId) {
    && CancelsAlong(d, w, t) && w.claims == d.claims && w.clock == d.clock
    && (t in d.tasks ==> t in w.tasks && w.tasks[t] == d.tasks[t])
    && (forall x | x in d.execs && d.execs[x].task == t :: x in w.execs && w.execs[x] == d.execs[x])
  }

  lemma WithdrawRows(d: Db, t: TaskId)
    requires Inv(d)
    ensures Withdrawn(d, Withdraw(d, t), t)
  {
    WithdrawsTasks(d, t);
    WithdrawsExecs(d, t);
    RevokedRows(d.plans, t);
    WithdrawFrame(d, t);
    assert Withdraw(d, t).plans == RevokeOpen(d.plans, t);
    hide Inv, Withdraw, GoesAlong, Stopped, AskedIf, RevokedIf, RevokeOpen;
  }

  lemma WithdrawsTasks(d: Db, t: TaskId)
    requires Inv(d)
    ensures var w := Withdraw(d, t);
      && w.tasks.Keys == d.tasks.Keys && (t in d.tasks ==> w.tasks[t] == d.tasks[t])
      && forall c | c in d.tasks && c != t :: if GoesAlong(d, t, c) then Stopped(d.tasks[c], w.tasks[c]) else w.tasks[c] == d.tasks[c]
  {
    WithdrawKeepsRow(d, t);
    forall c | c in d.tasks ensures if GoesAlong(d, t, c) then Stopped(d.tasks[c], Withdraw(d, t).tasks[c]) else Withdraw(d, t).tasks[c] == d.tasks[c] {
      WithdrawsTask(d, t, c);
    }
    if t in d.tasks { assert TaskRow(d, t); }
    assert !GoesAlong(d, t, t);
    hide Inv, GoesAlong, Withdraw, Stopped;
  }

  lemma WithdrawsTask(d: Db, t: TaskId, c: TaskId)
    requires c in d.tasks
    ensures var w := Withdraw(d, t);
      c in w.tasks && if GoesAlong(d, t, c) then Stopped(d.tasks[c], w.tasks[c]) else w.tasks[c] == d.tasks[c]
  {
    assert c in RevokedChildren(d, t) <==> GoesAlong(d, t, c);
    hide GoesAlong, RevokedChildren, StopExecs, RevokeOpen;
  }

  lemma WithdrawsExecs(d: Db, t: TaskId)
    requires Inv(d)
    ensures var w := Withdraw(d, t);
      && w.execs.Keys == d.execs.Keys && (forall x | x in d.execs && d.execs[x].task == t :: w.execs[x] == d.execs[x])
      && forall x | x in d.execs && d.execs[x].task != t ::
           d.execs[x].task in d.tasks
           && AskedIf(GoesAlong(d, t, d.execs[x].task) && ActiveTask(d.tasks[d.execs[x].task].status), d.execs[x], w.execs[x])
  {
    forall c ensures c in RevokedChildren(d, t) <==> GoesAlong(d, t, c) {}
    if t in d.tasks { assert TaskRow(d, t); }
    assert !GoesAlong(d, t, t);
    forall x | x in d.execs ensures d.execs[x].task in d.tasks { assert ExecRow(d, x); }
    StoppedRows(d, RevokedChildren(d, t));
    hide Inv, GoesAlong, RevokedChildren, StopTasks, StopExecs, RevokeOpen;
  }

  lemma StoppedRows(d: Db, cs: set<TaskId>)
    ensures var ts := StopTasks(d.tasks, cs);
      ts.Keys == d.tasks.Keys && forall c | c in d.tasks :: if c in cs then Stopped(d.tasks[c], ts[c]) else ts[c] == d.tasks[c]
    ensures var xs := StopExecs(d, cs);
      xs.Keys == d.execs.Keys
      && forall x | x in d.execs && d.execs[x].task in d.tasks ::
           AskedIf(d.execs[x].task in cs && ActiveTask(d.tasks[d.execs[x].task].status), d.execs[x], xs[x])
  {
  }

  lemma RevokedRows(plans: map<PlanId, Plan>, t: TaskId)
    ensures var ps := RevokeOpen(plans, t); ps.Keys == plans.Keys && forall p | p in plans :: RevokedIf(t, plans[p], ps[p])
  {
  }

  lemma WithdrawKeepsEffects(d: Db, t: TaskId)
    requires Inv(d) && t in d.tasks
    ensures t in Withdraw(d, t).tasks && (Unresolved(Withdraw(d, t), t, true) <==> Unresolved(d, t, true))
  {
    var s := StopChildren(d, RevokedChildren(d, t));
    StoppingKeepsEvidence(d, RevokedChildren(d, t));
    StopChildrenKeeps(d, RevokedChildren(d, t));
    ClosingKeepsEvidence(s, RevokePlans(s, t));
    hide Inv, SameEvidence, StopChildren, RevokePlans, RevokedChildren;
    EvidenceOn(d, s, RevokePlans(s, t), t);
  }

  lemma AskRows(d: Db, w: Db, t: TaskId)
    requires Inv(d) && t in d.tasks && Withdrawn(d, w, t) && Stoppable(d, t)
    ensures t in w.tasks && t in w.claims && w.claims[t].exec in w.execs
    ensures CancelsOwn(d, AskToStop(w, t), t) && CancelsAlong(d, AskToStop(w, t), t)
  {
    assert ClaimRow(d, t);
    hide Inv, Unresolved, GoesAlong;
  }

  lemma CloseRows(d: Db, w: Db, t: TaskId, uncertain: bool)
    requires t in d.tasks && Withdrawn(d, w, t) && !Stoppable(d, t) && (uncertain <==> Unresolved(d, t, true))
    ensures t in w.tasks && CancelsOwn(d, CloseTask(w, t, uncertain), t) && CancelsAlong(d, CloseTask(w, t, uncertain), t)
  {
    hide Unresolved, GoesAlong;
    if uncertain {} else {}
  }

  // ---------- the end of a review ----------

  // No plan of the task is under review or being applied, and no attempt of it is at work.
  predicate ReviewIsOver(d: Db, t: TaskId) {
    && t in d.tasks
    && (forall p | p in d.plans && d.plans[p].task == t ::
          !d.plans[p].status.PlanPending? && !d.plans[p].status.PlanApproved? && !d.plans[p].status.PlanApplying?)
    && !(t in d.claims && !d.claims[t].released && d.clock < d.claims[t].expires)
  }

  predicate HasEnded(s: TaskStatus) { s.Completed? || s.Failed? || s.Cancelled? }

  // The task is held if effects are uncertain, and otherwise cancelled unless it had ended; the
  // attempts that waited for the review end with it.
  ghost predicate EndsReview(d: Db, e: Db, t: TaskId)
    requires t in d.tasks
  {
    var uncertain, ended := Unresolved(d, t, true), HasEnded(d.tasks[t].status);
    && t in e.tasks
    && e.tasks[t] == d.tasks[t].(status := if uncertain then Blocked else if ended then d.tasks[t].status else Cancelled,
                                 eligible := ended && d.tasks[t].eligible)
    && forall x | x in d.execs && d.execs[x].task == t :: x in e.execs && e.execs[x] ==
         if d.execs[x].status.ExecAwaiting? then d.execs[x].(status := if uncertain then ExecLost else ExecCancelled, ended := Some(d.clock)) else d.execs[x]
  }

  // A task that had not ended takes its children with it.
  predicate StopsAlong(d: Db, e: Db, t: TaskId)
    requires t in d.tasks
  {
    && e.tasks.Keys == d.tasks.Keys && e.execs.Keys == d.execs.Keys
    && (forall c | c in d.tasks && c != t ::
          if !HasEnded(d.tasks[t].status) && d.tasks[c].parent == Some(t) then Stopped(d.tasks[c], e.tasks[c]) else e.tasks[c] == d.tasks[c])
    && (forall x | x in d.execs && d.execs[x].task != t && d.execs[x].task in d.tasks ::
          AskedIf(!HasEnded(d.tasks[t].status) && d.tasks[d.execs[x].task].parent == Some(t) && ActiveTask(d.tasks[d.execs[x].task].status),
                  d.execs[x], e.execs[x]))
  }

  // Closing a plan settles its task exactly when its review is over.
  lemma SettleExactly(d: Db, t: TaskId)
    requires Inv(d)
    ensures var e := Settle(d, t);
      if ReviewIsOver(d, t) then EndsReview(d, e, t) && StopsAlong(d, e, t) && e == d.(tasks := e.tasks, execs := e.execs) else e == d
  {
    assert SettleActs(d, t) <==> ReviewIsOver(d, t);
    SettleFrame(d, t);
    if SettleActs(d, t) {
      hide Inv, ReviewIsOver, HasUnfinishedPlan, LiveClaim, Unresolved;
      if HasEnded(d.tasks[t].status) { EndedRows(d, t, Unresolved(d, t, true)); } else { LiveRows(d, t); }
    }
  }

  lemma EndedRows(d: Db, t: TaskId, uncertain: bool)
    requires t in d.tasks && HasEnded(d.tasks[t].status) && (uncertain <==> Unresolved(d, t, true))
    ensures EndsReview(d, SettleEnded(d, t, uncertain), t) && StopsAlong(d, SettleEnded(d, t, uncertain), t)
  {
    hide Unresolved;
    if uncertain {} else {}
  }

  // The children have been stopped, and the task itself is as it was.
  predicate ChildrenStopped(d: Db, c: Db, t: TaskId)
    requires t in d.tasks
  {
    && StopsAlong(d, c, t) && c.clock == d.clock && t in c.tasks && c.tasks[t] == d.tasks[t]
    && forall x | x in d.execs && d.execs[x].task == t :: x in c.execs && c.execs[x] == d.execs[x]
  }

  lemma ChildrenStop(d: Db, t: TaskId)
    requires Inv(d) && t in d.tasks && !HasEnded(d.tasks[t].status)
    ensures ChildrenStopped(d, StopChildren(d, ChildrenOf(d, t)), t)
  {
    var cs := ChildrenOf(d, t);
    assert TaskRow(d, t);
    StoppedRows(d, cs);
    assert t !in cs && forall c | c in d.tasks :: c in cs <==> d.tasks[c].parent == Some(t);
    hide Inv, ChildrenOf, StopTasks, StopExecs, Stopped;
  }

  lemma CloseStopped(d: Db, c: Db, t: TaskId, uncertain: bool)
    requires t in d.tasks && !HasEnded(d.tasks[t].status) && (uncertain <==> Unresolved(d, t, true)) && ChildrenStopped(d, c, t)
    requires forall x | x in c.execs :: x in d.execs && c.execs[x].task == d.execs[x].task
    ensures var e := SetTask(CloseReviews(c, t, uncertain), t, if uncertain then Blocked else Cancelled, false);
      EndsReview(d, e, t) && StopsAlong(d, e, t)
  {
    hide Unresolved, Stopped;
    if uncertain {} else {}
  }

  lemma LiveRows(d: Db, t: TaskId)
    requires Inv(d) && t in d.tasks && !HasEnded(d.tasks[t].status)
    ensures var e := SettleWith(d, t, Unresolved(StopChildren(d, ChildrenOf(d, t)), t, true)); EndsReview(d, e, t) && StopsAlong(d, e, t)
  {
    var cs := ChildrenOf(d, t);
    var c := StopChildren(d, cs);
    ChildrenStop(d, t);
    assert forall x | x in c.execs :: x in d.execs && c.execs[x].task == d.execs[x].task;
    StoppingKeepsEvidence(d, cs);
    SameEvidenceSameEffects(d, c, t);
    hide Inv, Unresolved, SameEvidence, ChildrenStopped, StopChildren, EndsReview, StopsAlong;
    CloseStopped(d, c, t, Unresolved(c, t, true));
  }

  // A revocation closes exactly a plan of the owner under review, and settles its task.
  lemma RevokeExactly(d: Db, p: PlanId, owner: Owner)
    requires Inv(d)
    ensures var e := RevokePlan(d, p, owner);
      if p in d.plans && d.plans[p].owner == owner && (d.plans[p].status.PlanPending? || d.plans[p].status.PlanApproved?) then
        var t, c := d.plans[p].task, d.(plans := d.plans[p := d.plans[p].(status := PlanRevoked)]);
        if ReviewIsOver(c, t) then EndsReview(c, e, t) && StopsAlong(c, e, t) && e == c.(tasks := e.tasks, execs := e.execs) else e == c
      else e == d
  {
    hide Settle;
    if p in d.plans && d.plans[p].owner == owner && OpenPlan(d.plans[p].status) {
      var c := SetPlan(d, p, PlanRevoked);
      SetPlanKeeps(d, p, PlanRevoked);
      SettleExactly(c, d.plans[p].task);
      hide Inv, ReviewIsOver, EndsReview, StopsAlong;
    }
  }
}
