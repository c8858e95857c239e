// What the transactions about attempts do, field by field: who keeps, ends, loses or repeats
// an attempt, and what is recorded of it.
module AttemptLaws {
  import opened Options
  import opened FilePlans
  import opened LedgerTypes
  import opened Transactions
  import opened LedgerInvariants
  import opened LedgerProofs
  import opened Protocol
  import opened Frames
  import opened IntakeLaws

  // ---------- open effects ----------

  // The owner has acknowledged the lost attempt in resolving a plan of task `t` that stays settled.
  ghost predicate AcknowledgedLoss(d: Db, t: TaskId, x: ExecId) {
    exists r | r in d.resolutions && r.task == t && x in r.execs && r.plan in d.plans ::
      d.plans[r.plan].task == t && (d.plans[r.plan].status.PlanApplied? || d.plans[r.plan].status.PlanReconciled?)
  }

  // An attempt of `c` is at work or, if losses count, was lost without the owner of the effects
  // having acknowledged it; or a plan of `c` has begun and is not settled.
  ghost predicate OpenAt(d: Db, answering: TaskId, c: TaskId, losses: bool) {
    || (exists x :: x in d.execs && d.execs[x].task == c
          && (d.execs[x].status.ExecRunning? || d.execs[x].status.ExecCancelling?
              || (losses && d.execs[x].status.ExecLost? && !AcknowledgedLoss(d, answering, x))))
    || (exists p :: p in d.plans && d.plans[p].task == c && (d.plans[p].status.PlanApplying? || d.plans[p].status.PlanUncertain?))
  }

  // Effects of a request are its own and its children's; those of an apply are its own, and the
  // request that proposed the plan answers for them.
  lemma UnresolvedExactly(d: Db, t: TaskId, losses: bool)
    requires Inv(d) && t in d.tasks
    ensures Unresolved(d, t, losses) <==>
      if d.tasks[t].kind.Apply? then d.tasks[t].parent.Some? && OpenAt(d, d.tasks[t].parent.value, t, losses)
      else exists c :: c in d.tasks && (c == t || d.tasks[c].parent == Some(t)) && OpenAt(d, t, c, losses)
  {
    assert TaskRow(d, t);
    var answering := if d.tasks[t].kind.Apply? then d.tasks[t].parent.value else t;
    assert ResolutionOwner(d, t) == answering && (d.tasks[t].kind.Apply? ==> answering != t);
    forall c | c in d.tasks ensures OpenEffect(d, answering, c, losses) <==> OpenAt(d, answering, c, losses) {
      OpenEffectExactly(d, answering, c, losses);
    }
    forall c | c in d.tasks ensures InFamily(d, t, c) <==> c == t || (d.tasks[t].kind.Request? && d.tasks[c].parent == Some(t)) {}
    hide Inv, OpenEffect, OpenAt;
  }

  lemma OpenEffectExactly(d: Db, answering: TaskId, c: TaskId, losses: bool)
    requires Inv(d)
    ensures OpenEffect(d, answering, c, losses) <==> OpenAt(d, answering, c, losses)
  {
    forall x | x in d.execs
      ensures OpenAttempt(d, answering, x, losses) <==>
        d.execs[x].status.ExecRunning? || d.execs[x].status.ExecCancelling?
        || (losses && d.execs[x].status.ExecLost? && !AcknowledgedLoss(d, answering, x))
    {
      assert ExecRow(d, x);
      assert LostResolved(d, answering, x) <==> AcknowledgedLoss(d, answering, x);
    }
    forall p | p in d.plans ensures OpenJournal(d, p) <==> d.plans[p].status.PlanApplying? || d.plans[p].status.PlanUncertain? {
      assert PlanRow(d, p);
    }
    hide Inv, OpenAttempt, OpenJournal, AcknowledgedLoss;
  }

  // ---------- keeping the claim ----------

  // Worker `r.worker` holds the unreleased, unexpired claim of attempt `r.exec`.
  predicate HoldsClaim(d: Db, r: Record) {
    && r.task in d.claims && !d.claims[r.task].released && d.clock < d.claims[r.task].expires
    && d.claims[r.task].worker == r.worker && d.claims[r.task].exec == r.exec
  }

  // A renewal extends exactly the holder's claim, to thirty seconds from now.
  lemma RenewExactly(d: Db, r: Record)
    ensures var e := Renew(d, r);
      if HoldsClaim(d, r) then e == d.(claims := d.claims[r.task := d.claims[r.task].(expires := d.clock + 30)]) else e == d
  {
  }

  // ---------- ending an attempt ----------

  // What a result shows: the status of its task and of its attempt.
  predicate Shows(o: Outcome, t: TaskStatus, x: ExecStatus) {
    match o
    case OutSucceeded => t.Completed? && x.ExecSucceeded?
    case OutFailed => t.Failed? && x.ExecFailed?
    case OutTimedOut => t.Failed? && x.ExecTimedOut?
    case OutCancelled => t.Cancelled? && x.ExecCancelled?
    case OutAwaiting => t.AwaitingApproval? && x.ExecAwaiting?
    case OutBlocked => t.Blocked? && x.ExecLost?
  }

  // The task whose effects a stopped attempt of `t` may have left.
  function AnswersFor(d: Db, t: TaskId): TaskId
    requires t in d.tasks
  {
    match d.tasks[t].kind
    case Request => t
    case Apply(p) => if p in d.plans then d.plans[p].task else t
  }

  // Which outcome is saved for the reported one: a wait without anything to wait for is a stop;
  // a stop is believed only if no effect is open; an attempt that was asked to stop ends only
  // so; anything else is saved as reported.
  ghost predicate SavedAs(d: Db, r: Record, reported: Outcome, draft: bool, o: Outcome)
    requires r.task in d.tasks && r.exec in d.execs
  {
    var waits := draft || exists p :: p in d.plans && d.plans[p].task == r.task && OpenPlan(d.plans[p].status) && d.clock < d.plans[p].expires;
    if reported.OutCancelled? || (reported.OutAwaiting? && !waits) then
      o == if AnswersFor(d, r.task) in d.tasks && Unresolved(SetExec(d, r.exec, ExecCancelled), AnswersFor(d, r.task), true) then OutBlocked else OutCancelled
    else o == if d.execs[r.exec].status.ExecCancelling? then OutBlocked else reported
  }

  // The applied plan is missing that a successful apply must show.
  predicate LacksEvidence(d: Db, t: TaskId, o: Outcome) {
    t in d.tasks && o.OutSucceeded? && d.tasks[t].kind.Apply?
    && !(d.tasks[t].kind.plan in d.plans && d.plans[d.tasks[t].kind.plan].status.PlanApplied?)
  }

  // The rows of a commit with outcome `o`.
  ghost predicate Ends(d: Db, e: Db, r: Record, o: Outcome)
    requires r.task in d.tasks && r.exec in d.execs && r.task in d.claims
  {
    && e.results == d.results[r.exec := Saved(r.task, o, Unsent)]
    && e.claims == d.claims[r.task := d.claims[r.task].(released := true)]
    && r.exec in e.execs && e.execs == d.execs[r.exec := d.execs[r.exec].(status := e.execs[r.exec].status,
                                                ended := if o.OutAwaiting? then None else Some(d.clock))]
    && e.tasks.Keys == d.tasks.Keys && e.tasks[r.task] == d.tasks[r.task].(status := e.tasks[r.task].status, eligible := false)
    && Shows(o, e.tasks[r.task].status, e.execs[r.exec].status)
    // The request that waited for the apply is complete, and no other task is touched.
    && (forall u | u in d.tasks && u != r.task ::
          e.tasks[u] == if o.OutSucceeded? && d.tasks[r.task].kind.Apply? && u == AnswersFor(d, r.task) && d.tasks[u].status.AwaitingApproval?
                        then d.tasks[u].(status := Completed) else d.tasks[u])
    && e.plans == d.plans && e.journal == d.journal && e.locks == d.locks && e.resolutions == d.resolutions
  }

  // A commit of the claim's holder ends its attempt as `SavedAs` and `Ends` say, unless an apply
  // lacks its applied plan; a commit of anybody else changes nothing.
  lemma FinishExactly(d: Db, r: Record, reported: Outcome, question: bool, draft: bool)
    requires Inv(d)
    ensures var e := Finish(d, r, reported, question, draft);
      if HoldsClaim(d, r) then
        && r.task in d.tasks && r.exec in d.execs
        && exists o :: SavedAs(d, r, reported, draft, o) && if LacksEvidence(d, r.task, o) then e == d else Ends(d, e, r, o)
      else e == d
  {
    assert ClaimRow(d, r.task) && ResultRow(d, r.exec) && TaskRow(d, r.task);
    if HoldsClaim(d, r) {
      var o := Committed(d, r, reported, draft);
      assert SavedAs(d, r, reported, draft, o);
      if FinishCommits(d, r, reported, draft) { CommitEnds(d, r, o, question); }
    }
  }

  lemma CommitEnds(d: Db, r: Record, o: Outcome, question: bool)
    requires CanFinish(d, r)
    ensures Ends(d, CompleteTurn(Commit(d, r, o), r.task, r.exec, o, question), r, o)
  {
    hide MarkTurn, MarkSession;
  }

  // ---------- losing an attempt ----------

  // The task is at work or waits for a worker that has closed, has been silent for more than
  // thirty seconds, or has let the task's claim run out.
  predicate IsLost(d: Db, t: TaskId) {
    && t in d.tasks && d.tasks[t].eligible
    && (d.tasks[t].status.Queued? || d.tasks[t].status.Running? || d.tasks[t].status.Cancelling?)
    && d.tasks[t].worker in d.workers
    && (|| d.workers[d.tasks[t].worker].closed
        || d.clock - d.workers[d.tasks[t].worker].heartbeat > 30
        || (t in d.claims && !d.claims[t].released && d.claims[t].expires <= d.clock))
  }

  // Recovery holds exactly the lost tasks, releases their claims and marks their current
  // attempts lost now; everything else stays.
  lemma RecoverExactly(d: Db)
    requires Inv(d)
    ensures var e := Recover(d);
      && e == d.(tasks := e.tasks, execs := e.execs, claims := e.claims)
      && e.tasks.Keys == d.tasks.Keys && e.execs.Keys == d.execs.Keys && e.claims.Keys == d.claims.Keys
      && (forall t | t in d.tasks :: e.tasks[t] == if IsLost(d, t) then d.tasks[t].(status := Blocked, eligible := false) else d.tasks[t])
      && (forall t | t in d.claims :: e.claims[t] == if IsLost(d, t) && d.tasks[t].current.Some? then d.claims[t].(released := true) else d.claims[t])
      && (forall x | x in d.execs :: e.execs[x] ==
            if IsLost(d, d.execs[x].task) && d.tasks[d.execs[x].task].current == Some(x) && (ActiveExec(d.execs[x].status) || d.execs[x].status.ExecAwaiting?)
            then d.execs[x].(status := ExecLost, ended := Some(d.clock)) else d.execs[x])
  {
    forall t | t in d.tasks ensures Interrupted(d, t) <==> IsLost(d, t) {}
    forall x | x in d.execs ensures ActiveExec(d.execs[x].status) || d.execs[x].status.ExecAwaiting? <==> !TerminalExec(d.execs[x].status) {
      assert ExecRow(d, x);
    }
    hide Inv, Interrupted, IsLost;
  }

  // ---------- repeating an attempt ----------

  // The last result may or may not have reached its reader.
  predicate AmbiguouslySent(d: Db, t: TaskId) {
    && t in d.tasks && d.tasks[t].current.Some? && d.tasks[t].current.value in d.results
    && (d.results[d.tasks[t].current.value].delivery.Sending? || d.results[d.tasks[t].current.value].delivery.SendUncertain?)
  }

  // The owner's resumption requeues exactly a held or failed request with attempts left, no
  // attempt or plan of its family at work, no plan that ever began and no ambiguous delivery,
  // on a worker that reports.
  lemma ResumeExactly(d: Db, t: TaskId, owner: Owner, w: WorkerId)
    ensures var e := Resume(d, t, owner, w);
      if t in d.tasks && d.tasks[t].owner == owner && d.tasks[t].kind.Request?
         && (d.tasks[t].status.Blocked? || d.tasks[t].status.Failed?) && d.tasks[t].attempts < d.tasks[t].limit
         && !AmbiguouslySent(d, t) && !Unresolved(d, t, false) && Reporting(d, w)
         && (forall p | p in d.plans && d.plans[p].task == t ::
               d.plans[p].status.PlanPending? || d.plans[p].status.PlanApproved? || d.plans[p].status.PlanRevoked? || d.plans[p].status.PlanExpired?)
      then e == d.(tasks := d.tasks[t := d.tasks[t].(status := Queued, eligible := true, worker := w)])
      else e == d
  {
    hide Unresolved;
    if CanResume(d, t, owner, w) {}
  }

  // While a delivery is ambiguous no resumption is accepted, and acknowledging it is enough to
  // lift that refusal.
  lemma AmbiguousIsRefused(d: Db, t: TaskId, owner: Owner, w: WorkerId)
    requires AmbiguouslySent(d, t)
    ensures Resume(d, t, owner, w) == d
    ensures !AmbiguouslySent(Acknowledge(d, t, d.tasks[t].owner), t)
  {
    ResumeExactly(d, t, owner, w);
    hide Resume;
  }

  // ---------- a worker that could not be started ----------

  // A held task that never had an attempt gets one failed record and a held result to deliver.
  lemma StartFailureExactly(d: Db, t: TaskId, owner: Owner, x: ExecId)
    requires x !in d.execs && x !in d.results
    ensures var e := StartFailure(d, t, owner, x);
      if t in d.tasks && d.tasks[t].owner == owner && d.tasks[t].status.Blocked? && d.tasks[t].current.None?
      then e == d.(tasks := d.tasks[t := d.tasks[t].(current := Some(x))],
                   execs := d.execs[x := Exec(t, ExecFailed, d.clock, Some(d.clock), false)],
                   results := d.results[x := Saved(t, OutBlocked, Unsent)])
      else e == d
  {
  }
}
