// Short runs of the ledger protocol that show where a promised property fails. The exact
// conditions are `Leaks.ClosePlanLeaksExactly`, `Leaks.SettleExpiredLeaksExactly`,
// `Effects.ClosePlanWrongExactly`, `Stops.CancelStopsExactly` and `Stops.RecoverStopsExactly`.
module Counterexamples {
  import opened Options
  import opened FilePlans
  import opened LedgerTypes
  import opened Transactions
  import opened LedgerInvariants
  import opened Protocol
  import opened Paths
  import opened Safety
  import opened Effects
  import opened Leaks
  import opened ClosingCauses

  const CHANGES := [Change("a", Modify, Some([]), Some([1]))]

  // ---------- worker 0 runs request 0, which has plan 0 under review ----------

  function Root(status: TaskStatus, current: Option<ExecId>, eligible: bool, attempts: nat): Task {
    Task(0, 0, Request, None, None, 0, 0, 100, status, current, 0, eligible, attempts, MAX_ATTEMPTS)
  }

  function Reviewed(status: PlanStatus): Plan { Plan(0, 0, 0, CHANGES, CHANGES, status, PLAN_SECONDS, 0) }

  function Held(e: ExecId, expires: int, released: bool): Claim { Claim(0, 0, e, expires, released) }

  function Try(t: TaskId, s: ExecStatus): Exec { Exec(t, s, 0, if s.ExecLost? then Some(31) else None, true) }

  // The tables that these runs fill; worker 0 last reported at `beat`.
  function State(clock: int, rows: nat, beat: int, tasks: map<TaskId, Task>, claims: map<TaskId, Claim>,
                 execs: map<ExecId, Exec>, plans: map<PlanId, Plan>, results: map<ExecId, Saved>): Db
  {
    Db(clock, rows, map[0 := Worker(beat, false)], tasks, claims, execs, plans, map[], results, {}, map[], map[], map[])
  }

  const REGISTERED := State(0, 0, 0, map[], map[], map[], map[], map[])
  const QUEUED := State(0, 1, 0, map[0 := Root(Queued, None, true, 0)], map[], map[], map[], map[])
  const RUNNING := State(0, 1, 0, map[0 := Root(Running, Some(0), true, 1)], map[0 := Held(0, 30, false)],
                         map[0 := Try(0, ExecRunning)], map[], map[])
  const PROPOSED := State(0, 1, 0, map[0 := Root(Running, Some(0), true, 1)], map[0 := Held(0, 30, false)],
                          map[0 := Try(0, ExecRunning)], map[0 := Reviewed(PlanPending)], map[])

  const REQUEST := Intake(0, 0, 0, 0, None, None, None)

  lemma Submitted()
    ensures SubmitRequest(REGISTERED, REQUEST) == QUEUED
  {
  }

  lemma Claimed()
    ensures ClaimNext(QUEUED, 0, 1, 0, 0) == RUNNING
  {
    assert OpenClaims(QUEUED) == {};
    assert Claimable(QUEUED, 0, 0);
    assert ClaimAnswers(QUEUED, 0, 1, Some(0));
  }

  lemma Proposed()
    ensures ProposePlan(RUNNING, 0, 0, 0, CHANGES, false, true) == PROPOSED
  {
    assert CHANGES[0].action.Modify?;
  }

  // ---------- a claim that no one can release ----------

  const LATE := State(31, 1, 0, map[0 := Root(Running, Some(0), true, 1)], map[0 := Held(0, 30, false)],
                      map[0 := Try(0, ExecRunning)], map[0 := Reviewed(PlanPending)], map[])
  const LEAKED := State(31, 1, 0, map[0 := Root(Blocked, Some(0), false, 1)], map[0 := Held(0, 30, false)],
                        map[0 := Try(0, ExecRunning)], map[0 := Reviewed(PlanRevoked)], map[])

  // What revoking plan 0 does to a live request 0 whose effects are uncertain.
  lemma RevokeHolds(d: Db, d1: Db, d2: Db)
    requires 0 in d.plans && d.plans[0] == Reviewed(PlanPending) && SetPlan(d, 0, PlanRevoked) == d1
    requires SettleActs(d1, 0) && !TerminalTask(d1.tasks[0].status)
    requires StopChildren(d1, ChildrenOf(d1, 0)) == d2 && 0 in d2.tasks && Unresolved(d2, 0, true)
    ensures RevokePlan(d, 0, 0) == SetTask(CloseReviews(d2, 0, true), 0, Blocked, false)
  {
  }

  lemma RevokedLate()
    ensures RevokePlan(LATE, 0, 0) == LEAKED
  {
    var d := LATE.(plans := map[0 := Reviewed(PlanRevoked)]);
    assert SetPlan(LATE, 0, PlanRevoked) == d;
    assert ChildrenOf(d, 0) == {};
    assert StopChildren(d, {}) == d;
    assert InFamily(d, 0, 0) && OpenAttempt(d, 0, 0, true);
    assert OpenEffect(d, ResolutionOwner(d, 0), 0, true);
    RevokeHolds(LATE, d, d);
    assert CloseReviews(d, 0, true) == d;
  }

  lemma ReachesProposed()
    ensures Leads(EMPTY, PROPOSED)
  {
    LeadsSelf(EMPTY);
    LeadsNext(EMPTY, EMPTY, RegisterStep(0), REGISTERED);
    Submitted();
    LeadsNext(EMPTY, REGISTERED, SubmitStep(REQUEST), QUEUED);
    Claimed();
    LeadsNext(EMPTY, QUEUED, ClaimStep(0, 1, 0, 0), RUNNING);
    Proposed();
    LeadsNext(EMPTY, RUNNING, ProposeStep(0, 0, 0, CHANGES, false, true), PROPOSED);
  }

  // The owner revokes a plan one second after the lease of the running request ran out.
  lemma RevokingLeaks()
    ensures Reached(LATE) && NewLeak(LATE, RevokePlan(LATE, 0, 0), 0)
  {
    ReachesProposed();
    LeadsNext(EMPTY, PROPOSED, TickStep(31), LATE);
    LeadsIsRun(LATE);
    RevokedLate();
  }

  const DUE := LATE.(clock := PLAN_SECONDS)

  lemma ReachesDue()
    ensures Reached(DUE) && Inv(DUE)
  {
    ReachesProposed();
    LeadsNext(EMPTY, PROPOSED, TickStep(31), LATE);
    LeadsNext(EMPTY, LATE, TickStep(PLAN_SECONDS), DUE);
    LeadsIsRun(DUE);
  }

  lemma OnlyDue()
    ensures Enumerates([0], set p | p in DUE.plans && ExpiredPlan(DUE, p))
  {
    assert (set p | p in DUE.plans && ExpiredPlan(DUE, p)) == {0};
    assert (set x | x in [0]) == {0};
  }

  lemma NoneStale(d: Db)
    requires Leaked(d, 0) && forall t | t in d.tasks :: t == 0
    ensures Enumerates([], set t | t in d.tasks && StaleReview(d, t))
  {
    assert (set t | t in d.tasks && StaleReview(d, t)) == {};
    assert (set x: nat | x in []) == {};
  }

  // Nobody recovers the request, and its plan expires: the expiry pass leaks its claim.
  lemma ExpiringLeaks()
    ensures Reached(DUE) && NewLeak(DUE, SettleExpired(DUE, [0], []), 0)
  {
    ReachesDue();
    OnlyDue();
    var d := ExpirePlans(DUE, [0]);
    assert AllOpen(DUE, [0]) && LeakDue(DUE, [0], 0);
    PassLeaks(DUE, [0], 0);
    ExpireSameTasks(DUE, [0]);
    NoneStale(d);
    assert ExpiredPlan(DUE, 0) && ReviewsOver(DUE, 0);
    SettleExpiredLeaksExactly(DUE, [0], [], 0);
  }

  // ---------- a draft declared cancelled although its effects are uncertain ----------

  function Draft(status: TaskStatus, current: Option<ExecId>, eligible: bool, attempts: nat): Task {
    Task(0, 0, Request, Some(0), None, 1, 0, 100, status, current, 0, eligible, attempts, MAX_ATTEMPTS)
  }

  // The ledger while request 0 awaits approval, with draft 1 at various stages.
  function WithDraft(clock: int, beat: int, draft: Task, claims: map<TaskId, Claim>, execs: map<ExecId, Exec>): Db {
    State(clock, 2, beat, map[0 := Root(AwaitingApproval, Some(0), false, 1), 1 := draft], claims, execs,
          map[0 := Reviewed(PlanPending)], map[0 := Saved(0, OutAwaiting, Unsent)])
  }

  const AWAITING := State(0, 1, 0, map[0 := Root(AwaitingApproval, Some(0), false, 1)], map[0 := Held(0, 30, true)],
                          map[0 := Try(0, ExecAwaiting)], map[0 := Reviewed(PlanPending)], map[0 := Saved(0, OutAwaiting, Unsent)])
  const DRAFTED := WithDraft(0, 0, Draft(Queued, None, true, 0), map[0 := Held(0, 30, true)], map[0 := Try(0, ExecAwaiting)])
  const DRAFTING := WithDraft(0, 0, Draft(Running, Some(1), true, 1), map[0 := Held(0, 30, true), 1 := Held(1, 30, false)],
                              map[0 := Try(0, ExecAwaiting), 1 := Try(1, ExecRunning)])
  const STALLED := WithDraft(31, 0, Draft(Running, Some(1), true, 1), map[0 := Held(0, 30, true), 1 := Held(1, 30, false)],
                             map[0 := Try(0, ExecAwaiting), 1 := Try(1, ExecRunning)])
  const BEATING := WithDraft(31, 31, Draft(Running, Some(1), true, 1), map[0 := Held(0, 30, true), 1 := Held(1, 30, false)],
                             map[0 := Try(0, ExecAwaiting), 1 := Try(1, ExecRunning)])
  const LOST := WithDraft(31, 31, Draft(Blocked, Some(1), false, 1), map[0 := Held(0, 30, true), 1 := Held(1, 30, true)],
                          map[0 := Try(0, ExecAwaiting), 1 := Try(1, ExecLost)])
  const REQUEUED := WithDraft(31, 31, Draft(Queued, Some(1), true, 1), map[0 := Held(0, 30, true), 1 := Held(1, 30, true)],
                              map[0 := Try(0, ExecAwaiting), 1 := Try(1, ExecLost)])
  const CLOSING := REQUEUED.(plans := map[0 := Reviewed(PlanRevoked)])
  const STOPPED := CLOSING.(tasks := map[0 := Root(AwaitingApproval, Some(0), false, 1), 1 := Draft(Cancelled, Some(1), false, 1)])
  const DROPPED := State(31, 2, 31, map[0 := Root(Blocked, Some(0), false, 1), 1 := Draft(Cancelled, Some(1), false, 1)],
                         map[0 := Held(0, 30, true), 1 := Held(1, 30, true)],
                         map[0 := Try(0, ExecLost), 1 := Try(1, ExecLost)],
                         map[0 := Reviewed(PlanRevoked)], map[0 := Saved(0, OutAwaiting, Unsent)])

  const DRAFT := Intake(1, 0, 0, 0, None, Some(0), None)

  lemma Awaited()
    ensures Finish(PROPOSED, Record(0, 0, 0), OutAwaiting, false, false) == AWAITING
  {
    assert 0 in PROPOSED.plans;
    assert LivePlan(PROPOSED, 0);
  }

  lemma Drafted()
    ensures SubmitRequest(AWAITING, DRAFT) == DRAFTED
  {
  }

  lemma DraftClaimed()
    ensures ClaimNext(DRAFTED, 0, 1, 1, 1) == DRAFTING
  {
    assert OpenClaims(DRAFTED) == {};
    assert Claimable(DRAFTED, 1, 0);
    assert ClaimAnswers(DRAFTED, 0, 1, Some(1));
  }

  lemma DraftLost()
    ensures Recover(BEATING) == LOST
  {
    assert Interrupted(BEATING, 1) && !Interrupted(BEATING, 0);
    assert LosesExec(BEATING, 1) && !LosesExec(BEATING, 0);
    assert Recover(BEATING).tasks == LOST.tasks;
    assert Recover(BEATING).execs == LOST.execs;
    assert Recover(BEATING).claims == LOST.claims;
  }

  lemma DraftResumed()
    ensures Resume(LOST, 1, 0, 0) == REQUEUED
  {
    assert !OpenEffect(LOST, 1, 1, false) by {
      forall e | e in LOST.execs && LOST.execs[e].task == 1 ensures !OpenAttempt(LOST, 1, e, false) { assert e == 1; }
    }
    forall c | c in LOST.tasks && InFamily(LOST, 1, c) ensures c == 1 {}
    assert !Unresolved(LOST, 1, false);
  }

  lemma LostIsOpen(d: Db, t: TaskId)
    requires t in d.tasks && 1 in d.execs && d.execs[1] == Exec(1, ExecLost, 0, Some(31), true)
    requires 1 in d.tasks && InFamily(d, t, 1) && d.resolutions == {}
    ensures Unresolved(d, t, true)
  {
    assert OpenAttempt(d, ResolutionOwner(d, t), 1, true);
    assert OpenEffect(d, ResolutionOwner(d, t), 1, true);
  }

  lemma DraftStopped()
    ensures SetPlan(REQUEUED, 0, PlanRevoked) == CLOSING && StopChildren(CLOSING, ChildrenOf(CLOSING, 0)) == STOPPED
  {
    assert ChildrenOf(CLOSING, 0) == {1};
    assert StopTasks(CLOSING.tasks, {1}) == STOPPED.tasks;
    assert StopExecs(CLOSING, {1}) == CLOSING.execs;
  }

  lemma ReviewClosed()
    ensures SetTask(CloseReviews(STOPPED, 0, true), 0, Blocked, false) == DROPPED
  {
    assert CloseReviews(STOPPED, 0, true).execs == DROPPED.execs;
  }

  lemma DraftDropped()
    ensures RevokePlan(REQUEUED, 0, 0) == DROPPED
  {
    DraftStopped();
    LostIsOpen(STOPPED, 0);
    RevokeHolds(REQUEUED, CLOSING, STOPPED);
    ReviewClosed();
  }

  lemma ReachesAwaiting()
    ensures Leads(EMPTY, AWAITING)
  {
    hide Tick, RegisterWorker, Heartbeat, SubmitRequest, SubmitApply, ApproveAndSubmit, ApprovePlan, RevokePlan, ProposePlan;
    hide StartFailure, Recover, ClaimNext, Renew, Finish, Resume, CancelTask, SettleExpired, BeginApply, MarkJournal, CommitApply;
    hide FailApply, CrashApply, ResolvePlan, ClaimDelivery, SettleDelivery, Acknowledge, ResetSession, Assess;
    ReachesProposed();
    Awaited();
    LeadsNext(EMPTY, PROPOSED, FinishStep(Record(0, 0, 0), OutAwaiting, false, false), AWAITING);
  }

  lemma ReachesDrafting()
    ensures Leads(EMPTY, DRAFTING)
  {
    hide Tick, RegisterWorker, Heartbeat, SubmitRequest, SubmitApply, ApproveAndSubmit, ApprovePlan, RevokePlan, ProposePlan;
    hide StartFailure, Recover, ClaimNext, Renew, Finish, Resume, CancelTask, SettleExpired, BeginApply, MarkJournal, CommitApply;
    hide FailApply, CrashApply, ResolvePlan, ClaimDelivery, SettleDelivery, Acknowledge, ResetSession, Assess;
    ReachesAwaiting();
    Drafted();
    LeadsNext(EMPTY, AWAITING, SubmitStep(DRAFT), DRAFTED);
    DraftClaimed();
    LeadsNext(EMPTY, DRAFTED, ClaimStep(0, 1, 1, 1), DRAFTING);
  }

  lemma DraftStalled()
    ensures Tick(DRAFTING, 31) == STALLED && Heartbeat(STALLED, 0, false) == BEATING
  {
  }

  lemma ReachesLost()
    ensures Leads(EMPTY, LOST)
  {
    hide Tick, RegisterWorker, Heartbeat, SubmitRequest, SubmitApply, ApproveAndSubmit, ApprovePlan, RevokePlan, ProposePlan;
    hide StartFailure, Recover, ClaimNext, Renew, Finish, Resume, CancelTask, SettleExpired, BeginApply, MarkJournal, CommitApply;
    hide FailApply, CrashApply, ResolvePlan, ClaimDelivery, SettleDelivery, Acknowledge, ResetSession, Assess;
    ReachesDrafting();
    DraftStalled();
    LeadsNext(EMPTY, DRAFTING, TickStep(31), STALLED);
    LeadsNext(EMPTY, STALLED, HeartbeatStep(0, false), BEATING);
    DraftLost();
    LeadsNext(EMPTY, BEATING, RecoverStep, LOST);
  }

  lemma ReachesRequeued()
    ensures Leads(EMPTY, REQUEUED)
  {
    hide Tick, RegisterWorker, Heartbeat, SubmitRequest, SubmitApply, ApproveAndSubmit, ApprovePlan, RevokePlan, ProposePlan;
    hide StartFailure, Recover, ClaimNext, Renew, Finish, Resume, CancelTask, SettleExpired, BeginApply, MarkJournal, CommitApply;
    hide FailApply, CrashApply, ResolvePlan, ClaimDelivery, SettleDelivery, Acknowledge, ResetSession, Assess;
    ReachesLost();
    DraftResumed();
    LeadsNext(EMPTY, LOST, ResumeStep(1, 0, 0), REQUEUED);
  }

  // A draft is claimed, its worker stalls, the draft is resumed, and then the plan of the
  // request it came from is revoked.
  lemma RevokingCancelsUncertainDraft()
    ensures Reached(REQUEUED) && WronglyCancels(REQUEUED, RevokePlan(REQUEUED, 0, 0), 1)
  {
    ReachesRequeued();
    LeadsIsRun(REQUEUED);
    DraftDropped();
    LostIsOpen(DROPPED, 1);
  }

  // ---------- a cancelled request whose apply still changes files ----------

  function ApplyTask(status: TaskStatus, current: Option<ExecId>, attempts: nat): Task {
    Task(0, 0, Apply(0), Some(0), None, 1, 0, 100, status, current, 0, true, attempts, MAX_ATTEMPTS)
  }

  // Request 0 and the queued apply 1 of its approved plan.
  function WithApply(clock: int, beat: int, root: Task, claim: Claim, execs: map<ExecId, Exec>): Db {
    State(clock, 2, beat, map[0 := root, 1 := ApplyTask(Queued, None, 0)], map[0 := claim], execs, map[0 := Reviewed(PlanApproved)], map[])
  }

  const ADMITTED := WithApply(0, 0, Root(Running, Some(0), true, 1), Held(0, 30, false), map[0 := Try(0, ExecRunning)])
  const EXPIRED := WithApply(31, 0, Root(Running, Some(0), true, 1), Held(0, 30, false), map[0 := Try(0, ExecRunning)])
  const ALIVE := WithApply(31, 31, Root(Running, Some(0), true, 1), Held(0, 30, false), map[0 := Try(0, ExecRunning)])
  const HELD := WithApply(31, 31, Root(Blocked, Some(0), false, 1), Held(0, 30, true), map[0 := Try(0, ExecLost)])
  const RESUMED := WithApply(31, 31, Root(Queued, Some(0), true, 1), Held(0, 30, true), map[0 := Try(0, ExecLost)])
  const RERUN := WithApply(31, 31, Root(Running, Some(1), true, 2), Held(1, 61, false),
                           map[0 := Try(0, ExecLost), 1 := Exec(0, ExecRunning, 31, None, true)])
  const WAITING := State(31, 2, 31, map[0 := Root(AwaitingApproval, Some(1), false, 2), 1 := ApplyTask(Queued, None, 0)],
                         map[0 := Held(1, 61, true)],
                         map[0 := Try(0, ExecLost), 1 := Exec(0, ExecAwaiting, 31, None, true)],
                         map[0 := Reviewed(PlanApproved)], map[1 := Saved(0, OutAwaiting, Unsent)])
  const APPLYING := State(31, 2, 31, map[0 := Root(AwaitingApproval, Some(1), false, 2), 1 := ApplyTask(Running, Some(2), 1)],
                          map[0 := Held(1, 61, true), 1 := Held(2, 61, false)],
                          map[0 := Try(0, ExecLost), 1 := Exec(0, ExecAwaiting, 31, None, true), 2 := Exec(1, ExecRunning, 31, None, true)],
                          map[0 := Reviewed(PlanApproved)], map[1 := Saved(0, OutAwaiting, Unsent)])
  const BEGUN := APPLYING.(plans := map[0 := Reviewed(PlanApplying)], journal := map[0 := JournalOf(CHANGES)],
                           locks := map[0 := Holder(Record(1, 2, 0), 0, 0)])

  const ADMISSION := Intake(1, 0, 0, 0, None, None, None)

  lemma Admitted()
    ensures ApproveAndSubmit(PROPOSED, ADMISSION, 0, CHANGES, true) == ADMITTED
  {
    var d := PROPOSED.(plans := map[0 := Reviewed(PlanApproved)]);
    assert ApprovePlan(PROPOSED, 0, 0, CHANGES, true) == d;
    assert SubmitApply(d, ADMISSION, 0) == ADMITTED;
  }

  lemma RootLost()
    ensures Recover(ALIVE) == HELD
  {
    assert Interrupted(ALIVE, 0) && !Interrupted(ALIVE, 1);
    assert LosesExec(ALIVE, 0);
    assert Recover(ALIVE).tasks == HELD.tasks;
    assert Recover(ALIVE).execs == HELD.execs;
    assert Recover(ALIVE).claims == HELD.claims;
  }

  lemma CancelReturnsEarly()
    ensures CancelTask(HELD, 0, 0, true) == HELD
  {
    assert InFamily(HELD, 0, 0) && OpenAttempt(HELD, 0, 0, true);
    assert OpenEffect(HELD, ResolutionOwner(HELD, 0), 0, true);
  }

  lemma RootResumed()
    ensures Resume(HELD, 0, 0, 0) == RESUMED
  {
    forall c ensures !OpenEffect(HELD, 0, c, false) {
      forall e | e in HELD.execs ensures !OpenAttempt(HELD, 0, e, false) { assert e == 0; }
      forall p | p in HELD.plans ensures !OpenJournal(HELD, p) { assert p == 0; }
    }
    assert !Unresolved(HELD, 0, false);
    assert !AmbiguousDelivery(HELD, 0);
  }

  lemma RootClaimed()
    ensures ClaimNext(RESUMED, 0, 1, 0, 1) == RERUN
  {
    assert OpenClaims(RESUMED) == {};
    assert Claimable(RESUMED, 0, 0);
    assert ClaimAnswers(RESUMED, 0, 1, Some(0));
    assert StartAttempt(RESUMED, 0, 1, 0) == RERUN;
  }

  lemma RootWaits()
    ensures Finish(RERUN, Record(0, 1, 0), OutAwaiting, false, false) == WAITING
  {
    assert 0 in RERUN.plans;
    assert LivePlan(RERUN, 0);
  }

  lemma ApplyClaimed()
    ensures ClaimNext(WAITING, 0, 1, 1, 2) == APPLYING
  {
    assert OpenClaims(WAITING) == {};
    assert Claimable(WAITING, 1, 0);
    assert ClaimAnswers(WAITING, 0, 1, Some(1));
    assert StartAttempt(WAITING, 1, 2, 0) == APPLYING;
  }

  lemma ApplyBegun()
    ensures BeginApply(APPLYING, Record(1, 2, 0), 0, 0, true, true) == BEGUN
    ensures Touches(BEGUN, TouchStep(0, true), 0)
  {
    assert Owns(APPLYING, Record(1, 2, 0), 0);
  }

  lemma RootStalled()
    ensures Tick(ADMITTED, 31) == EXPIRED && Heartbeat(EXPIRED, 0, false) == ALIVE
  {
  }

  lemma ReachesAlive()
    ensures Leads(EMPTY, ALIVE)
  {
    hide Tick, RegisterWorker, Heartbeat, SubmitRequest, SubmitApply, ApproveAndSubmit, ApprovePlan, RevokePlan, ProposePlan;
    hide StartFailure, Recover, ClaimNext, Renew, Finish, Resume, CancelTask, SettleExpired, BeginApply, MarkJournal, CommitApply;
    hide FailApply, CrashApply, ResolvePlan, ClaimDelivery, SettleDelivery, Acknowledge, ResetSession, Assess;
    ReachesProposed();
    Admitted();
    LeadsNext(EMPTY, PROPOSED, ApproveAndSubmitStep(ADMISSION, 0, CHANGES, true), ADMITTED);
    RootStalled();
    LeadsNext(EMPTY, ADMITTED, TickStep(31), EXPIRED);
    LeadsNext(EMPTY, EXPIRED, HeartbeatStep(0, false), ALIVE);
  }

  lemma ReachesHeld()
    ensures Leads(EMPTY, HELD)
  {
    hide Tick, RegisterWorker, Heartbeat, SubmitRequest, SubmitApply, ApproveAndSubmit, ApprovePlan, RevokePlan, ProposePlan;
    hide StartFailure, Recover, ClaimNext, Renew, Finish, Resume, CancelTask, SettleExpired, BeginApply, MarkJournal, CommitApply;
    hide FailApply, CrashApply, ResolvePlan, ClaimDelivery, SettleDelivery, Acknowledge, ResetSession, Assess;
    ReachesAlive();
    RootLost();
    LeadsNext(EMPTY, ALIVE, RecoverStep, HELD);
  }

  lemma HeldLeadsToRerun()
    ensures Leads(HELD, RERUN)
  {
    hide Tick, RegisterWorker, Heartbeat, SubmitRequest, SubmitApply, ApproveAndSubmit, ApprovePlan, RevokePlan, ProposePlan;
    hide StartFailure, Recover, ClaimNext, Renew, Finish, Resume, CancelTask, SettleExpired, BeginApply, MarkJournal, CommitApply;
    hide FailApply, CrashApply, ResolvePlan, ClaimDelivery, SettleDelivery, Acknowledge, ResetSession, Assess;
    LeadsSelf(HELD);
    RootResumed();
    LeadsNext(HELD, HELD, ResumeStep(0, 0, 0), RESUMED);
    RootClaimed();
    LeadsNext(HELD, RESUMED, ClaimStep(0, 1, 0, 1), RERUN);
  }

  lemma HeldLeadsToWaiting()
    ensures Leads(HELD, WAITING)
  {
    hide Tick, RegisterWorker, Heartbeat, SubmitRequest, SubmitApply, ApproveAndSubmit, ApprovePlan, RevokePlan, ProposePlan;
    hide StartFailure, Recover, ClaimNext, Renew, Finish, Resume, CancelTask, SettleExpired, BeginApply, MarkJournal, CommitApply;
    hide FailApply, CrashApply, ResolvePlan, ClaimDelivery, SettleDelivery, Acknowledge, ResetSession, Assess;
    HeldLeadsToRerun();
    RootWaits();
    LeadsNext(HELD, RERUN, FinishStep(Record(0, 1, 0), OutAwaiting, false, false), WAITING);
  }

  lemma HeldLeadsToApplying()
    ensures Leads(HELD, APPLYING)
  {
    hide Tick, RegisterWorker, Heartbeat, SubmitRequest, SubmitApply, ApproveAndSubmit, ApprovePlan, RevokePlan, ProposePlan;
    hide StartFailure, Recover, ClaimNext, Renew, Finish, Resume, CancelTask, SettleExpired, BeginApply, MarkJournal, CommitApply;
    hide FailApply, CrashApply, ResolvePlan, ClaimDelivery, SettleDelivery, Acknowledge, ResetSession, Assess;
    HeldLeadsToWaiting();
    ApplyClaimed();
    LeadsNext(HELD, WAITING, ClaimStep(0, 1, 1, 2), APPLYING);
  }

  lemma HeldLeadsToBegun()
    ensures Leads(HELD, BEGUN) && Touches(BEGUN, TouchStep(0, true), 0)
  {
    HeldLeadsToApplying();
    ApplyBegun();
    LeadsNext(HELD, APPLYING, BeginStep(Record(1, 2, 0), 0, 0, true, true), BEGUN);
  }

  // The owner cancels request 0 in a reachable state; the cancellation reports the task held
  // and changes nothing, and a later state of the same run has the apply of its plan changing files.
  lemma CancelledRequestStillApplies()
    ensures Reached(HELD) && CancelTask(HELD, 0, 0, true) == HELD && HELD.plans[0].task == 0
    ensures Leads(HELD, BEGUN) && Touches(BEGUN, TouchStep(0, true), 0)
  {
    ReachesHeld();
    LeadsIsRun(HELD);
    CancelReturnsEarly();
    HeldLeadsToBegun();
  }

  // The same run after the recovery that interrupted the request.
  lemma RecoveredRequestStillApplies()
    ensures Reached(ALIVE) && Interrupted(ALIVE, 0) && ALIVE.plans[0].task == 0 && Recover(ALIVE) == HELD
    ensures Leads(HELD, BEGUN) && Touches(BEGUN, TouchStep(0, true), 0)
  {
    ReachesAlive();
    LeadsIsRun(ALIVE);
    RootLost();
    HeldLeadsToBegun();
  }
}
