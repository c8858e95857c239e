// When an apply may touch files, what its transactions record, and, over all transactions, which
// one moves a plan where.
module ApplyLaws {
  import opened Options
  import opened FilePlans
  import opened LedgerTypes
  import opened Transactions
  import opened LedgerInvariants
  import opened LedgerProofs
  import opened Protocol
  import opened Frames
  import opened Causes
  import opened IntakeLaws
  import opened ControlLaws
  import opened ReviewLaws

  // ---------- the guard ----------

  // The worker was heard of less than thirty seconds ago and has not closed.
  predicate AtWork(d: Db, w: WorkerId) {
    w in d.workers && !d.workers[w].closed && d.clock - d.workers[w].heartbeat < 30
  }

  // The running task's current attempt, with its live claim, is this worker's.
  predicate RunsUnder(d: Db, r: Record, owner: Owner) {
    && r.task in d.tasks && d.tasks[r.task].status.Running? && d.tasks[r.task].eligible
    && d.tasks[r.task].owner == owner && d.tasks[r.task].worker == r.worker && d.tasks[r.task].current == Some(r.exec)
    && r.exec in d.execs && d.execs[r.exec].task == r.task && d.execs[r.exec].status.ExecRunning?
    && r.task in d.claims && !d.claims[r.task].released && d.clock < d.claims[r.task].expires
    && d.claims[r.task].exec == r.exec && d.claims[r.task].worker == r.worker && d.claims[r.task].owner == owner
  }

  // The task is the apply of plan `p` in the plan's workspace, for the request that still wants it.
  predicate ServesPlan(d: Db, t: TaskId, p: PlanId, owner: Owner) {
    && p in d.plans && d.plans[p].owner == owner && d.clock < d.plans[p].expires
    && Wanted(d, d.plans[p].task) && d.tasks[d.plans[p].task].owner == owner
    && t in d.tasks && d.tasks[t].kind == Apply(p) && d.tasks[t].parent == Some(d.plans[p].task) && d.tasks[t].workspace == d.plans[p].workspace
  }

  predicate MayWork(d: Db, h: Holder) {
    AtWork(d, h.record.worker) && RunsUnder(d, h.record, h.owner) && ServesPlan(d, h.record.task, h.plan, h.owner)
  }

  lemma GuardExactly(d: Db, h: Holder, expected: PlanStatus, draft: bool)
    ensures MayTouch(d, h, expected, draft) <==> draft && MayWork(d, h) && d.plans[h.plan].status == expected
  {
  }

  // ---------- the transactions of an apply ----------

  // A journal row for every change, with its preimage, none of them marked.
  predicate FreshJournal(changes: seq<Change>, rows: seq<JournalRow>) {
    && |rows| == |changes|
    && forall i :: 0 <= i < |rows| ==> rows[i] == JournalRow(changes[i].path, changes[i].before, changes[i].after, false)
  }

  predicate MayBegin(d: Db, r: Record, p: PlanId, owner: Owner) {
    && MayWork(d, Holder(r, p, owner)) && d.plans[p].status.PlanApproved? && d.plans[p].workspace !in d.locks
    && forall q | q in d.plans && d.plans[q].workspace == d.plans[p].workspace :: !d.plans[q].status.PlanApplying? && !d.plans[q].status.PlanUncertain?
  }

  // An apply begins exactly with every preimage intact, the workspace free and the guard open: it
  // journals the plan, marks it applying and takes the lock.
  lemma BeginExactly(d: Db, r: Record, p: PlanId, owner: Owner, draft: bool, intact: bool)
    requires Inv(d)
    ensures var e := BeginApply(d, r, p, owner, draft, intact);
      if draft && intact && MayBegin(d, r, p, owner) then
        && e == d.(plans := e.plans, journal := e.journal, locks := e.locks)
        && e.plans == d.plans[p := d.plans[p].(status := PlanApplying)]
        && e.locks == d.locks[d.plans[p].workspace := Holder(r, p, owner)]
        && p in e.journal && e.journal == d.journal[p := e.journal[p]] && FreshJournal(d.plans[p].changes, e.journal[p])
      else e == d
  {
    GuardExactly(d, Holder(r, p, owner), PlanApproved, draft);
    assert PlanRow(d, p);
    hide Inv, MayTouch, MayWork;
    if CanBegin(d, r, p, owner, draft, intact) {}
  }

  // The commit of an apply whose guard is open marks its plan applied and drops the lock.
  lemma CommitExactly(d: Db, ws: Workspace, draft: bool)
    ensures var e := CommitApply(d, ws, draft);
      if draft && ws in d.locks && MayWork(d, d.locks[ws]) && d.plans[d.locks[ws].plan].status.PlanApplying?
      then e == d.(plans := d.plans[d.locks[ws].plan := d.plans[d.locks[ws].plan].(status := PlanApplied)], locks := d.locks - {ws})
      else e == d
  {
    if ws in d.locks { GuardExactly(d, d.locks[ws], PlanApplying, draft); }
    hide MayTouch, MayWork;
  }

  // A failed apply leaves its plan uncertain; a killed one leaves it applying. Both drop the lock.
  lemma FailExactly(d: Db, ws: Workspace)
    requires Inv(d)
    ensures ws in d.locks ==> d.locks[ws].plan in d.plans
    ensures FailApply(d, ws) ==
      if ws in d.locks then d.(plans := d.plans[d.locks[ws].plan := d.plans[d.locks[ws].plan].(status := PlanUncertain)], locks := d.locks - {ws}) else d
    ensures CrashApply(d, ws) == d.(locks := d.locks - {ws})
  {
    assert LockRow(d, ws);
  }

  // The journal row of one finished change is marked, and nothing else.
  lemma MarkExactly(d: Db, ws: Workspace, i: nat)
    requires Inv(d) && ws in d.locks && d.locks[ws].plan in d.plans && i < |d.plans[d.locks[ws].plan].changes|
    ensures var p, e := d.locks[ws].plan, MarkJournal(d, ws, i);
      && p in d.journal && p in e.journal && |e.journal[p]| == |d.journal[p]| && e == d.(journal := d.journal[p := e.journal[p]])
      && forall j :: 0 <= j < |d.journal[p]| ==> e.journal[p][j] == if j == i then d.journal[p][j].(applied := true) else d.journal[p][j]
  {
    assert LockRow(d, ws) && PlanRow(d, d.locks[ws].plan);
  }

  // ---------- which step moves a plan where ----------

  // The step moves plan `p` into status `b`.
  ghost predicate Decides(d: Db, s: Step, p: PlanId, b: PlanStatus)
    requires p in d.plans
  {
    var q := d.plans[p];
    match b
    case PlanPending => false
    case PlanApproved => q.status.PlanPending? && ApprovesBy(d, s, p)
    case PlanApplying => s.BeginStep? && s.p == p && s.draft && s.intact && MayBegin(d, s.r, p, s.owner)
    case PlanUncertain => s.FailStep? && s.ws in d.locks && d.locks[s.ws].plan == p
    case PlanApplied =>
      || (s.CommitStep? && s.draft && s.ws in d.locks && d.locks[s.ws].plan == p && MayWork(d, d.locks[s.ws]))
      || (s.ResolveStep? && s.p == p && s.complete && MayResolve(d, p, s.owner) && !q.status.PlanApplied?)
    case PlanReconciled => s.ResolveStep? && s.p == p && !s.complete && MayResolve(d, p, s.owner)
    case PlanRevoked => (q.status.PlanPending? || q.status.PlanApproved?) && RevokesBy(d, s, p)
    case PlanExpired => s.SettleExpiredStep? && FullPass(d, s.ps, s.ts) && IsDue(d, p)
  }

  ghost predicate ApprovesBy(d: Db, s: Step, p: PlanId) {
    || (s.ApproveStep? && s.p == p && s.draft && MayApprove(d, p, s.owner, s.reviewed))
    || (s.ApproveAndSubmitStep? && s.p == p && s.draft && MayApprove(d, p, s.intake.owner, s.reviewed)
        && s.intake.task !in d.tasks && Reporting(d, s.intake.worker) && NoApplyYet(d, p))
  }

  ghost predicate RevokesBy(d: Db, s: Step, p: PlanId)
    requires p in d.plans
  {
    || (s.RevokeStep? && s.p == p && s.owner == d.plans[p].owner)
    || (s.CancelStep? && s.t == d.plans[p].task && !CancelEndsEarly(d, s.t, s.owner, s.selected))
    || (s.ProposeStep? && s.t == d.plans[p].task && s.draft && s.p !in d.plans && s.t in d.tasks
        && d.tasks[s.t].owner == s.owner && d.tasks[s.t].kind.Request? && Acceptable(s.changes))
  }

  ghost predicate StatusIs(e: Db, p: PlanId, b: PlanStatus) { p in e.plans && e.plans[p].status == b }

  ghost predicate MovesExactly(d: Db, s: Step, p: PlanId, b: PlanStatus)
    requires p in d.plans
  {
    b != d.plans[p].status ==> (StatusIs(Next(d, s), p, b) <==> Decides(d, s, p, b))
  }

  lemma ApproveMoves(d: Db, s: Step, p: PlanId, b: PlanStatus)
    requires s.ApproveStep? && p in d.plans
    ensures MovesExactly(d, s, p, b)
  {
    hide Tick, RegisterWorker, Heartbeat, SubmitRequest, SubmitApply, ApproveAndSubmit, ApprovePlan, RevokePlan, ProposePlan;
    hide StartFailure, Recover, ClaimNext, Renew, Finish, Resume, CancelTask, SettleExpired, BeginApply, MarkJournal, CommitApply;
    hide FailApply, CrashApply, ResolvePlan, ClaimDelivery, SettleDelivery, Acknowledge, ResetSession, Assess;
    ApproveExactly(d, s.p, s.owner, s.reviewed, s.draft);
    ApprovableIsOpen(d, s.p, s.owner, s.reviewed);
    hide MayApprove;
  }

  lemma ApprovableIsOpen(d: Db, p: PlanId, owner: Owner, reviewed: seq<Change>)
    ensures MayApprove(d, p, owner, reviewed) ==> p in d.plans && OpenPlan(d.plans[p].status)
  {
  }

  lemma AdmitMoves(d: Db, s: Step, p: PlanId, b: PlanStatus)
    requires s.ApproveAndSubmitStep? && p in d.plans
    ensures MovesExactly(d, s, p, b)
  {
    hide Tick, RegisterWorker, Heartbeat, SubmitRequest, SubmitApply, ApproveAndSubmit, ApprovePlan, RevokePlan, ProposePlan;
    hide StartFailure, Recover, ClaimNext, Renew, Finish, Resume, CancelTask, SettleExpired, BeginApply, MarkJournal, CommitApply;
    hide FailApply, CrashApply, ResolvePlan, ClaimDelivery, SettleDelivery, Acknowledge, ResetSession, Assess;
    hide FreshRow, NoApplyYet, Reporting;
    if s.intake.task !in d.tasks { ApproveAndSubmitExactly(d, s.intake, s.p, s.reviewed, s.draft); }
    else { KnownTaskIsRefused(d, s.intake, s.p, s.reviewed, s.draft); }
  }

  lemma KnownTaskIsRefused(d: Db, i: Intake, p: PlanId, reviewed: seq<Change>, draft: bool)
    requires i.task in d.tasks
    ensures ApproveAndSubmit(d, i, p, reviewed, draft) == d
  {
  }

  lemma BeginMoves(d: Db, s: Step, p: PlanId, b: PlanStatus)
    requires Inv(d) && s.BeginStep? && p in d.plans
    ensures MovesExactly(d, s, p, b)
  {
    hide Tick, RegisterWorker, Heartbeat, SubmitRequest, SubmitApply, ApproveAndSubmit, ApprovePlan, RevokePlan, ProposePlan;
    hide StartFailure, Recover, ClaimNext, Renew, Finish, Resume, CancelTask, SettleExpired, BeginApply, MarkJournal, CommitApply;
    hide FailApply, CrashApply, ResolvePlan, ClaimDelivery, SettleDelivery, Acknowledge, ResetSession, Assess;
    BeginExactly(d, s.r, s.p, s.owner, s.draft, s.intact);
    BeginnableIsApproved(d, s.r, s.p, s.owner);
    hide Inv, MayBegin, FreshJournal, MayWork;
  }

  lemma BeginnableIsApproved(d: Db, r: Record, p: PlanId, owner: Owner)
    ensures MayBegin(d, r, p, owner) ==> p in d.plans && d.plans[p].status.PlanApproved?
  {
  }

  lemma CommitMoves(d: Db, s: Step, p: PlanId, b: PlanStatus)
    requires Inv(d) && s.CommitStep? && p in d.plans
    ensures MovesExactly(d, s, p, b)
  {
    hide Tick, RegisterWorker, Heartbeat, SubmitRequest, SubmitApply, ApproveAndSubmit, ApprovePlan, RevokePlan, ProposePlan;
    hide StartFailure, Recover, ClaimNext, Renew, Finish, Resume, CancelTask, SettleExpired, BeginApply, MarkJournal, CommitApply;
    hide FailApply, CrashApply, ResolvePlan, ClaimDelivery, SettleDelivery, Acknowledge, ResetSession, Assess;
    hide MayTouch, MayWork;
    CommitPlans(d, s.ws, s.draft);
    if s.ws in d.locks {
      LockedIsApplying(d, s.ws);
      GuardExactly(d, d.locks[s.ws], PlanApplying, s.draft);
    }
    hide Inv;
  }

  lemma FailMoves(d: Db, s: Step, p: PlanId, b: PlanStatus)
    requires Inv(d) && s.FailStep? && p in d.plans
    ensures MovesExactly(d, s, p, b)
  {
    hide Tick, RegisterWorker, Heartbeat, SubmitRequest, SubmitApply, ApproveAndSubmit, ApprovePlan, RevokePlan, ProposePlan;
    hide StartFailure, Recover, ClaimNext, Renew, Finish, Resume, CancelTask, SettleExpired, BeginApply, MarkJournal, CommitApply;
    hide FailApply, CrashApply, ResolvePlan, ClaimDelivery, SettleDelivery, Acknowledge, ResetSession, Assess;
    hide Inv, MayWork;
    FailPlans(d, s.ws);
    if s.ws in d.locks { LockedIsApplying(d, s.ws); }
  }

  lemma ApplyMoves(d: Db, s: Step, p: PlanId, b: PlanStatus)
    requires Inv(d) && ApplyStep(s) && p in d.plans
    ensures MovesExactly(d, s, p, b)
  {
    hide Tick, RegisterWorker, Heartbeat, SubmitRequest, SubmitApply, ApproveAndSubmit, ApprovePlan, RevokePlan, ProposePlan;
    hide StartFailure, Recover, ClaimNext, Renew, Finish, Resume, CancelTask, SettleExpired, BeginApply, MarkJournal, CommitApply;
    hide FailApply, CrashApply, ResolvePlan, ClaimDelivery, SettleDelivery, Acknowledge, ResetSession, Assess;
    if s.BeginStep? { BeginMoves(d, s, p, b); }
    else if s.CommitStep? { CommitMoves(d, s, p, b); }
    else if s.FailStep? { FailMoves(d, s, p, b); }
    else if s.CrashStep? { CrashFrame(d, s.ws); }
    else if s.MarkStep? { MarkFrame(d, s.ws, s.i); }
    hide Inv, MovesExactly;
    if s.CrashStep? || s.MarkStep? || s.TouchStep? { NothingDecided(d, s, p, b); }
  }

  // A step that leaves the plans alone and is none of the deciding ones.
  predicate DecidesNothing(s: Step) {
    && !s.ApproveStep? && !s.ApproveAndSubmitStep? && !s.BeginStep? && !s.FailStep? && !s.CommitStep? && !s.ResolveStep?
    && !s.RevokeStep? && !s.CancelStep? && !s.ProposeStep? && !s.SettleExpiredStep?
  }

  lemma NothingDecided(d: Db, s: Step, p: PlanId, b: PlanStatus)
    requires DecidesNothing(s) && p in d.plans && Next(d, s).plans == d.plans
    ensures MovesExactly(d, s, p, b)
  {
    hide Next;
  }

  lemma LockedIsApplying(d: Db, ws: Workspace)
    requires Inv(d) && ws in d.locks
    ensures d.locks[ws].plan in d.plans && d.plans[d.locks[ws].plan].status.PlanApplying?
  {
    assert LockRow(d, ws);
  }

  lemma RevokeMoves(d: Db, s: Step, p: PlanId, b: PlanStatus)
    requires s.RevokeStep? && p in d.plans
    ensures MovesExactly(d, s, p, b)
  {
    hide Tick, RegisterWorker, Heartbeat, SubmitRequest, SubmitApply, ApproveAndSubmit, ApprovePlan, RevokePlan, ProposePlan;
    hide StartFailure, Recover, ClaimNext, Renew, Finish, Resume, CancelTask, SettleExpired, BeginApply, MarkJournal, CommitApply;
    hide FailApply, CrashApply, ResolvePlan, ClaimDelivery, SettleDelivery, Acknowledge, ResetSession, Assess;
    RevokedPlans(d, s.p, s.owner);
  }

  lemma CancelMovesPlan(d: Db, s: Step, p: PlanId, b: PlanStatus)
    requires Inv(d) && s.CancelStep? && p in d.plans
    ensures MovesExactly(d, s, p, b)
  {
    hide Tick, RegisterWorker, Heartbeat, SubmitRequest, SubmitApply, ApproveAndSubmit, ApprovePlan, RevokePlan, ProposePlan;
    hide StartFailure, Recover, ClaimNext, Renew, Finish, Resume, CancelTask, SettleExpired, BeginApply, MarkJournal, CommitApply;
    hide FailApply, CrashApply, ResolvePlan, ClaimDelivery, SettleDelivery, Acknowledge, ResetSession, Assess;
    hide Inv, CancelEndsEarly;
    CancelMoves(d, s.t, s.owner, s.selected, p);
  }

  lemma ProposeMoves(d: Db, s: Step, p: PlanId, b: PlanStatus)
    requires s.ProposeStep? && p in d.plans
    ensures MovesExactly(d, s, p, b)
  {
    hide Tick, RegisterWorker, Heartbeat, SubmitRequest, SubmitApply, ApproveAndSubmit, ApprovePlan, RevokePlan, ProposePlan;
    hide StartFailure, Recover, ClaimNext, Renew, Finish, Resume, CancelTask, SettleExpired, BeginApply, MarkJournal, CommitApply;
    hide FailApply, CrashApply, ResolvePlan, ClaimDelivery, SettleDelivery, Acknowledge, ResetSession, Assess;
    hide Acceptable;
    ProposeExactly(d, s.p, s.t, s.owner, s.changes, s.drafted, s.draft);
  }

  lemma ResolveMoves(d: Db, s: Step, p: PlanId, b: PlanStatus)
    requires s.ResolveStep? && p in d.plans
    ensures MovesExactly(d, s, p, b)
  {
    hide Tick, RegisterWorker, Heartbeat, SubmitRequest, SubmitApply, ApproveAndSubmit, ApprovePlan, RevokePlan, ProposePlan;
    hide StartFailure, Recover, ClaimNext, Renew, Finish, Resume, CancelTask, SettleExpired, BeginApply, MarkJournal, CommitApply;
    hide FailApply, CrashApply, ResolvePlan, ClaimDelivery, SettleDelivery, Acknowledge, ResetSession, Assess;
    ResolveExactly(d, s.p, s.owner, s.complete);
    ResolvableIsHeld(d, s.p, s.owner);
    hide MayResolve, IsAcknowledged, JudgedAs;
  }

  lemma ResolvableIsHeld(d: Db, p: PlanId, owner: Owner)
    ensures MayResolve(d, p, owner) ==> p in d.plans && (HeldPlan(d.plans[p].status) || d.plans[p].status.PlanApplied?)
  {
  }

  lemma PassMoves(d: Db, s: Step, p: PlanId, b: PlanStatus)
    requires s.SettleExpiredStep? && p in d.plans
    ensures MovesExactly(d, s, p, b)
  {
    hide Tick, RegisterWorker, Heartbeat, SubmitRequest, SubmitApply, ApproveAndSubmit, ApprovePlan, RevokePlan, ProposePlan;
    hide StartFailure, Recover, ClaimNext, Renew, Finish, Resume, CancelTask, SettleExpired, BeginApply, MarkJournal, CommitApply;
    hide FailApply, CrashApply, ResolvePlan, ClaimDelivery, SettleDelivery, Acknowledge, ResetSession, Assess;
    hide FullPass;
    PassMovesPlan(d, s.ps, s.ts, p);
  }

  lemma CancelMoves(d: Db, t: TaskId, owner: Owner, selected: bool, p: PlanId)
    requires Inv(d) && p in d.plans
    ensures var e := CancelTask(d, t, owner, selected);
      p in e.plans && if CancelEndsEarly(d, t, owner, selected) then e.plans[p] == d.plans[p] else RevokedIf(t, d.plans[p], e.plans[p])
  {
    CancelExactly(d, t, owner, selected);
    hide Inv, CancelTask, CancelEndsEarly, CancelsOwn;
  }

  lemma PassMovesPlan(d: Db, ps: seq<PlanId>, ts: seq<TaskId>, p: PlanId)
    requires p in d.plans
    ensures var e := SettleExpired(d, ps, ts);
      p in e.plans && e.plans[p] == if FullPass(d, ps, ts) && IsDue(d, p) then d.plans[p].(status := PlanExpired) else d.plans[p]
  {
    FullPassExactly(d, ps, ts);
    if FullPass(d, ps, ts) { PassExpiresExactly(d, ps, ts); }
    hide FullPass, SettleExpired;
  }

  // In any transaction a plan moves into a status exactly when the step decides so.
  lemma PlanMovesExactly(d: Db, s: Step, p: PlanId, b: PlanStatus)
    requires Inv(d) && p in d.plans && b != d.plans[p].status
    ensures StatusIs(Next(d, s), p, b) <==> Decides(d, s, p, b)
  {
    hide Next, Decides, StatusIs, Inv;
    if s.ApproveStep? { ApproveMoves(d, s, p, b); }
    else if s.ApproveAndSubmitStep? { AdmitMoves(d, s, p, b); }
    else if s.RevokeStep? { RevokeMoves(d, s, p, b); }
    else if s.CancelStep? { CancelMovesPlan(d, s, p, b); }
    else if s.ProposeStep? { ProposeMoves(d, s, p, b); }
    else if s.ResolveStep? { ResolveMoves(d, s, p, b); }
    else if s.SettleExpiredStep? { PassMoves(d, s, p, b); }
    else if ApplyStep(s) { ApplyMoves(d, s, p, b); }
    else {
      OthersSparePlans(d, s);
      NothingDecided(d, s, p, b);
    }
  }

  lemma OthersSparePlans(d: Db, s: Step)
    requires !s.ApproveAndSubmitStep? && !PlanReview(s) && !ApplyStep(s)
    ensures Next(d, s).plans == d.plans
  {
    hide Next;
    if IntakeStep(s) { IntakeSparesPlans(d, s); }
    else if AttemptStep(s) { AttemptFrame(d, s); }
    else { OtherFrame(d, s); }
  }

  lemma IntakeSparesPlans(d: Db, s: Step)
    requires IntakeStep(s) && !s.ApproveAndSubmitStep?
    ensures Next(d, s).plans == d.plans
  {
    hide Tick, RegisterWorker, Heartbeat, SubmitRequest, SubmitApply, ApproveAndSubmit, ApprovePlan, RevokePlan, ProposePlan;
    hide StartFailure, Recover, ClaimNext, Renew, Finish, Resume, CancelTask, SettleExpired, BeginApply, MarkJournal, CommitApply;
    hide FailApply, CrashApply, ResolvePlan, ClaimDelivery, SettleDelivery, Acknowledge, ResetSession, Assess;
    match s {
      case SubmitStep(i) => SubmitFrame(d, i);
      case SubmitApplyStep(i, o) => SubmitApplyFrame(d, i, o);
      case ResetStep(k) => ResetFrame(d, k);
      case AssessStep(t, priority) => AssessFrame(d, t, priority);
    }
  }
}
