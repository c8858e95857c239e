// Whether the files of a plan can still be changed: an explicit condition on one ledger
// state, which no transaction makes true again once it is false.
module Survival {
  import opened Options
  import opened FilePlans
  import opened LedgerTypes
  import opened Transactions
  import opened LedgerInvariants
  import opened LedgerProofs
  import opened Protocol
  import opened Frames
  import opened Safety
  import opened ClosingCauses
  import opened WorkCauses
  import opened Causes

  // ---------- the condition ----------

  // The plan is being applied, and its holder would pass the guard as soon as its worker reports.
  ghost predicate Applies(d: Db, p: PlanId) {
    && p in d.plans && d.plans[p].workspace in d.locks
    && var h := d.locks[d.plans[p].workspace];
    && h.plan == p && MayTouch(Heartbeat(d, h.record.worker, false), h, PlanApplying, true)
  }

  // `a` is the claimed apply of the plan, with its claim still running.
  ghost predicate Started(d: Db, p: PlanId, a: TaskId) {
    a in d.tasks && d.tasks[a].kind == Apply(p) && d.tasks[a].status.Running? && LiveClaim(d, a)
  }

  // The owner may requeue the request once its attempts have ended: attempts are left, no plan
  // of it has begun, and neither it nor a child of it holds a claim that is lost for good.
  ghost predicate Requeueable(d: Db, t: TaskId) {
    && t in d.tasks && d.tasks[t].attempts < d.tasks[t].limit
    && (forall q | q in d.plans && d.plans[q].task == t :: !BegunPlan(d.plans[q].status))
    && (forall u | u in d.tasks && Leaked(d, u) :: u != t && d.tasks[u].parent != Some(t))
  }

  // The request accepts file changes without a running attempt, or can be brought to do so.
  ghost predicate ParentReady(d: Db, t: TaskId) {
    && t in d.tasks
    && match d.tasks[t].status
       case Queued | AwaitingApproval => true
       case Running => LiveClaim(d, t) || Requeueable(d, t)
       case Cancelling | Blocked | Failed => Requeueable(d, t)
       case Completed | Cancelled => false
  }

  // The apply is not claimed yet, and its workspace is not blocked by a claim lost for good.
  ghost predicate Startable(d: Db, p: PlanId)
    requires p in d.plans
  {
    && (forall a | a in d.tasks && d.tasks[a].kind == Apply(p) :: d.tasks[a].status.Queued?)
    && (forall u | u in d.tasks && Leaked(d, u) :: d.tasks[u].workspace != d.plans[p].workspace)
    && ParentReady(d, d.plans[p].task)
  }

  // Other plans of the request that have unsettled file effects can still finish by themselves.
  ghost predicate SiblingsFinish(d: Db, p: PlanId)
    requires p in d.plans
  {
    forall q | q in d.plans && d.plans[q].task == d.plans[p].task && HeldPlan(d.plans[q].status) :: Applies(d, q)
  }

  ghost predicate StartedReady(d: Db, p: PlanId, a: TaskId) {
    Started(d, p, a) && p in d.plans && d.plans[p].task in d.tasks && Receptive(d.tasks[d.plans[p].task].status)
  }

  ghost predicate Waits(d: Db, p: PlanId) {
    && p in d.plans && OpenPlan(d.plans[p].status) && d.plans[p].expires > d.clock && SiblingsFinish(d, p)
    && (Startable(d, p)
        || exists a :: StartedReady(d, p, a))
  }

  // The exact condition under which the files of the plan can still be changed.
  ghost predicate Alive(d: Db, p: PlanId) { Applies(d, p) || Waits(d, p) }

  lemma AppliesMeans(d: Db, p: PlanId)
    requires Inv(d) && Applies(d, p)
    ensures var h := d.locks[d.plans[p].workspace];
      && d.plans[p].status.PlanApplying? && d.plans[p].expires > d.clock
      && d.plans[p].task in d.tasks && Receptive(d.tasks[d.plans[p].task].status)
      && Started(d, p, h.record.task) && h.record.worker in d.workers && h.owner == d.plans[p].owner
      && d.tasks[h.record.task].parent == Some(d.plans[p].task)
      && h.record.exec == d.claims[h.record.task].exec && h.record.worker == d.tasks[h.record.task].worker
  {
  }

  lemma AppliesFrom(d: Db, p: PlanId, h: Holder)
    requires Inv(d) && p in d.plans && d.plans[p].workspace in d.locks && h == d.locks[d.plans[p].workspace] && h.plan == p
    requires d.plans[p].status.PlanApplying? && d.plans[p].expires > d.clock
    requires d.plans[p].task in d.tasks && Receptive(d.tasks[d.plans[p].task].status)
    requires Started(d, p, h.record.task) && h.record.exec == d.claims[h.record.task].exec
    requires h.record.worker == d.tasks[h.record.task].worker && h.owner == d.plans[p].owner
    ensures Applies(d, p)
  {
    assert TaskRow(d, h.record.task) && ClaimRow(d, h.record.task) && PlanRow(d, p);
  }

  lemma TouchIsAlive(d: Db, s: Step, p: PlanId)
    requires Inv(d) && Touches(d, s, p)
    ensures Alive(d, p)
  {
    assert LockRow(d, s.ws);
  }

  // ---------- one transaction back ----------

  lemma StepKeeps(d: Db, s: Step)
    requires Inv(d)
    ensures Inv(Next(d, s)) && Evolves(d, Next(d, s))
  {
    hide Next;
    NextKeeps(d, s);
  }

  // A claim that is live afterwards, of a task that was active before, was live before.
  lemma LiveBack(d: Db, s: Step, t: TaskId)
    requires Inv(d) && OpenClaim(d, t) && LiveClaim(Next(d, s), t)
    ensures LiveClaim(d, t) && Next(d, s).claims[t] == d.claims[t].(expires := Next(d, s).claims[t].expires)
  {
    hide Next, Inv;
    StepKeeps(d, s);
    ClaimMovesHaveCauses(d, s, t);
  }

  // Locks are taken only by a begin.
  lemma LockBack(d: Db, s: Step, ws: Workspace)
    requires ws in Next(d, s).locks
    ensures || (ws in d.locks && d.locks[ws] == Next(d, s).locks[ws])
            || (s.BeginStep? && CanBegin(d, s.r, s.p, s.owner, s.draft, s.intact) && Next(d, s).locks[ws].plan == s.p)
  {
    if ApplyStep(s) { ApplyLockBack(d, s, ws); }
    else if PlanReview(s) { hide Next; ReviewFrame(d, s); }
    else if AttemptStep(s) { hide Next; AttemptFrame(d, s); }
    else if IntakeStep(s) { hide Next; IntakeFrame(d, s); }
    else { hide Next; OtherFrame(d, s); }
  }

  lemma ApplyLockBack(d: Db, s: Step, ws: Workspace)
    requires ApplyStep(s) && ws in Next(d, s).locks
    ensures || (ws in d.locks && d.locks[ws] == Next(d, s).locks[ws])
            || (s.BeginStep? && CanBegin(d, s.r, s.p, s.owner, s.draft, s.intact) && Next(d, s).locks[ws].plan == s.p)
  {
    hide Tick, RegisterWorker, Heartbeat, SubmitRequest, SubmitApply, ApproveAndSubmit, ApprovePlan, RevokePlan, ProposePlan;
    hide StartFailure, Recover, ClaimNext, Renew, Finish, Resume, CancelTask, SettleExpired, BeginApply, MarkJournal, CommitApply;
    hide FailApply, CrashApply, ResolvePlan, ClaimDelivery, SettleDelivery, Acknowledge, ResetSession, Assess;
    hide MayTouch, CanBegin;
    match s {
      case BeginStep(r, p, owner, draft, intact) => BeginLocks(d, r, p, owner, draft, intact);
      case CommitStep(w, draft) => CommitLocks(d, w, draft);
      case FailStep(w) => FailLocks(d, w);
      case MarkStep(w, i) => MarkFrame(d, w, i);
      case CrashStep(w) => CrashLocks(d, w);
      case TouchStep(w, draft) =>
    }
  }

  lemma CrashLocks(d: Db, ws: Workspace)
    ensures CrashApply(d, ws).locks == d.locks - {ws}
  {
  }

  lemma BeginLocks(d: Db, r: Record, p: PlanId, owner: Owner, draft: bool, intact: bool)
    ensures var e := BeginApply(d, r, p, owner, draft, intact);
      if CanBegin(d, r, p, owner, draft, intact)
      then p in d.plans && e.locks == d.locks[d.plans[p].workspace := Holder(r, p, owner)] else e.locks == d.locks
  {
    hide Owns, JournalOf;
    if CanBegin(d, r, p, owner, draft, intact) {}
  }

  lemma CommitLocks(d: Db, ws: Workspace, draft: bool)
    ensures var e := CommitApply(d, ws, draft); e.locks == d.locks || e.locks == d.locks - {ws}
  {
    hide Owns;
    if ws in d.locks && MayTouch(d, d.locks[ws], PlanApplying, draft) {}
  }

  lemma FailLocks(d: Db, ws: Workspace)
    ensures var e := FailApply(d, ws); e.locks == d.locks || e.locks == d.locks - {ws}
  {
    if ws in d.locks && d.locks[ws].plan in d.plans {}
  }

  // A started apply was started before, or has just been claimed.
  lemma StartedBack(d: Db, s: Step, p: PlanId, a: TaskId)
    requires Inv(d) && Started(Next(d, s), p, a)
    ensures a in d.tasks && d.tasks[a].kind == Apply(p)
    ensures || (Started(d, p, a) && Next(d, s).claims[a].exec == d.claims[a].exec && Next(d, s).tasks[a].worker == d.tasks[a].worker)
            || (d.tasks[a].status.Queued? && s.ClaimStep? && s.t == a && Due(d, a, s.w, s.slots))
  {
    hide Next, Due;
    var e := Next(d, s);
    StepKeeps(d, s);
    NewTasksAreAdmitted(d, s, a);
    assert TaskMoves(d, e, a);
    TaskMovesHaveCauses(d, s, a);
    if a in d.tasks && d.tasks[a].status.Running? {
      assert TaskRow(d, a) && ClaimRow(d, a) && ClaimRow(e, a);
      LiveBack(d, s, a);
    }
  }

  lemma PlanBack(d: Db, s: Step, p: PlanId)
    requires Inv(d) && p in d.plans
    ensures p in Next(d, s).plans && PlanStep(d.plans[p], Next(d, s).plans[p]) && d.clock <= Next(d, s).clock
    ensures d.plans[p].task in d.tasks && d.plans[p].task in Next(d, s).tasks && d.tasks[d.plans[p].task].kind.Request?
    ensures d.tasks[d.plans[p].task].workspace == d.plans[p].workspace
  {
    hide Next;
    StepKeeps(d, s);
    assert PlanRowMoves(d, Next(d, s), p) && PlanRow(d, p) && TaskMoves(d, Next(d, s), d.plans[p].task);
  }

  // What `AppliesMeans` says holds, taken one transaction back from an applying plan.
  lemma AppliesBack(d: Db, s: Step, p: PlanId)
    requires Inv(d) && p in d.plans && Applies(Next(d, s), p)
    ensures Applies(d, p) || (s.BeginStep? && s.p == p && CanBegin(d, s.r, p, s.owner, s.draft, s.intact))
  {
    hide Next, CanBegin;
    var e := Next(d, s);
    StepKeeps(d, s);
    PlanBack(d, s, p);
    AppliesMeans(e, p);
    var ws, h := e.plans[p].workspace, e.locks[e.plans[p].workspace];
    LockBack(d, s, ws);
    if ws in d.locks && d.locks[ws] == h { HolderBack(d, s, p, h); }
  }

  lemma HolderBack(d: Db, s: Step, p: PlanId, h: Holder)
    requires Inv(d) && p in d.plans && d.plans[p].workspace in d.locks && d.locks[d.plans[p].workspace] == h
    requires Applies(Next(d, s), p) && Next(d, s).plans[p].workspace in Next(d, s).locks && Next(d, s).locks[Next(d, s).plans[p].workspace] == h
    ensures Applies(d, p)
  {
    hide Next, Due;
    var e := Next(d, s);
    StepKeeps(d, s);
    PlanBack(d, s, p);
    AppliesMeans(e, p);
    assert LockRow(d, d.plans[p].workspace) && WithheldStays(d, e, p);
    StartedBack(d, s, p, h.record.task);
    AppliesFrom(d, p, h);
  }

  lemma RequeueBack(d: Db, s: Step, t: TaskId)
    requires Inv(d) && t in d.tasks && Requeueable(Next(d, s), t)
    ensures Requeueable(d, t)
  {
    hide Next, Inv, Leaked;
    var e := Next(d, s);
    StepKeeps(d, s);
    assert TaskMoves(d, e, t);
    forall q | q in d.plans && d.plans[q].task == t ensures !BegunPlan(d.plans[q].status) { assert PlanRowMoves(d, e, q); }
    forall u | u in d.tasks && Leaked(d, u) ensures u != t && d.tasks[u].parent != Some(t) {
      assert LeakStays(d, e, u) && TaskMoves(d, e, u);
    }
  }

  // Whoever is resumed has no attempt left that could be lost for good.
  lemma ResumableIsRequeueable(d: Db, t: TaskId)
    requires Inv(d) && t in d.tasks && d.tasks[t].kind.Request? && d.tasks[t].attempts < d.tasks[t].limit && !Unresolved(d, t, false)
    requires forall q | q in d.plans && d.plans[q].task == t :: !BegunPlan(d.plans[q].status)
    ensures Requeueable(d, t)
  {
    forall u | u in d.tasks && Leaked(d, u) ensures u != t && d.tasks[u].parent != Some(t) {
      if u == t || d.tasks[u].parent == Some(t) { FamilyAttempt(d, t, u, d.claims[u].exec); }
    }
  }

  lemma FamilyAttempt(d: Db, t: TaskId, u: TaskId, x: ExecId)
    requires t in d.tasks && d.tasks[t].kind.Request? && u in d.tasks && (u == t || d.tasks[u].parent == Some(t))
    requires x in d.execs && d.execs[x].task == u && ActiveExec(d.execs[x].status)
    ensures Unresolved(d, t, false)
  {
    assert InFamily(d, t, u);
    assert OpenAttempt(d, t, x, false);
    assert OpenEffect(d, ResolutionOwner(d, t), u, false);
  }

  lemma FencedIsOpen(d: Db, r: Record, t: TaskId)
    requires Inv(d) && Fenced(d, r, t)
    ensures !TerminalTask(d.tasks[t].status)
  {
    assert ClaimRow(d, t);
  }

  // A request that has ended stays so while a plan of it is under review.
  lemma EndedBack(d: Db, s: Step, p: PlanId, b: TaskStatus)
    requires Inv(d) && p in d.plans && OpenPlan(d.plans[p].status)
    requires p in Next(d, s).plans && OpenPlan(Next(d, s).plans[p].status) && d.plans[p].expires > Next(d, s).clock
    requires Requeueable(Next(d, s), d.plans[p].task) && b == Next(d, s).tasks[d.plans[p].task].status
    requires d.plans[p].task in d.tasks && TaskCause(d, s, d.plans[p].task, b) && (b.Blocked? || b.Failed? || b.Cancelling?)
    ensures !d.tasks[d.plans[p].task].status.Completed? && !d.tasks[d.plans[p].task].status.Cancelled?
  {
    var t := d.plans[p].task;
    HeldIsClosed(d, s, p);
    hide Next, Inv, Requeueable, ClosingCause, Fenced, LiveClaim, Unasked;
    if s.FinishStep? && Fenced(d, s.r, t) { FencedIsOpen(d, s.r, t); }
  }

  lemma RevokeHoldsNot(d: Db, p: PlanId, q: PlanId, owner: Owner)
    requires p in d.plans && d.plans[p].task in d.tasks && OpenPlan(d.plans[p].status)
    requires p in RevokePlan(d, q, owner).plans && OpenPlan(RevokePlan(d, q, owner).plans[p].status)
    ensures !ClosingCause(d, RevokeStep(q, owner), d.plans[p].task, Blocked)
  {
    RevokedPlans(d, q, owner);
    hide RevokePlan, LiveClaim;
  }

  lemma CancelHoldsNot(d: Db, p: PlanId, u: TaskId, owner: Owner, selected: bool)
    requires p in d.plans && d.plans[p].task in d.tasks && OpenPlan(d.plans[p].status)
    requires p in CancelTask(d, u, owner, selected).plans && OpenPlan(CancelTask(d, u, owner, selected).plans[p].status)
    ensures !ClosingCause(d, CancelStep(u, owner, selected), d.plans[p].task, Blocked)
  {
    CancelledPlans(d, u, owner, selected);
    hide CancelTask, CancelActs, Stoppable, RevokedChildren;
  }

  lemma ResolveHoldsNot(d: Db, p: PlanId, q: PlanId, owner: Owner, complete: bool)
    requires p in d.plans && d.plans[p].task in d.tasks && d.tasks[d.plans[p].task].kind.Request?
    requires Requeueable(ResolvePlan(d, q, owner, complete), d.plans[p].task)
    ensures !ClosingCause(d, ResolveStep(q, owner, complete), d.plans[p].task, Blocked)
  {
    ResolvedPlans(d, q, owner, complete);
    hide ResolvePlan, CanResolve, Quiet, Leaked;
    if CanResolve(d, q, owner) { assert ResolvePlan(d, q, owner, complete).plans[q].task == d.plans[q].task; }
  }

  lemma ExpiryHoldsNot(d: Db, p: PlanId, ps: seq<PlanId>, ts: seq<TaskId>)
    requires p in d.plans && d.plans[p].task in d.tasks && OpenPlan(d.plans[p].status) && d.plans[p].expires > d.clock
    ensures !ClosingCause(d, SettleExpiredStep(ps, ts), d.plans[p].task, Blocked)
  {
    hide LiveClaim, HasReviewAttempt;
  }

  // Closing steps hold a request only by closing all its plans or resolving a begun one.
  lemma HeldIsClosed(d: Db, s: Step, p: PlanId)
    requires Inv(d) && p in d.plans && OpenPlan(d.plans[p].status)
    requires p in Next(d, s).plans && OpenPlan(Next(d, s).plans[p].status) && d.plans[p].expires > Next(d, s).clock
    requires Requeueable(Next(d, s), d.plans[p].task)
    ensures d.plans[p].task in d.tasks && !ClosingCause(d, s, d.plans[p].task, Blocked)
  {
    PlanBack(d, s, p);
    if Closes(s) { ClosingHoldsNot(d, s, p, Next(d, s)); }
    hide Next, Inv, Requeueable;
  }

  lemma ClosingHoldsNot(d: Db, s: Step, p: PlanId, e: Db)
    requires Closes(s) && e == Next(d, s) && d.clock <= e.clock
    requires p in d.plans && d.plans[p].task in d.tasks && d.tasks[d.plans[p].task].kind.Request? && OpenPlan(d.plans[p].status)
    requires p in e.plans && OpenPlan(e.plans[p].status) && d.plans[p].expires > e.clock && Requeueable(e, d.plans[p].task)
    ensures !ClosingCause(d, s, d.plans[p].task, Blocked)
  {
    hide Tick, RegisterWorker, Heartbeat, SubmitRequest, SubmitApply, ApproveAndSubmit, ApprovePlan, RevokePlan, ProposePlan;
    hide StartFailure, Recover, ClaimNext, Renew, Finish, Resume, CancelTask, SettleExpired, BeginApply, MarkJournal, CommitApply;
    hide FailApply, CrashApply, ResolvePlan, ClaimDelivery, SettleDelivery, Acknowledge, ResetSession, Assess;
    hide Requeueable, ClosingCause;
    match s {
      case RevokeStep(q, owner) => RevokeHoldsNot(d, p, q, owner);
      case ResolveStep(q, owner, complete) => ResolveHoldsNot(d, p, q, owner, complete);
      case CancelStep(u, owner, selected) => CancelHoldsNot(d, p, u, owner, selected);
      case SettleExpiredStep(ps, ts) => ExpiryHoldsNot(d, p, ps, ts);
    }
  }

  lemma ParentBack(d: Db, s: Step, p: PlanId)
    requires Inv(d) && p in d.plans && OpenPlan(d.plans[p].status)
    requires p in Next(d, s).plans && OpenPlan(Next(d, s).plans[p].status) && d.plans[p].expires > Next(d, s).clock
    requires ParentReady(Next(d, s), d.plans[p].task)
    ensures ParentReady(d, d.plans[p].task)
  {
    hide Next, Requeueable, Unresolved, Due;
    var t, e := d.plans[p].task, Next(d, s);
    StepKeeps(d, s);
    PlanBack(d, s, p);
    TaskMovesHaveCauses(d, s, t);
    assert ClaimRow(d, t) && TaskRow(d, t);
    if Requeueable(e, t) { RequeueBack(d, s, t); }
    if e.tasks[t].status == d.tasks[t].status {
      if LiveClaim(e, t) && e.tasks[t].status.Running? { LiveBack(d, s, t); }
    } else {
      match e.tasks[t].status {
        case Queued => ResumableIsRequeueable(d, t);
        case Running => DueIsQueued(d, t, s.w, s.slots);
        case AwaitingApproval =>
        case Cancelling | Blocked | Failed => EndedBack(d, s, p, e.tasks[t].status);
        case Completed | Cancelled =>
      }
    }
  }

  lemma DueIsQueued(d: Db, t: TaskId, w: WorkerId, slots: int)
    ensures Due(d, t, w, slots) ==> t in d.tasks && d.tasks[t].status.Queued? && !Excluded(d, t)
  {
  }

  lemma CommitterApplies(d: Db, ws: Workspace, draft: bool)
    requires Inv(d) && ws in d.locks && MayTouch(d, d.locks[ws], PlanApplying, draft)
    ensures Applies(d, d.locks[ws].plan)
  {
    assert LockRow(d, ws);
  }

  lemma ResolvedParent(d: Db, q: PlanId, owner: Owner, complete: bool)
    requires CanResolve(d, q, owner)
    ensures var e := ResolvePlan(d, q, owner, complete);
      && d.plans[q].task in e.tasks && (e.tasks[d.plans[q].task].status.Blocked? || e.tasks[d.plans[q].task].status.Completed?)
      && q in e.plans && e.plans[q].task == d.plans[q].task && SettledPlan(e.plans[q].status)
  {
    hide Unresolved, LiveClaim, ResolvedExecs;
  }

  // A resolution ends the readiness of its request for good.
  lemma ResolvedIsOver(d: Db, p: PlanId, q: PlanId, owner: Owner, complete: bool)
    requires CanResolve(d, q, owner) && p in ResolvePlan(d, q, owner, complete).plans
    requires ResolvePlan(d, q, owner, complete).plans[p].task == d.plans[q].task
    ensures !Waits(ResolvePlan(d, q, owner, complete), p)
  {
    ResolvedParent(d, q, owner, complete);
    hide ResolvePlan, CanResolve, SiblingsFinish, Started, LiveClaim;
  }

  lemma QuietResolves(d: Db, q: PlanId)
    requires Inv(d) && q in d.plans && HeldPlan(d.plans[q].status) && Quiet(d, q)
    ensures CanResolve(d, q, d.plans[q].owner)
  {
    assert PlanRow(d, q);
  }

  // A sibling that the step settles finished by itself.
  lemma SettledBack(d: Db, s: Step, p: PlanId, q: PlanId)
    requires Inv(d) && p in d.plans && Waits(Next(d, s), p)
    requires q in d.plans && d.plans[q].task == d.plans[p].task && HeldPlan(d.plans[q].status)
    requires PlanCause(d, s, q, PlanApplied) || PlanCause(d, s, q, PlanReconciled)
    ensures s.CommitStep? && Applies(d, q)
  {
    hide Quiet, Waits;
    if s.ResolveStep? {
      PlanBack(d, s, p);
      QuietResolves(d, q);
      ResolvedIsOver(d, p, q, s.owner, s.complete);
    } else {
      CommitterApplies(d, s.ws, s.draft);
    }
  }

  lemma SiblingBack(d: Db, s: Step, p: PlanId, q: PlanId)
    requires Inv(d) && p in d.plans && OpenPlan(d.plans[p].status) && Waits(Next(d, s), p)
    requires q in d.plans && d.plans[q].task == d.plans[p].task && HeldPlan(d.plans[q].status)
    ensures Applies(d, q)
  {
    hide Next, Applies, Startable, StartedReady, PlanCause;
    var e := Next(d, s);
    PlanBack(d, s, p);
    PlanBack(d, s, q);
    PlanMovesHaveCauses(d, s, q);
    if HeldPlan(e.plans[q].status) {
      AppliesBack(d, s, q);
      if s.BeginStep? { BegunIsKnown(d, s.r, s.p, s.owner, s.draft, s.intact); }
    } else {
      SettledBack(d, s, p, q);
    }
  }

  lemma WaitsBack(d: Db, s: Step, p: PlanId)
    requires Inv(d) && p in d.plans && Waits(Next(d, s), p)
    ensures Waits(d, p)
  {
    hide Next, Requeueable, Applies, Due;
    var e := Next(d, s);
    StepKeeps(d, s);
    PlanBack(d, s, p);
    forall q | q in d.plans && d.plans[q].task == d.plans[p].task && HeldPlan(d.plans[q].status) ensures Applies(d, q) {
      SiblingBack(d, s, p, q);
    }
    if Startable(e, p) { StartableBack(d, s, p); } else { StartedReadyBack(d, s, p); }
  }

  lemma StartableBack(d: Db, s: Step, p: PlanId)
    requires Inv(d) && p in d.plans && OpenPlan(d.plans[p].status)
    requires Waits(Next(d, s), p) && Startable(Next(d, s), p)
    ensures Startable(d, p)
  {
    hide Next, Requeueable, Applies, Leaked, SiblingsFinish;
    var e := Next(d, s);
    StepKeeps(d, s);
    PlanBack(d, s, p);
    forall a | a in d.tasks && d.tasks[a].kind == Apply(p) ensures d.tasks[a].status.Queued? { assert TaskMoves(d, e, a); }
    forall u | u in d.tasks && Leaked(d, u) ensures d.tasks[u].workspace != d.plans[p].workspace {
      assert TaskMoves(d, e, u) && LeakStays(d, e, u);
    }
    hide ParentReady;
    ParentBack(d, s, p);
  }

  lemma ReceptiveBack(d: Db, s: Step, p: PlanId, a: TaskId)
    requires Inv(d) && p in d.plans && Started(d, p, a)
    requires d.plans[p].task in d.tasks && d.plans[p].task in Next(d, s).tasks && Receptive(Next(d, s).tasks[d.plans[p].task].status)
    ensures Receptive(d.tasks[d.plans[p].task].status)
  {
    hide Next, Due, Unresolved;
    var t := d.plans[p].task;
    assert PlanRow(d, p) && TaskRow(d, a) && ClaimRow(d, a) && ClaimRow(d, t) && ApartClaims(d, a, t);
    FamilyAttempt(d, t, a, d.claims[a].exec);
    TaskMovesHaveCauses(d, s, t);
    if s.ClaimStep? { DueIsQueued(d, t, s.w, s.slots); }
  }

  lemma StartedReadyBack(d: Db, s: Step, p: PlanId)
    requires Inv(d) && p in d.plans && OpenPlan(d.plans[p].status) && exists a :: StartedReady(Next(d, s), p, a)
    ensures Startable(d, p) || exists a :: StartedReady(d, p, a)
  {
    hide Next, Due, Startable;
    var e, t := Next(d, s), d.plans[p].task;
    var a :| StartedReady(e, p, a);
    PlanBack(d, s, p);
    StartedBack(d, s, p, a);
    if Started(d, p, a) {
      ReceptiveBack(d, s, p, a);
      assert StartedReady(d, p, a);
    } else {
      TaskMovesHaveCauses(d, s, t);
      ClaimedIsStartable(d, p, a, s.w, s.slots);
    }
  }

  // An apply that has just been claimed could be started.
  lemma ClaimedIsStartable(d: Db, p: PlanId, a: TaskId, w: WorkerId, slots: int)
    requires Inv(d) && p in d.plans && a in d.tasks && d.tasks[a].kind == Apply(p) && Due(d, a, w, slots)
    requires d.plans[p].task in d.tasks && Receptive(d.tasks[d.plans[p].task].status)
    ensures Startable(d, p)
  {
    var t := d.plans[p].task;
    assert PlanRow(d, p) && TaskRow(d, a) && TaskRow(d, t);
    forall b | b in d.tasks && d.tasks[b].kind == Apply(p) ensures d.tasks[b].status.Queued? { assert ApartTasks(d, a, b); }
  }

  // Nothing brings a plan back: if its files can be changed after a transaction, they could before.
  lemma AliveBack(d: Db, s: Step, p: PlanId)
    requires Inv(d) && p in d.plans && Alive(Next(d, s), p)
    ensures Alive(d, p)
  {
    hide Next, Startable, SiblingsFinish;
    if Waits(Next(d, s), p) {
      WaitsBack(d, s, p);
    } else {
      AppliesBack(d, s, p);
      if !Applies(d, p) { BeginnerWaits(d, s.r, p, s.owner, s.draft, s.intact); }
    }
  }

  lemma BeginnerWaits(d: Db, r: Record, p: PlanId, owner: Owner, draft: bool, intact: bool)
    requires Inv(d) && CanBegin(d, r, p, owner, draft, intact)
    ensures Waits(d, p)
  {
    assert PlanRow(d, p) && ClaimRow(d, r.task);
    forall q | q in d.plans && d.plans[q].task == d.plans[p].task ensures d.plans[q].workspace == d.plans[p].workspace { assert PlanRow(d, q); }
    assert StartedReady(d, p, r.task);
  }
}
